/**
 * The command-line player's line tokenizer. A first pass splits a line at
 * unescaped whitespace and cuts out quoted sections; a second pass removes the
 * escaping backslashes from every token.
 */
module Tokenizer {
  import opened Wrappers

  predicate IsWhitespace(c: char)
  {
    c == '\t' || c == ' '
  }

  predicate IsQuote(c: char)
  {
    c == '"' || c == '\''
  }

  /** The characters the first pass stops at. */
  predicate IsDelimiter(c: char)
  {
    IsWhitespace(c) || IsQuote(c) || c == '\\'
  }

  /** True when some character is a backslash. */
  predicate HasBackslash(s: string)
  {
    exists i :: 0 <= i < |s| && s[i] == '\\'
  }

  /** True when no character of `s` is a delimiter. */
  predicate IsPlainWord(s: string)
  {
    forall i :: 0 <= i < |s| ==> !IsDelimiter(s[i])
  }

  /**
   * How the first pass steps over a backslash followed by another character.
   * AsWritten skips two characters only when the second is whitespace or a quote
   * and one character otherwise; SkipTwo always skips both characters.
   */
  datatype BackslashRule = AsWritten | SkipTwo

  /** The first delimiter at or after `from`; |line| stands for "not found". */
  function FindDelimiter(line: string, from: nat): (r: nat)
    requires from <= |line|
    ensures from <= r <= |line|
    ensures r < |line| ==> IsDelimiter(line[r])
    ensures forall i :: from <= i < r ==> !IsDelimiter(line[i])
    decreases |line| - from
  {
    if from == |line| then |line|
    else if IsDelimiter(line[from]) then from
    else FindDelimiter(line, from + 1)
  }

  /** The first occurrence of `c` at or after `from`; |line| stands for "not found". */
  function FindChar(line: string, c: char, from: nat): (r: nat)
    requires from <= |line|
    ensures from <= r <= |line|
    ensures r < |line| ==> line[r] == c
    ensures forall i :: from <= i < r ==> line[i] != c
    decreases |line| - from
  {
    if from == |line| then |line|
    else if line[from] == c then from
    else FindChar(line, c, from + 1)
  }

  /** The character at `i` is the quote `q` and is not escaped by a backslash right before it. */
  predicate Closes(line: string, q: char, i: nat)
  {
    1 <= i < |line| && line[i] == q && line[i - 1] != '\\'
  }

  /**
   * The search for the quote closing a quoted section, starting at `end`: skips
   * quotes preceded by a backslash. None when no further quote exists; |line|
   * when the search ran off the end just after an escaped quote (or the opening
   * quote was the last character).
   */
  function ClosingQuote(line: string, q: char, end: nat): (r: Option<nat>)
    requires 1 <= end <= |line|
    ensures r.Some? ==> end <= r.value <= |line|
    ensures r.Some? && r.value < |line| ==> Closes(line, q, r.value)
    ensures r.Some? ==> forall i :: end <= i < r.value ==> !Closes(line, q, i)
    ensures r.None? ==> forall i :: end <= i < |line| ==> !Closes(line, q, i)
    decreases |line| - end
  {
    if end == |line| then Some(end)
    else
      var p := FindChar(line, q, end);
      if p == |line| then None
      else if line[p - 1] != '\\' then Some(p)
      else ClosingQuote(line, q, p + 1)
  }

  /** Everything from `start` to the end of the line, unless that is empty. */
  function Rest(line: string, start: nat): seq<string>
  {
    if start < |line| then [line[start..]] else []
  }

  /** The characters from `start` up to `end`, unless there are none. */
  function Piece(line: string, start: nat, end: nat): seq<string>
    requires start <= end <= |line|
  {
    if end > start then [line[start..end]] else []
  }

  /**
   * What one iteration of the first pass's loop does: the tokens it emits, and
   * either the loop state it leaves (`more`) or that the loop ends.
   */
  datatype Step = Step(emitted: seq<string>, more: bool, start: nat, cur: nat)

  /** One iteration of the first pass, with the current token starting at `start`. */
  function ScanStep(line: string, start: nat, cur: nat, rule: BackslashRule): (st: Step)
    requires start <= cur < |line|
    ensures st.more ==> st.start <= st.cur <= |line| + 1 && st.cur > cur
    ensures forall k :: 0 <= k < |st.emitted| ==> |st.emitted[k]| > 0
  {
    var d := FindDelimiter(line, cur);
    if d == |line| then Step(Rest(line, start), false, start, cur)
    else if line[d] == '\\' then
      if d + 1 < |line| then
        var next := if rule == SkipTwo || IsWhitespace(line[d + 1]) || IsQuote(line[d + 1]) then d + 2 else d + 1;
        if next >= |line| then Step(Rest(line, start), false, start, cur) else Step([], true, start, next)
      else Step(Rest(line, start), false, start, cur)
    else if IsWhitespace(line[d]) then
      Step(Piece(line, start, d), true, d + 1, d + 1)
    else
      match ClosingQuote(line, line[d], d + 1)
      case None => Step(Piece(line, start, d) + Rest(line, d + 1), false, start, cur)
      case Some(e) => Step(Piece(line, start, d) + Piece(line, d + 1, e), true, e + 1, e + 1)
  }

  /**
   * The tokens the first pass still emits when its loop is at `cur`, with the
   * current token starting at `start`.
   */
  function Scan(line: string, start: nat, cur: nat, rule: BackslashRule): (r: seq<string>)
    requires start <= cur <= |line| + 1
    ensures forall k :: 0 <= k < |r| ==> |r[k]| > 0
    decreases |line| + 1 - cur
  {
    if cur >= |line| then []
    else
      var st := ScanStep(line, start, cur, rule);
      st.emitted + (if st.more then Scan(line, st.start, st.cur, rule) else [])
  }

  /**
   * The second pass on one token: a backslash before another character is
   * dropped and that character kept literally; a trailing backslash stays.
   */
  function Unescape(t: string): string
  {
    if |t| == 0 then []
    else if t[0] == '\\' && |t| > 1 then [t[1]] + Unescape(t[2..])
    else [t[0]] + Unescape(t[1..])
  }

  function UnescapeAll(ts: seq<string>): (r: seq<string>)
    ensures |r| == |ts|
    ensures forall i :: 0 <= i < |ts| ==> r[i] == Unescape(ts[i])
  {
    seq(|ts|, i requires 0 <= i < |ts| => Unescape(ts[i]))
  }

  /** The tokens of a line under the given backslash rule. */
  function Tokenize(line: string, rule: BackslashRule): (r: seq<string>)
    ensures forall k :: 0 <= k < |r| ==> |r[k]| > 0
  {
    if line == [] then []
    else
      var raw := Scan(line, 0, 0, rule);
      UnescapeAllKeepsNonEmpty(raw);
      UnescapeAll(raw)
  }

  /** The search for a closing quote, as the nested loop of the first pass runs it. */
  method FindClosingQuote(line: string, d: nat) returns (closing: Option<nat>)
    requires d < |line| && IsQuote(line[d])
    ensures closing == ClosingQuote(line, line[d], d + 1)
  {
    var q := line[d];
    var end := d + 1;
    while end < |line|
      invariant d + 1 <= end <= |line|
      invariant ClosingQuote(line, q, end) == ClosingQuote(line, q, d + 1)
      decreases |line| - end
    {
      var newPos := FindChar(line, q, end);
      if newPos == |line| {
        return None;
      } else if line[newPos - 1] != '\\' {
        return Some(newPos);
      } else {
        end := newPos + 1;
      }
    }
    return Some(end);
  }

  /** One step of the second pass over a character that is kept as it is. */
  lemma UnescapeKeepStep(s: string, i: nat)
    requires i < |s| && (s[i] != '\\' || i + 1 == |s|)
    ensures Unescape(s[i..]) == [s[i]] + Unescape(s[i + 1..])
  {
    assert s[i..][1..] == s[i + 1..];
  }

  /** One step of the second pass over a backslash that escapes the next character. */
  lemma UnescapeDropStep(s: string, i: nat)
    requires i + 1 < |s| && s[i] == '\\'
    ensures Unescape(s[i..]) == [s[i + 1]] + Unescape(s[i + 2..])
  {
    assert s[i..][2..] == s[i + 2..];
  }

  /** Erasing an escaping backslash at `i` and stepping as the second pass does keeps what is still to come. */
  lemma EraseStep(s: string, i: nat)
    requires i + 1 < |s| && s[i] == '\\'
    ensures var t := s[..i] + s[i + 1..];
      var j := if t[i] == '\\' then i + 1 else i;
      j <= |t| && t[..j] + Unescape(t[j..]) == s[..i] + Unescape(s[i..])
  {
    var t := s[..i] + s[i + 1..];
    UnescapeDropStep(s, i);
    assert t[..i] == s[..i] && t[i..] == s[i + 1..] && t[i + 1..] == s[i + 2..];
    if t[i] == '\\' {
      assert t[..i + 1] == s[..i] + [s[i + 1]];
    } else {
      UnescapeKeepStep(t, i);
    }
  }

  /** Stepping over a character that is not a backslash keeps what is still to come. */
  lemma KeepStep(s: string, i: nat)
    requires i < |s| && s[i] != '\\'
    ensures s[..i + 1] + Unescape(s[i + 1..]) == s[..i] + Unescape(s[i..])
  {
    UnescapeKeepStep(s, i);
    assert s[..i + 1] == s[..i] + [s[i]];
  }

  /** Stopping at a trailing backslash leaves the token as the second pass defines it. */
  lemma TrailingBackslashStep(s: string, i: nat)
    requires i + 1 == |s|
    ensures s == s[..i] + Unescape(s[i..])
  {
    UnescapeKeepStep(s, i);
    assert s[i + 1..] == [];
    assert s == s[..i] + s[i..];
  }

  /** The second pass on one token, erasing backslashes in place. */
  method UnescapeToken(token: string) returns (s: string)
    ensures s == Unescape(token)
  {
    s := token;
    var i := 0;
    while i < |s|
      invariant 0 <= i <= |s|
      invariant s[..i] + Unescape(s[i..]) == Unescape(token)
      decreases |s| - i
    {
      if s[i] == '\\' {
        if i + 1 == |s| {
          TrailingBackslashStep(s, i);
          return;
        }
        EraseStep(s, i);
        s := s[..i] + s[i + 1..];
        if s[i] == '\\' {
          i := i + 1;
        }
      } else {
        KeepStep(s, i);
        i := i + 1;
      }
    }
    assert s == s[..i];
  }

  /**
   * One iteration of the first pass's loop, as the source writes it: find the
   * next delimiter and act on its kind.
   */
  method ScanIteration(line: string, start: nat, cur: nat) returns (st: Step)
    requires start <= cur < |line|
    ensures st == ScanStep(line, start, cur, AsWritten)
  {
    var d := FindDelimiter(line, cur);
    if d == |line| {
      return Step(Rest(line, start), false, start, cur);
    } else if line[d] == '\\' {
      var next := cur;
      if d + 1 < |line| {
        if IsWhitespace(line[d + 1]) || IsQuote(line[d + 1]) {
          next := d + 2;
        } else {
          next := d + 1;
        }
      }
      if d + 1 >= |line| || next >= |line| {
        return Step(Rest(line, start), false, start, cur);
      }
      return Step([], true, start, next);
    } else if IsWhitespace(line[d]) {
      return Step(Piece(line, start, d), true, d + 1, d + 1);
    } else {
      var pre := Piece(line, start, d);
      var closing := FindClosingQuote(line, d);
      match closing
      case None =>
        return Step(pre + Rest(line, d + 1), false, start, cur);
      case Some(e) =>
        return Step(pre + Piece(line, d + 1, e), true, e + 1, e + 1);
    }
  }

  /** The first pass of tokenize_line: the raw tokens, backslashes still in place. */
  method FirstPass(line: string) returns (tokens: seq<string>)
    ensures tokens == Scan(line, 0, 0, AsWritten)
  {
    var cur: nat, start: nat := 0, 0;
    tokens := [];
    while cur < |line|
      invariant start <= cur <= |line| + 1
      invariant Scan(line, 0, 0, AsWritten) == tokens + Scan(line, start, cur, AsWritten)
      decreases |line| + 1 - cur
    {
      var st := ScanIteration(line, start, cur);
      ghost var later := if st.more then Scan(line, st.start, st.cur, AsWritten) else [];
      assert Scan(line, start, cur, AsWritten) == st.emitted + later;
      assert tokens + (st.emitted + later) == (tokens + st.emitted) + later;
      tokens := tokens + st.emitted;
      if !st.more {
        return;
      }
      start, cur := st.start, st.cur;
    }
  }

  /** tokenize_line: both passes, with the source's backslash rule. */
  method TokenizeLine(line: string) returns (tokens: seq<string>)
    ensures tokens == Tokenize(line, AsWritten)
    ensures forall k :: 0 <= k < |tokens| ==> |tokens[k]| > 0
  {
    if line == [] {
      return [];
    }
    tokens := FirstPass(line);
    ghost var raw := tokens;
    var i := 0;
    while i < |tokens|
      invariant 0 <= i <= |tokens| == |raw|
      invariant forall k :: 0 <= k < i ==> tokens[k] == Unescape(raw[k])
      invariant forall k :: i <= k < |tokens| ==> tokens[k] == raw[k]
    {
      var t := UnescapeToken(tokens[i]);
      tokens := tokens[i := t];
      i := i + 1;
    }
  }

  // ---- properties of the second pass ----

  /** Unescaping never lengthens a token and keeps a non-empty token non-empty. */
  lemma {:induction false} UnescapeKeepsNonEmpty(t: string)
    ensures |Unescape(t)| <= |t|
    ensures |t| > 0 ==> |Unescape(t)| > 0
    decreases |t|
  {
    if |t| == 0 {
    } else if t[0] == '\\' && |t| > 1 {
      UnescapeKeepsNonEmpty(t[2..]);
    } else {
      UnescapeKeepsNonEmpty(t[1..]);
    }
  }

  /** The second pass keeps every token of a list of non-empty tokens non-empty. */
  lemma UnescapeAllKeepsNonEmpty(ts: seq<string>)
    requires forall k :: 0 <= k < |ts| ==> |ts[k]| > 0
    ensures forall k :: 0 <= k < |UnescapeAll(ts)| ==> |UnescapeAll(ts)[k]| > 0
  {
    forall k | 0 <= k < |ts|
      ensures |Unescape(ts[k])| > 0
    {
      UnescapeKeepsNonEmpty(ts[k]);
    }
  }

  /** A prefix without backslashes passes through the second pass unchanged. */
  lemma {:induction false} UnescapePlainPrefix(a: string, b: string)
    requires !HasBackslash(a)
    ensures Unescape(a + b) == a + Unescape(b)
    decreases |a|
  {
    if |a| > 0 {
      assert a[0] != '\\';
      assert !HasBackslash(a[1..]) by {
        forall i | 0 <= i < |a[1..]| ensures a[1..][i] != '\\' {
          assert a[1..][i] == a[i + 1];
        }
      }
      UnescapePlainPrefix(a[1..], b);
      assert (a + b)[1..] == a[1..] + b;
      assert a == [a[0]] + a[1..];
    } else {
      assert a + b == b;
    }
  }

  /** A token without backslashes comes out of the second pass unchanged. */
  lemma UnescapeWithoutBackslash(t: string)
    requires !HasBackslash(t)
    ensures Unescape(t) == t
  {
    UnescapePlainPrefix(t, []);
    assert t + [] == t;
  }

  /** A backslash and the character after it become that character alone. */
  lemma UnescapeEscapedPair(c: char, b: string)
    ensures Unescape(['\\', c] + b) == [c] + Unescape(b)
  {
    assert (['\\', c] + b)[2..] == b;
  }

  /** A plain word contains no backslash. */
  lemma PlainWordHasNoBackslash(s: string)
    requires IsPlainWord(s)
    ensures !HasBackslash(s)
  {
  }

  /**
   * The documented example of the second pass, for any plain words h, w and
   * a: the escaped quote between h and w becomes a plain quote, and the
   * doubled backslash between w and a becomes a single backslash.
   */
  lemma UnescapeExample(h: string, w: string, a: string)
    requires IsPlainWord(h) && IsPlainWord(w) && IsPlainWord(a)
    ensures Unescape(h + ['\\', '"'] + w + ['\\', '\\'] + a) == h + ['"'] + w + ['\\'] + a
  {
    var tail := ['\\', '\\'] + a;
    var mid := w + tail;
    var whole := ['\\', '"'] + mid;
    assert h + ['\\', '"'] + w + ['\\', '\\'] + a == h + whole;
    assert h + ['"'] + w + ['\\'] + a == h + (['"'] + (w + (['\\'] + a)));
    assert Unescape(tail) == ['\\'] + a by {
      PlainWordHasNoBackslash(a);
      UnescapeWithoutBackslash(a);
      UnescapeEscapedPair('\\', a);
    }
    assert Unescape(mid) == w + (['\\'] + a) by {
      PlainWordHasNoBackslash(w);
      UnescapePlainPrefix(w, tail);
    }
    assert Unescape(whole) == ['"'] + (w + (['\\'] + a)) by {
      UnescapeEscapedPair('"', mid);
    }
    PlainWordHasNoBackslash(h);
    UnescapePlainPrefix(h, whole);
  }


  // ---- properties of the first pass ----

  /** The first delimiter at or after `from` is the position the search reports. */
  lemma FindDelimiterAt(line: string, from: nat, k: nat)
    requires from <= k <= |line|
    requires k < |line| ==> IsDelimiter(line[k])
    requires forall i :: from <= i < k ==> !IsDelimiter(line[i])
    ensures FindDelimiter(line, from) == k
  {
  }

  /** The first occurrence of `c` at or after `from` is the position the search reports. */
  lemma FindCharAt(line: string, c: char, from: nat, k: nat)
    requires from <= k <= |line|
    requires k < |line| ==> line[k] == c
    requires forall i :: from <= i < k ==> line[i] != c
    ensures FindChar(line, c, from) == k
  {
  }

  /** A non-empty line without any delimiter is one token, the line itself. */
  lemma PlainLineIsOneToken(line: string, rule: BackslashRule)
    requires |line| > 0 && IsPlainWord(line)
    ensures Tokenize(line, rule) == [line]
  {
    FindDelimiterAt(line, 0, |line|);
    assert line[0..] == line;
    PlainWordHasNoBackslash(line);
    UnescapeWithoutBackslash(line);
  }

  /** Two words separated by a run of unescaped blanks and tabs, of any length, are two tokens. */
  lemma WhitespaceSeparatesWords(a: string, ws: string, b: string, rule: BackslashRule)
    requires |a| > 0 && |b| > 0 && IsPlainWord(a) && IsPlainWord(b)
    requires |ws| > 0 && forall i :: 0 <= i < |ws| ==> IsWhitespace(ws[i])
    ensures Tokenize(a + ws + b, rule) == [a, b]
  {
    var line := a + ws + b;
    WordsAroundRunDelimiters(a, ws, b);
    ScanAroundRun(line, |a|, |a| + |ws|, rule);
    assert line[..|a|] == a;
    assert line[|a| + |ws|..] == b;
    PlainWordHasNoBackslash(a);
    PlainWordHasNoBackslash(b);
    UnescapeWithoutBackslash(a);
    UnescapeWithoutBackslash(b);
    assert Tokenize(line, rule) == UnescapeAll([a, b]);
  }

  /** Where the first pass finds delimiters in `a`, a whitespace run `ws`, `b`. */
  lemma WordsAroundRunDelimiters(a: string, ws: string, b: string)
    requires |a| > 0 && |b| > 0 && IsPlainWord(a) && IsPlainWord(b)
    requires |ws| > 0 && forall i :: 0 <= i < |ws| ==> IsWhitespace(ws[i])
    ensures var line := a + ws + b; var n, e := |a|, |a| + |ws|;
      |line| == e + |b| && FindDelimiter(line, 0) == n && FindDelimiter(line, e) == |line| &&
      forall i :: n <= i < e ==> IsWhitespace(line[i])
  {
    var line := a + ws + b;
    var n, e := |a|, |a| + |ws|;
    forall i | 0 <= i < n ensures !IsDelimiter(line[i]) {
      assert line[i] == a[i];
    }
    FindDelimiterAt(line, 0, n);
    forall i | e <= i < |line| ensures !IsDelimiter(line[i]) {
      assert line[i] == b[i - e];
    }
    FindDelimiterAt(line, e, |line|);
    forall i | n <= i < e ensures IsWhitespace(line[i]) {
      assert line[i] == ws[i - n];
    }
  }

  /** The first pass ends a word at a whitespace run and starts the next token after it. */
  lemma ScanAroundRun(line: string, n: nat, e: nat, rule: BackslashRule)
    requires 0 < n < e < |line| && forall i :: n <= i < e ==> IsWhitespace(line[i])
    requires FindDelimiter(line, 0) == n && FindDelimiter(line, e) == |line|
    ensures Scan(line, 0, 0, rule) == [line[..n], line[e..]]
  {
    assert line[0..n] == line[..n];
    assert ScanStep(line, 0, 0, rule) == Step([line[..n]], true, n + 1, n + 1);
    ScanSkipsWhitespace(line, n + 1, e, rule);
    assert Scan(line, e, e, rule) == [line[e..]];
  }

  /** The first pass passes over whitespace between tokens without emitting anything. */
  lemma {:induction false} ScanSkipsWhitespace(line: string, p: nat, q: nat, rule: BackslashRule)
    requires p <= q < |line|
    requires forall i :: p <= i < q ==> IsWhitespace(line[i])
    ensures Scan(line, p, p, rule) == Scan(line, q, q, rule)
    decreases q - p
  {
    if p < q {
      FindDelimiterAt(line, p, p);
      var st := ScanStep(line, p, p, rule);
      assert st == Step([], true, p + 1, p + 1);
      assert Scan(line, p, p, rule) == st.emitted + Scan(line, p + 1, p + 1, rule);
      ScanSkipsWhitespace(line, p + 1, q, rule);
    }
  }

  /**
   * A quoted section that contains neither quotes nor backslashes is one token,
   * whitespace included, without its quotes.
   */
  lemma QuotedSectionIsOneToken(q: char, a: string, rule: BackslashRule)
    requires IsQuote(q) && |a| > 0
    requires forall i :: 0 <= i < |a| ==> !IsQuote(a[i]) && a[i] != '\\'
    ensures Tokenize([q] + a + [q], rule) == [a]
  {
    var line := [q] + a + [q];
    var n := |a|;
    FindDelimiterAt(line, 0, 0);
    forall i | 1 <= i < n + 1 ensures line[i] != q {
      assert line[i] == a[i - 1];
    }
    FindCharAt(line, q, 1, n + 1);
    assert line[n] == a[n - 1];
    assert ClosingQuote(line, q, 1) == Some(n + 1);
    assert line[1..n + 1] == a;
    assert ScanStep(line, 0, 0, rule) == Step([a], true, n + 2, n + 2);
    assert Scan(line, 0, 0, rule) == [a];
    assert !HasBackslash(a);
    UnescapeWithoutBackslash(a);
  }

  /** An unterminated quote takes the rest of the line as one token. */
  lemma UnterminatedQuoteTakesRest(q: char, a: string, rule: BackslashRule)
    requires IsQuote(q) && |a| > 0
    requires forall i :: 0 <= i < |a| ==> !IsQuote(a[i]) && a[i] != '\\'
    ensures Tokenize([q] + a, rule) == [a]
  {
    var line := [q] + a;
    FindDelimiterAt(line, 0, 0);
    forall i | 1 <= i < |line| ensures line[i] != q {
      assert line[i] == a[i - 1];
    }
    FindCharAt(line, q, 1, |line|);
    assert line[1..] == a;
    assert Scan(line, 0, 0, rule) == [a];
    assert !HasBackslash(a);
    UnescapeWithoutBackslash(a);
  }

  /** An empty line has no tokens. */
  lemma EmptyLineHasNoTokens(rule: BackslashRule)
    ensures Tokenize([], rule) == []
  {
  }

  /** A pair of quotes with nothing between them produces no token. */
  lemma EmptyQuotesProduceNothing(q: char, rule: BackslashRule)
    requires IsQuote(q)
    ensures Tokenize([q, q], rule) == []
  {
    var line := [q, q];
    FindDelimiterAt(line, 0, 0);
    FindCharAt(line, q, 1, 1);
    assert ClosingQuote(line, q, 1) == Some(1);
    assert ScanStep(line, 0, 0, rule) == Step([], true, 2, 2);
    assert Scan(line, 0, 0, rule) == [];
    assert UnescapeAll([]) == [];
  }

  /** Text right before an opening quote is a token of its own, apart from the quoted one. */
  lemma TextBeforeQuoteIsSeparate(a: string, q: char, b: string, rule: BackslashRule)
    requires IsQuote(q) && |a| > 0 && IsPlainWord(a) && |b| > 0
    requires forall i :: 0 <= i < |b| ==> !IsQuote(b[i]) && b[i] != '\\'
    ensures Tokenize(a + [q] + b + [q], rule) == [a, b]
  {
    var line := a + [q] + b + [q];
    var n, m := |a|, |b|;
    WordThenQuotedLayout(a, q, b);
    ScanWordThenQuoted(line, n, n + m + 1, rule);
    PlainWordHasNoBackslash(a);
    UnescapeWithoutBackslash(a);
    assert !HasBackslash(b);
    UnescapeWithoutBackslash(b);
    assert Tokenize(line, rule) == UnescapeAll([a, b]);
  }

  /** Where the first pass finds the word, the quotes and the quoted text in `a q b q`. */
  lemma WordThenQuotedLayout(a: string, q: char, b: string)
    requires IsQuote(q) && |a| > 0 && IsPlainWord(a) && |b| > 0
    requires forall i :: 0 <= i < |b| ==> !IsQuote(b[i]) && b[i] != '\\'
    ensures var line := a + [q] + b + [q]; var n, m := |a|, |b|;
      |line| == n + m + 2 && line[n] == q &&
      FindDelimiter(line, 0) == n && ClosingQuote(line, q, n + 1) == Some(n + m + 1) &&
      line[..n] == a && line[n + 1..n + m + 1] == b
  {
    var line := a + [q] + b + [q];
    var n, m := |a|, |b|;
    QuoteAfterWord(a, q, b);
    forall i | n + 1 <= i <= n + m ensures !IsQuote(line[i]) && line[i] != '\\' {
      assert line[i] == b[i - n - 1];
    }
    ClosingQuoteAfterPlain(line, q, n, m);
    assert line[..n] == a;
    assert line[n + 1..n + m + 1] == b;
  }

  /**
   * A word ended by an opening quote at `n` whose section closes at the last
   * character: the first pass emits the word and the quoted text.
   */
  lemma ScanWordThenQuoted(line: string, n: nat, e: nat, rule: BackslashRule)
    requires 0 < n && n + 1 < e && e + 1 == |line| && IsQuote(line[n])
    requires FindDelimiter(line, 0) == n && ClosingQuote(line, line[n], n + 1) == Some(e)
    ensures Scan(line, 0, 0, rule) == [line[..n], line[n + 1..e]]
  {
    assert line[0..n] == line[..n];
    assert ScanStep(line, 0, 0, rule) == Step([line[..n], line[n + 1..e]], true, e + 1, e + 1);
  }

  /** In `a q b q`, the first delimiter is the opening quote. */
  lemma QuoteAfterWord(a: string, q: char, b: string)
    requires IsQuote(q) && IsPlainWord(a)
    ensures FindDelimiter(a + [q] + b + [q], 0) == |a|
  {
    var line := a + [q] + b + [q];
    forall i | 0 <= i < |a| ensures !IsDelimiter(line[i]) {
      assert line[i] == a[i];
    }
    FindDelimiterAt(line, 0, |a|);
  }

  /**
   * A section opened by the quote at `d` whose following `m` characters are
   * neither quotes nor backslashes closes at the quote right after them.
   */
  lemma ClosingQuoteAfterPlain(line: string, q: char, d: nat, m: nat)
    requires IsQuote(q) && m > 0 && d + m + 1 < |line| && line[d + m + 1] == q
    requires forall i :: d + 1 <= i <= d + m ==> !IsQuote(line[i]) && line[i] != '\\'
    ensures ClosingQuote(line, q, d + 1) == Some(d + m + 1)
  {
    ClosingQuoteAt(line, q, d + 1, d + m + 1);
  }

  /** An unescaped quote with no quote before it, after `end`, closes the section. */
  lemma ClosingQuoteAt(line: string, q: char, end: nat, p: nat)
    requires 1 <= end <= p < |line| && line[p] == q && line[p - 1] != '\\'
    requires forall i :: end <= i < p ==> line[i] != q
    ensures ClosingQuote(line, q, end) == Some(p)
  {
    FindCharAt(line, q, end, p);
  }

  /** In `q a \q b q`, the search skips the escaped quote and stops at the last quote. */
  lemma ClosingQuoteSkipsEscaped(q: char, a: string, b: string)
    requires IsQuote(q) && IsPlainWord(a) && IsPlainWord(b)
    ensures var line := [q] + a + ['\\', q] + b + [q];
      ClosingQuote(line, q, 1) == Some(|a| + |b| + 3)
  {
    var line := [q] + a + ['\\', q] + b + [q];
    var n, m := |a|, |b|;
    assert line[n + 1] == '\\' && line[n + 2] == q && line[n + 3 + m] == q;
    forall i | 1 <= i < n + 1 ensures line[i] != q {
      assert line[i] == a[i - 1];
    }
    forall i | n + 3 <= i < n + 3 + m ensures line[i] != q {
      assert line[i] == b[i - n - 3];
    }
    assert line[n + 2 + m] != '\\' by {
      if m > 0 {
        assert line[n + 2 + m] == b[m - 1];
      }
    }
    FindCharAt(line, q, 1, n + 2);
    FindCharAt(line, q, n + 3, n + 3 + m);
    assert ClosingQuote(line, q, n + 3) == Some(n + 3 + m);
  }

  /** The second pass turns `a \q b` into `a q b`. */
  lemma UnescapeEscapedQuote(q: char, a: string, b: string)
    requires IsQuote(q) && IsPlainWord(a) && IsPlainWord(b)
    ensures Unescape(a + ['\\', q] + b) == a + [q] + b
  {
    assert a + ['\\', q] + b == a + (['\\', q] + b);
    assert a + [q] + b == a + ([q] + b);
    PlainWordHasNoBackslash(a);
    PlainWordHasNoBackslash(b);
    UnescapeWithoutBackslash(b);
    UnescapeEscapedPair(q, b);
    UnescapePlainPrefix(a, ['\\', q] + b);
  }

  /**
   * A quote preceded by a backslash does not close a quoted section, and the
   * second pass drops that backslash.
   */
  lemma EscapedQuoteStaysInside(q: char, a: string, b: string, rule: BackslashRule)
    requires IsQuote(q) && IsPlainWord(a) && IsPlainWord(b)
    ensures Tokenize([q] + a + ['\\', q] + b + [q], rule) == [a + [q] + b]
  {
    var inner := a + ['\\', q] + b;
    var line := [q] + a + ['\\', q] + b + [q];
    var k := |a| + |b| + 3;
    assert |line| == k + 1 && line[0] == q;
    FindDelimiterAt(line, 0, 0);
    ClosingQuoteSkipsEscaped(q, a, b);
    assert line[1..k] == inner;
    assert ScanStep(line, 0, 0, rule) == Step([inner], true, k + 1, k + 1);
    assert Scan(line, 0, 0, rule) == [inner];
    UnescapeEscapedQuote(q, a, b);
    assert Tokenize(line, rule) == UnescapeAll([inner]);
  }

  // ---- the escaped-backslash discrepancy ----

  /**
   * As written, an escaped backslash in front of a space still escapes the
   * space: `a\\ b` stays one token `a\ b`, although the second pass treats `\\`
   * as one literal backslash.
   */
  lemma EscapedBackslashJoinsAsWritten(a: string, b: string)
    requires |a| > 0 && |b| > 0 && IsPlainWord(a) && IsPlainWord(b)
    ensures Tokenize(a + "\\\\" + " " + b, AsWritten) == [a + "\\" + " " + b]
  {
    var line := a + "\\\\" + " " + b;
    EscapedLineDelimiters(a, b);
    ScanAsWrittenJoins(line, |a|);
    UnescapeBackslashSpace(a, b);
    assert Tokenize(line, AsWritten) == UnescapeAll([line]);
  }

  /**
   * Skipping two characters after every backslash (what the source's own
   * comment proposes) ends a word at `\\` followed by whitespace: `a\\ b`
   * becomes the two tokens `a\` and `b`, for any plain words a and b.
   */
  lemma EscapedBackslashEndsWordWithSkipTwo(a: string, b: string)
    requires |a| > 0 && |b| > 0 && IsPlainWord(a) && IsPlainWord(b)
    ensures Tokenize(a + "\\\\" + " " + b, SkipTwo) == [a + "\\", b]
  {
    var line := a + "\\\\" + " " + b;
    var n := |a|;
    var first := a + "\\\\";
    EscapedLineDelimiters(a, b);
    ScanSkipTwoSplits(line, n);
    assert line[..n + 2] == first;
    assert line[n + 3..] == b;
    PlainWordHasNoBackslash(a);
    PlainWordHasNoBackslash(b);
    UnescapeWithoutBackslash(b);
    UnescapeEscapedPair('\\', []);
    assert "\\\\" == ['\\', '\\'] + [];
    UnescapePlainPrefix(a, "\\\\");
    assert Unescape(first) == a + "\\";
    assert Tokenize(line, SkipTwo) == UnescapeAll([first, b]);
  }

  /** Where the first pass finds delimiters in `a\\ b`. */
  lemma EscapedLineDelimiters(a: string, b: string)
    requires |a| > 0 && |b| > 0 && IsPlainWord(a) && IsPlainWord(b)
    ensures var line := a + "\\\\" + " " + b; var n := |a|;
      |line| == n + 3 + |b| && line[n] == '\\' && line[n + 1] == '\\' && line[n + 2] == ' ' &&
      FindDelimiter(line, 0) == n && FindDelimiter(line, n + 1) == n + 1 &&
      FindDelimiter(line, n + 2) == n + 2 && FindDelimiter(line, n + 3) == |line|
  {
    var line := a + "\\\\" + " " + b;
    var n := |a|;
    assert line[n] == '\\' && line[n + 1] == '\\' && line[n + 2] == ' ';
    forall i | 0 <= i < n ensures !IsDelimiter(line[i]) {
      assert line[i] == a[i];
    }
    forall i | n + 3 <= i < |line| ensures !IsDelimiter(line[i]) {
      assert line[i] == b[i - n - 3];
    }
    FindDelimiterAt(line, 0, n);
    FindDelimiterAt(line, n + 1, n + 1);
    FindDelimiterAt(line, n + 2, n + 2);
    FindDelimiterAt(line, n + 3, |line|);
  }

  /** As written, the first pass runs over `\\` and the escaped blank to the end of the line. */
  lemma ScanAsWrittenJoins(line: string, n: nat)
    requires n + 3 < |line| && line[n] == '\\' && line[n + 1] == '\\' && line[n + 2] == ' '
    requires FindDelimiter(line, 0) == n && FindDelimiter(line, n + 1) == n + 1
    requires FindDelimiter(line, n + 3) == |line|
    ensures Scan(line, 0, 0, AsWritten) == [line]
  {
    assert line[0..] == line;
    assert ScanStep(line, 0, n + 3, AsWritten) == Step([line], false, 0, n + 3);
    assert ScanStep(line, 0, n + 1, AsWritten) == Step([], true, 0, n + 3);
    assert ScanStep(line, 0, 0, AsWritten) == Step([], true, 0, n + 1);
    assert Scan(line, 0, n + 3, AsWritten) == [line];
    assert Scan(line, 0, n + 1, AsWritten) == [line];
  }

  /** Skipping two, the first pass ends the first word at the blank after `\\`. */
  lemma ScanSkipTwoSplits(line: string, n: nat)
    requires n + 3 < |line| && line[n] == '\\' && line[n + 1] == '\\' && line[n + 2] == ' '
    requires FindDelimiter(line, 0) == n && FindDelimiter(line, n + 2) == n + 2
    requires FindDelimiter(line, n + 3) == |line|
    ensures Scan(line, 0, 0, SkipTwo) == [line[..n + 2], line[n + 3..]]
  {
    assert line[0..n + 2] == line[..n + 2];
    assert ScanStep(line, n + 3, n + 3, SkipTwo) == Step([line[n + 3..]], false, n + 3, n + 3);
    assert ScanStep(line, 0, n + 2, SkipTwo) == Step([line[..n + 2]], true, n + 3, n + 3);
    assert ScanStep(line, 0, 0, SkipTwo) == Step([], true, 0, n + 2);
    assert Scan(line, n + 3, n + 3, SkipTwo) == [line[n + 3..]];
    assert Scan(line, 0, n + 2, SkipTwo) == [line[..n + 2], line[n + 3..]];
  }

  /** The second pass turns `a\\ b` into `a\ b`. */
  lemma UnescapeBackslashSpace(a: string, b: string)
    requires IsPlainWord(a) && IsPlainWord(b)
    ensures Unescape(a + "\\\\" + " " + b) == a + "\\" + " " + b
  {
    var tail := " " + b;
    assert a + "\\\\" + " " + b == a + ("\\\\" + tail);
    assert a + "\\" + " " + b == a + ("\\" + tail);
    PlainWordHasNoBackslash(a);
    PlainWordHasNoBackslash(b);
    assert !HasBackslash(tail) by {
      assert forall i :: 1 <= i < |tail| ==> tail[i] == b[i - 1];
    }
    UnescapeWithoutBackslash(tail);
    UnescapeEscapedPair('\\', tail);
    UnescapePlainPrefix(a, ['\\', '\\'] + tail);
  }
}
