/**
 * Logging: the names of the log levels, the minimum level of the logger, and
 * the column bookkeeping of the standard-error writer (timestamp width and
 * the padding that lines up the source and location columns). The text the
 * writer prints is not modelled.
 */
module Log {

  datatype LogLevel = Trace | Debug | Info | Warning | Error

  /** The enumerator value of a level, in declaration order from 0. */
  function LevelValue(level: LogLevel): (v: nat)
    ensures v < 5
  {
    match level
    case Trace => 0
    case Debug => 1
    case Info => 2
    case Warning => 3
    case Error => 4
  }

  /**
   * The name of a level value; values outside the enumeration are "unknown".
   * Padded names have trailing blanks so that all have the same width.
   */
  function LevelNameOfValue(v: int, padded: bool): (r: string)
    ensures r == "unknown" <==> v < 0 || v > 4
    ensures padded ==> |r| == PaddedWidth
  {
    if padded then
      if v == 0 then "trace  "
      else if v == 1 then "debug  "
      else if v == 2 then "info   "
      else if v == 3 then "warning"
      else if v == 4 then "error  "
      else "unknown"
    else
      if v == 0 then "trace"
      else if v == 1 then "debug"
      else if v == 2 then "info"
      else if v == 3 then "warning"
      else if v == 4 then "error"
      else "unknown"
  }

  function LevelName(level: LogLevel, padded: bool): string
  {
    LevelNameOfValue(LevelValue(level), padded)
  }

  const PaddedWidth: nat := 7

  function Blanks(n: nat): (s: string)
    ensures |s| == n && forall i :: 0 <= i < n ==> s[i] == ' '
  {
    if n == 0 then [] else [' '] + Blanks(n - 1)
  }

  /** A padded name is the plain name followed by blanks up to the common width. */
  lemma PaddedIsPlainPlusBlanks(v: int)
    ensures |LevelNameOfValue(v, false)| <= PaddedWidth
    ensures LevelNameOfValue(v, true) ==
              LevelNameOfValue(v, false) + Blanks(PaddedWidth - |LevelNameOfValue(v, false)|)
  {
    var plain := LevelNameOfValue(v, false);
    var pad := Blanks(PaddedWidth - |plain|);
    assert LevelNameOfValue(v, true) == plain + pad;
  }

  /** Distinct levels have distinct plain names, none of them "unknown". */
  lemma LevelNamesDistinct(a: LogLevel, b: LogLevel)
    ensures LevelName(a, false) != "unknown"
    ensures LevelName(a, false) == LevelName(b, false) ==> a == b
  {
    var x, y := LevelName(a, false), LevelName(b, false);
    assert x[0] != 'u';
    if a != b {
      assert x[0] != y[0] || |x| != |y|;
    }
  }

  /** The logger's minimum level; it starts at info. */
  class Logger {
    var minLevel: LogLevel

    constructor()
      ensures minLevel == Info
    {
      minLevel := Info;
    }

    method SetMinLogLevel(level: LogLevel)
      modifies this
      ensures minLevel == level
    {
      minLevel := level;
    }

    function GetMinLogLevel(): LogLevel
      reads this
    {
      minLevel
    }

    /**
     * The logging macros pass on a message only when its level is at least the
     * minimum: errors and messages at the minimum level always, trace messages
     * only when the minimum is trace.
     */
    function IsLogged(level: LogLevel): (b: bool)
      reads this
      ensures level == Error || level == minLevel ==> b
      ensures level == Trace ==> (b <==> minLevel == Trace)
    {
      LevelValue(level) >= LevelValue(minLevel)
    }
  }

  function Pow1000(n: nat): nat
  {
    if n == 0 then 1 else 1000 * Pow1000(n - 1)
  }

  /** The number of characters of an integer written in decimal, sign included. */
  function DecimalLength(n: int): (len: nat)
    ensures len >= 1
    decreases if n < 0 then -n + 1 else n
  {
    if n < 0 then 1 + DecimalLength(-n)
    else if n < 10 then 1
    else 1 + DecimalLength(n / 10)
  }

  /** The widths the writer lays one line out with. */
  datatype Layout = Layout(timestampDigits: nat, sourcePadding: nat, locationPadding: nat)

  /**
   * The writer's static counters: the largest timestamp the seconds column
   * has room for and its width, and for the source and location columns the
   * current width and the number of lines before a narrower width is allowed.
   */
  class StderrColumns {
    var maxTimestamp: nat
    var timestampDigits: nat
    ghost var growths: nat
    var maxSourceLength: nat
    var sourceDecay: int
    var maxLocationLength: nat
    var locationDecay: int

    /** The seconds column is 6 digits wide, plus 3 for each growth; both decay counters are in [0, 99]. */
    ghost predicate Valid()
      reads this
    {
      maxTimestamp == 1000000 * Pow1000(growths) &&
      timestampDigits == 6 + 3 * growths &&
      0 <= sourceDecay <= 99 && 0 <= locationDecay <= 99
    }

    constructor()
      ensures Valid() && growths == 0
      ensures maxTimestamp == 1000000 && timestampDigits == 6
      ensures maxSourceLength == 0 && sourceDecay == 0
      ensures maxLocationLength == 0 && locationDecay == 0
    {
      maxTimestamp := 1000000;
      timestampDigits := 6;
      growths := 0;
      maxSourceLength := 0;
      sourceDecay := 0;
      maxLocationLength := 0;
      locationDecay := 0;
    }

    /**
     * The bookkeeping of one log line at `milliseconds` since the logger
     * started, from source file `sourceFile`, line `line`, function `functionName`.
     * When the seconds reach the current maximum, the maximum grows by a factor
     * of 1000 and the width by 3, once per line. A column is widened to fit a
     * longer entry, or reset to the current entry when its decay counter has run
     * out; the padding is what is left of the column after the entry.
     */
    method LayoutLine(milliseconds: nat, sourceFile: string, line: int, functionName: string) returns (layout: Layout)
      requires Valid()
      modifies this
      ensures Valid()
      ensures var seconds := milliseconds / 1000;
              growths == old(growths) + (if seconds >= old(maxTimestamp) then 1 else 0)
      ensures layout.timestampDigits == timestampDigits
      ensures var sourceLength := |sourceFile| + 1 + DecimalLength(line);
              maxSourceLength == (if old(maxSourceLength) < sourceLength || old(sourceDecay) == 0
                                  then sourceLength else old(maxSourceLength)) &&
              sourceDecay == (if old(maxSourceLength) < sourceLength || old(sourceDecay) == 0
                              then 99 else old(sourceDecay) - 1) &&
              sourceLength + layout.sourcePadding == maxSourceLength
      ensures var locationLength := maxSourceLength + |functionName|;
              maxLocationLength == (if old(maxLocationLength) < locationLength || old(locationDecay) == 0
                                    then locationLength else old(maxLocationLength)) &&
              locationDecay == (if old(maxLocationLength) < locationLength || old(locationDecay) == 0
                                then 99 else old(locationDecay) - 1) &&
              locationLength + layout.locationPadding == maxLocationLength
    {
      var seconds := milliseconds / 1000;
      if seconds >= maxTimestamp {
        maxTimestamp := maxTimestamp * 1000;
        timestampDigits := timestampDigits + 3;
        growths := growths + 1;
      }

      var sourceLength := |sourceFile| + 1 + DecimalLength(line);
      if maxSourceLength < sourceLength || sourceDecay == 0 {
        maxSourceLength := sourceLength;
        sourceDecay := 100;
      }
      sourceDecay := sourceDecay - 1;
      var sourcePadding := maxSourceLength - sourceLength;

      var locationLength := sourceLength + sourcePadding + |functionName|;
      if maxLocationLength < locationLength || locationDecay == 0 {
        maxLocationLength := locationLength;
        locationDecay := 100;
      }
      locationDecay := locationDecay - 1;
      var locationPadding := maxLocationLength - locationLength;

      layout := Layout(timestampDigits, sourcePadding, locationPadding);
    }
  }

  /**
   * The seconds column is always wide enough for a maximum of that many
   * digits: the maximum is 10 to the power of the width.
   */
  lemma {:induction false} MaxTimestampHasWidthDigits(growths: nat)
    ensures 1000000 * Pow1000(growths) == Pow10(6 + 3 * growths)
  {
    if growths == 0 {
      Pow10Add3(0);
      Pow10Add3(3);
    } else {
      var k := 6 + 3 * (growths - 1);
      MaxTimestampHasWidthDigits(growths - 1);
      assert 6 + 3 * growths == k + 3;
      Pow10Add3(k);
      assert Pow1000(growths) == 1000 * Pow1000(growths - 1);
      calc {
        1000000 * Pow1000(growths);
        1000 * (1000000 * Pow1000(growths - 1));
        1000 * Pow10(k);
        Pow10(k + 3);
      }
    }
  }

  function Pow10(n: nat): nat
  {
    if n == 0 then 1 else 10 * Pow10(n - 1)
  }

  lemma Pow10Add3(n: nat)
    ensures Pow10(n + 3) == 1000 * Pow10(n)
  {
    assert Pow10(n + 3) == 10 * Pow10(n + 2);
    assert Pow10(n + 2) == 10 * Pow10(n + 1);
  }

  /** Writing a number below Pow10(k) in decimal takes at most k characters. */
  lemma {:induction false} DecimalLengthBelow(n: nat, k: nat)
    requires n < Pow10(k)
    ensures DecimalLength(n) <= if k == 0 then 1 else k
  {
    assert Pow10(0) == 1 && Pow10(1) == 10;
    if n >= 10 {
      assert k >= 2;
      DecimalLengthBelow(n / 10, k - 1);
    }
  }

  /**
   * Right after its column grows or has just been re-seeded, a timestamp
   * below the maximum fits the seconds column without widening it.
   */
  lemma SecondsFitColumn(seconds: nat, growths: nat)
    requires seconds < 1000000 * Pow1000(growths)
    ensures DecimalLength(seconds) <= 6 + 3 * growths
  {
    MaxTimestampHasWidthDigits(growths);
    DecimalLengthBelow(seconds, 6 + 3 * growths);
  }
}
