/**
 * Tag lists: the engine's tag list object, the wrapper that holds a pointer
 * to one, the lookups on it, and the difference between two tag lists.
 *
 * A tag list is a sequence of tags, each a name with its values in order.
 * Equality of TagValue stands in for the engine's value comparison.
 */
module TagLists {
  import opened Wrappers

  /** Stand-in for a tag value; two values compare equal exactly when they are equal. */
  datatype TagValue = TagValue(id: nat)

  datatype Tag = Tag(name: string, values: seq<TagValue>)

  /** The engine's merge modes for inserting tags into a list. */
  datatype MergeMode = ReplaceAll | Replace | Append | Prepend | Keep | KeepAll

  predicate UniqueNames(tags: seq<Tag>)
  {
    forall i, j :: 0 <= i < j < |tags| ==> tags[i].name != tags[j].name
  }

  /** What the engine guarantees of every tag list: unique non-empty names, each with a value. */
  predicate WellFormed(tags: seq<Tag>)
  {
    UniqueNames(tags) && forall i :: 0 <= i < |tags| ==> tags[i].name != [] && tags[i].values != []
  }

  /** The position of the first tag called `name`, or |tags| when there is none. */
  function IndexOf(tags: seq<Tag>, name: string): (i: nat)
    ensures i <= |tags|
    ensures i < |tags| ==> tags[i].name == name
    ensures forall j :: 0 <= j < i ==> tags[j].name != name
  {
    if tags == [] then 0
    else if tags[0].name == name then 0
    else 1 + IndexOf(tags[1..], name)
  }

  /** The values stored under `name`, if the list has such a tag. */
  function Lookup(tags: seq<Tag>, name: string): (r: Option<seq<TagValue>>)
    ensures r.None? <==> forall i :: 0 <= i < |tags| ==> tags[i].name != name
    ensures r.Some? ==> exists i :: 0 <= i < |tags| && tags[i].name == name && r.value == tags[i].values &&
                                    forall j :: 0 <= j < i ==> tags[j].name != name
  {
    var i := IndexOf(tags, name);
    if i < |tags| then Some(tags[i].values) else None
  }

  /** The value at `index` under `name`, if there is one. */
  function ValueAt(tags: seq<Tag>, name: string, index: nat): Option<TagValue>
  {
    match Lookup(tags, name)
    case None => None
    case Some(vs) => if index < |vs| then Some(vs[index]) else None
  }

  /** The number of values under `name`; 0 when there is no such tag. */
  function TagSize(tags: seq<Tag>, name: string): nat
  {
    match Lookup(tags, name)
    case None => 0
    case Some(vs) => |vs|
  }

  lemma LookupIs(tags: seq<Tag>, name: string, i: nat)
    requires UniqueNames(tags) && i < |tags| && tags[i].name == name
    ensures Lookup(tags, name) == Some(tags[i].values)
  {
  }

  lemma IndexOfAppended(before: seq<Tag>, t: Tag)
    requires forall i :: 0 <= i < |before| ==> before[i].name != t.name
    ensures IndexOf(before + [t], t.name) == |before|
  {
    var s := before + [t];
    assert s[|before|].name == t.name;
    assert forall i :: 0 <= i < |before| ==> s[i] == before[i];
  }

  lemma LookupAbsent(tags: seq<Tag>, name: string)
    requires forall i :: 0 <= i < |tags| ==> tags[i].name != name
    ensures Lookup(tags, name) == None
  {
  }

  /** The engine's tag list object; several wrappers may point at the same one. */
  class GstTagList {
    var tags: seq<Tag>

    constructor Empty()
      ensures tags == []
    {
      tags := [];
    }

    constructor Copy(source: GstTagList)
      ensures tags == source.tags
    {
      tags := source.tags;
    }
  }

  /** The wrapper: a possibly null pointer to an engine tag list. */
  class TagList {
    var list: GstTagList?

    ghost predicate Valid()
      reads this, list
    {
      list != null ==> WellFormed(list.tags)
    }

    /** The tags the wrapper refers to; a null pointer refers to none. */
    function Contents(): seq<Tag>
      reads this, list
    {
      if list == null then [] else list.tags
    }

    /** The default constructor leaves the pointer null. */
    constructor Null()
      ensures list == null
    {
      list := null;
    }

    /** Adopts the given pointer without copying it. */
    constructor Adopt(p: GstTagList?)
      ensures list == p
    {
      list := p;
    }

    /** A null source gives a null list; otherwise the tags are copied into a new engine list. */
    constructor CopyOf(source: TagList)
      ensures source.list == null ==> list == null
      ensures source.list != null ==> fresh(list) && list.tags == source.list.tags
    {
      if source.list != null {
        list := new GstTagList.Copy(source.list);
      } else {
        list := null;
      }
    }

    /** Move construction takes over the source's pointer and leaves the source null. */
    constructor Moved(source: TagList)
      modifies source
      ensures list == old(source.list) && source.list == null
    {
      list := source.list;
      source.list := null;
    }

    /** Copy assignment: this ends up with a copy of the source's tags, or null. */
    method CopyAssign(source: TagList)
      modifies this
      ensures old(source.list) == null ==> list == null
      ensures old(source.list) != null ==> fresh(list) && list.tags == old(source.list.tags)
    {
      if source.list != null {
        list := new GstTagList.Copy(source.list);
      } else {
        list := null;
      }
    }

    /**
     * Move assignment takes over the source's pointer and leaves the source
     * null. Moving a list into itself therefore leaves it null.
     */
    method MoveAssign(source: TagList)
      modifies this, source
      ensures source.list == null
      ensures source != this ==> list == old(source.list)
    {
      list := source.list;
      source.list := null;
    }

    /** A list is empty when its pointer is null or it holds no tag. */
    function IsEmpty(): (r: bool)
      reads this, list
      ensures list == null ==> r
    {
      list == null || list.tags == []
    }

    /**
     * Inserts the other list's tags into this one. Nothing happens when both
     * point at the same engine list, or when the other's pointer is null. A null
     * list is first replaced by a new empty one. The other list is left as it is.
     */
    method Insert(other: TagList, mode: MergeMode)
      requires Valid() && other.Valid()
      modifies this, list
      ensures Valid()
      ensures other.list == old(other.list) && other.Contents() == old(other.Contents())
      ensures old(other.list) == old(list) || old(other.list) == null ==>
                list == old(list) && Contents() == old(Contents())
      ensures old(other.list) != old(list) && old(other.list) != null ==>
                (old(list) == null ==> fresh(list)) &&
                (old(list) != null ==> list == old(list)) &&
                Contents() == MergeTags(old(Contents()), old(other.Contents()), mode)
    {
      if other.list == list {
        return;
      }
      if list == null {
        list := new GstTagList.Empty();
      }
      if other.list != null {
        MergePreservesWellFormed(list.tags, other.list.tags, mode);
        list.tags := MergeTags(list.tags, other.list.tags, mode);
      }
    }
  }

  /** A list is empty exactly when no name has values in it. */
  lemma EmptyMeansNoValues(t: TagList)
    ensures t.IsEmpty() <==> forall name :: Lookup(t.Contents(), name) == None
  {
    if !t.IsEmpty() {
      assert Lookup(t.Contents(), t.list.tags[0].name).Some?;
    }
  }

  /**
   * Equality of wrappers: the same pointer (null included) is equal, exactly
   * one null pointer is unequal, and otherwise the engine compares the contents
   * tag by tag, whatever their order.
   */
  function Equals(first: TagList, second: TagList): (r: bool)
    reads first, first.list, second, second.list
    ensures first.list == second.list ==> r
    ensures (first.list == null) != (second.list == null) ==> !r
  {
    if first.list == second.list then true
    else if first.list != null && second.list == null then false
    else if first.list == null && second.list != null then false
    else SameTags(first.list.tags, second.list.tags)
  }

  /** The engine's comparison: each tag of one list is stored with the same values in the other. */
  predicate SameTags(x: seq<Tag>, y: seq<Tag>)
  {
    (forall i :: 0 <= i < |x| ==> Lookup(y, x[i].name) == Some(x[i].values)) &&
    (forall j :: 0 <= j < |y| ==> Lookup(x, y[j].name) == Some(y[j].values))
  }

  lemma SameTagsIffSameLookups(x: seq<Tag>, y: seq<Tag>)
    requires UniqueNames(x) && UniqueNames(y)
    ensures SameTags(x, y) <==> forall name :: Lookup(x, name) == Lookup(y, name)
  {
    if SameTags(x, y) {
      forall name
        ensures Lookup(x, name) == Lookup(y, name)
      {
        var i, j := IndexOf(x, name), IndexOf(y, name);
        if i < |x| {
          assert Lookup(y, x[i].name) == Some(x[i].values);
        }
      }
    }
    if forall name :: Lookup(x, name) == Lookup(y, name) {
      forall i | 0 <= i < |x|
        ensures Lookup(y, x[i].name) == Some(x[i].values)
      {
        LookupIs(x, x[i].name, i);
      }
      forall j | 0 <= j < |y|
        ensures Lookup(x, y[j].name) == Some(y[j].values)
      {
        LookupIs(y, y[j].name, j);
      }
    }
  }

  /**
   * Two wrappers are equal exactly when both or neither are null and every
   * name has the same values in both. So a null list and a non-null empty list
   * are unequal, although both are empty.
   */
  lemma EqualsMeansSameLookups(first: TagList, second: TagList)
    requires first.Valid() && second.Valid()
    ensures Equals(first, second) <==>
              (first.list == null) == (second.list == null) &&
              forall name :: Lookup(first.Contents(), name) == Lookup(second.Contents(), name)
  {
    if first.list != null && second.list != null {
      assert first.Contents() == first.list.tags && second.Contents() == second.list.tags;
      SameTagsIffSameLookups(first.list.tags, second.list.tags);
    }
  }

  /** Equality of wrappers is symmetric. */
  lemma EqualsSymmetric(first: TagList, second: TagList)
    requires first.Valid() && second.Valid()
    ensures Equals(first, second) == Equals(second, first)
  {
    EqualsMeansSameLookups(first, second);
    EqualsMeansSameLookups(second, first);
  }

  /*
   * Lookups. They take the wrapper's contents: a null wrapper and an empty
   * list both count as empty, and the lookups treat them alike.
   */

  /** Whether `name` has a value: never for an empty list, else when its first value exists. */
  function HasValue(tags: seq<Tag>, name: string): (r: bool)
    requires name != []
    ensures r ==> exists i :: 0 <= i < |tags| && tags[i].name == name && tags[i].values != []
  {
    if tags == [] then false else ValueAt(tags, name, 0).Some?
  }

  /** The number of values stored under `name`; 0 for an empty list or a missing tag. */
  function NumValuesForTag(tags: seq<Tag>, name: string): (r: nat)
    requires name != []
    ensures r > 0 ==> exists i :: 0 <= i < |tags| && tags[i].name == name && |tags[i].values| == r
  {
    if tags == [] then 0 else TagSize(tags, name)
  }

  /** The value at `index` under `name`, if the list has that many values for it. */
  function RawValue(tags: seq<Tag>, name: string, index: nat): (r: Option<TagValue>)
    requires name != []
    ensures r.Some? ==> exists i :: 0 <= i < |tags| && tags[i].name == name &&
                                    index < |tags[i].values| && r.value == tags[i].values[index]
  {
    if tags == [] then None else ValueAt(tags, name, index)
  }

  /** In a well-formed list, a name has a value exactly when some tag carries it. */
  lemma HasValueIff(tags: seq<Tag>, name: string)
    requires name != [] && WellFormed(tags)
    ensures HasValue(tags, name) <==> exists i :: 0 <= i < |tags| && tags[i].name == name
  {
    if i :| 0 <= i < |tags| && tags[i].name == name {
      LookupIs(tags, name, i);
    }
  }

  /** The tag at `at` of a well-formed list has a value and reports its own number of values. */
  lemma ValuesOfTagAt(tags: seq<Tag>, at: nat)
    requires WellFormed(tags) && at < |tags|
    ensures tags[at].name != []
    ensures HasValue(tags, tags[at].name)
    ensures NumValuesForTag(tags, tags[at].name) == |tags[at].values|
  {
    LookupIs(tags, tags[at].name, at);
  }

  /** The tag at `at` reports its own value at each index, and none past its last value. */
  lemma RawValueOfTagAt(tags: seq<Tag>, at: nat, index: nat)
    requires WellFormed(tags) && at < |tags|
    ensures tags[at].name != []
    ensures RawValue(tags, tags[at].name, index) ==
              if index < |tags[at].values| then Some(tags[at].values[index]) else None
  {
    LookupIs(tags, tags[at].name, at);
  }

  /** A name that no tag carries has no value, count 0, and no value at any index. */
  lemma ValuesOfMissingTag(tags: seq<Tag>, name: string, index: nat)
    requires name != []
    requires forall i :: 0 <= i < |tags| ==> tags[i].name != name
    ensures !HasValue(tags, name) && NumValuesForTag(tags, name) == 0
    ensures RawValue(tags, name, index) == None
  {
    LookupAbsent(tags, name);
  }

  /** Adds one value under `name`, first replacing an empty list by a new one. */
  method AddRawValue(t: TagList, value: TagValue, name: string, mode: MergeMode)
    requires name != []
    modifies t, t.list
    ensures t.list != null
    ensures old(t.IsEmpty()) ==> fresh(t.list)
    ensures !old(t.IsEmpty()) ==> t.list == old(t.list)
    ensures t.Contents() == MergeOne(old(t.Contents()), Tag(name, [value]), mode)
  {
    if t.IsEmpty() {
      t.list := new GstTagList.Empty();
    }
    t.list.tags := MergeOne(t.list.tags, Tag(name, [value]), mode);
  }

  /*
   * Merging, as the engine does it: each incoming tag in turn is combined with
   * the tag of the same name, or added at the end when there is none.
   */

  function Combine(mode: MergeMode, existing: seq<TagValue>, incoming: seq<TagValue>): seq<TagValue>
  {
    match mode
    case ReplaceAll => incoming
    case Replace => incoming
    case Append => existing + incoming
    case Prepend => incoming + existing
    case Keep => existing
    case KeepAll => existing
  }

  function MergeOne(into: seq<Tag>, tag: Tag, mode: MergeMode): seq<Tag>
  {
    var i := IndexOf(into, tag.name);
    if i < |into| then into[i := Tag(tag.name, Combine(mode, into[i].values, tag.values))]
    else if mode == KeepAll then into
    else into + [tag]
  }

  function MergeEach(into: seq<Tag>, from: seq<Tag>, mode: MergeMode): seq<Tag>
    decreases |from|
  {
    if from == [] then into else MergeEach(MergeOne(into, from[0], mode), from[1..], mode)
  }

  /** Inserting `from` into `into`; ReplaceAll first removes every tag of `into`. */
  function MergeTags(into: seq<Tag>, from: seq<Tag>, mode: MergeMode): seq<Tag>
  {
    MergeEach(if mode == ReplaceAll then [] else into, from, mode)
  }

  lemma MergeOneWellFormed(into: seq<Tag>, tag: Tag, mode: MergeMode)
    requires WellFormed(into) && tag.name != [] && tag.values != []
    ensures WellFormed(MergeOne(into, tag, mode))
  {
  }

  lemma {:induction false} MergeEachWellFormed(into: seq<Tag>, from: seq<Tag>, mode: MergeMode)
    requires WellFormed(into) && WellFormed(from)
    ensures WellFormed(MergeEach(into, from, mode))
    decreases |from|
  {
    if from != [] {
      MergeOneWellFormed(into, from[0], mode);
      MergeEachWellFormed(MergeOne(into, from[0], mode), from[1..], mode);
    }
  }

  /** Merging two well-formed lists gives a well-formed list, whatever the mode. */
  lemma MergePreservesWellFormed(into: seq<Tag>, from: seq<Tag>, mode: MergeMode)
    requires WellFormed(into) && WellFormed(from)
    ensures WellFormed(MergeTags(into, from, mode))
  {
    MergeEachWellFormed(if mode == ReplaceAll then [] else into, from, mode);
  }

  /** No name of `x` is a name of `y`. */
  predicate NamesDisjoint(x: seq<Tag>, y: seq<Tag>)
  {
    forall i, j :: 0 <= i < |x| && 0 <= j < |y| ==> x[i].name != y[j].name
  }

  /** Merging a tag whose name is new, in any mode but KeepAll, appends it. */
  lemma MergeOneNewName(into: seq<Tag>, tag: Tag, mode: MergeMode)
    requires mode != KeepAll
    requires forall i :: 0 <= i < |into| ==> into[i].name != tag.name
    ensures MergeOne(into, tag, mode) == into + [tag]
  {
  }

  /** Moving the first tag of `from` over to `acc` keeps the names unique and disjoint. */
  lemma DisjointStep(acc: seq<Tag>, from: seq<Tag>)
    requires from != [] && UniqueNames(from) && NamesDisjoint(acc, from)
    ensures forall i :: 0 <= i < |acc| ==> acc[i].name != from[0].name
    ensures UniqueNames(from[1..]) && NamesDisjoint(acc + [from[0]], from[1..])
  {
    var next, rest := acc + [from[0]], from[1..];
    forall i, j | 0 <= i < |next| && 0 <= j < |rest| ensures next[i].name != rest[j].name {
      assert rest[j] == from[j + 1];
      if i < |acc| {
        assert next[i] == acc[i];
      } else {
        assert next[i] == from[0];
      }
    }
  }

  lemma {:induction false} MergeEachDisjoint(acc: seq<Tag>, from: seq<Tag>, mode: MergeMode)
    requires mode != KeepAll && UniqueNames(from) && NamesDisjoint(acc, from)
    ensures MergeEach(acc, from, mode) == acc + from
    decreases |from|
  {
    if from != [] {
      var next, rest := acc + [from[0]], from[1..];
      DisjointStep(acc, from);
      MergeOneNewName(acc, from[0], mode);
      MergeEachDisjoint(next, rest, mode);
      calc {
        MergeEach(acc, from, mode);
        MergeEach(next, rest, mode);
        next + rest;
        { assert next + rest == acc + from; }
        acc + from;
      }
    }
  }

  /**
   * Inserting into a null (hence new empty) list copies the other list, in
   * every mode except KeepAll, which adds nothing.
   */
  lemma InsertIntoEmptyCopies(from: seq<Tag>, mode: MergeMode)
    requires UniqueNames(from)
    ensures mode != KeepAll ==> MergeTags([], from, mode) == from
  {
    if mode != KeepAll {
      MergeEachDisjoint([], from, mode);
    }
  }

  /** After merging one tag with Replace, its name has exactly its values; other names are untouched. */
  lemma LookupAfterReplaceOne(into: seq<Tag>, tag: Tag, name: string)
    requires UniqueNames(into)
    ensures UniqueNames(MergeOne(into, tag, Replace))
    ensures Lookup(MergeOne(into, tag, Replace), name) ==
              if tag.name == name then Some(tag.values) else Lookup(into, name)
  {
    var u := MergeOne(into, tag, Replace);
    var k := IndexOf(into, tag.name);
    assert |u| == |into| || u == into + [tag];
    assert forall j :: 0 <= j < |u| && j != k ==> u[j] == into[j];
    assert k < |u| && u[k] == tag;
    if tag.name == name {
      LookupIs(u, name, k);
    } else if i :| 0 <= i < |into| && into[i].name == name {
      LookupIs(into, name, i);
      LookupIs(u, name, i);
    } else {
      LookupAbsent(into, name);
      LookupAbsent(u, name);
    }
  }

  /** Merging with Replace: a name of `from` gets its values from `from`, any other name keeps its own. */
  lemma {:induction false} LookupAfterReplace(into: seq<Tag>, from: seq<Tag>, name: string)
    requires UniqueNames(into) && UniqueNames(from)
    ensures Lookup(MergeEach(into, from, Replace), name) ==
              if Lookup(from, name).Some? then Lookup(from, name) else Lookup(into, name)
    decreases |from|
  {
    if from != [] {
      var next := MergeOne(into, from[0], Replace);
      LookupAfterReplaceOne(into, from[0], name);
      LookupAfterReplace(next, from[1..], name);
      if from[0].name == name {
        LookupAbsent(from[1..], name);
      } else {
        assert Lookup(from, name) == Lookup(from[1..], name) by {
          var i := IndexOf(from[1..], name);
          assert IndexOf(from, name) == 1 + i;
        }
      }
    }
  }

  /*
   * The difference between two tag lists.
   */

  /**
   * The tags of `other`, in order, whose values differ from those the
   * reference stores under the same name (or that the reference lacks).
   */
  function NewTags(reference: seq<Tag>, other: seq<Tag>): seq<Tag>
  {
    if other == [] then []
    else
      var last := other[|other| - 1];
      NewTags(reference, other[..|other| - 1]) +
        (if Lookup(reference, last.name) == Some(last.values) then [] else [last])
  }

  /**
   * A tag is in the difference exactly when it is a tag of `other` that the
   * reference lacks or stores with other values.
   */
  lemma {:induction false} NewTagsMembers(reference: seq<Tag>, other: seq<Tag>, t: Tag)
    ensures t in NewTags(reference, other) <==> t in other && Lookup(reference, t.name) != Some(t.values)
  {
    if other != [] {
      var init := other[..|other| - 1];
      NewTagsMembers(reference, init, t);
      assert other == init + [other[|other| - 1]];
    }
  }

  /** The difference of well-formed lists is well formed: each of its names occurs once. */
  lemma {:induction false} NewTagsWellFormed(reference: seq<Tag>, other: seq<Tag>)
    requires WellFormed(other)
    ensures WellFormed(NewTags(reference, other))
  {
    if other != [] {
      var init, last := other[..|other| - 1], other[|other| - 1];
      WellFormedPrefix(other);
      NewTagsWellFormed(reference, init);
      var r := NewTags(reference, init);
      forall i | 0 <= i < |r|
        ensures r[i].name != last.name
      {
        NewTagsMembers(reference, init, r[i]);
        var k :| 0 <= k < |init| && init[k] == r[i];
        assert other[k] == r[i];
      }
      if Lookup(reference, last.name) != Some(last.values) {
        WellFormedAppend(r, last);
      }
    }
  }

  /** Dropping the last tag of a well-formed list leaves a well-formed list. */
  lemma WellFormedPrefix(tags: seq<Tag>)
    requires WellFormed(tags) && tags != []
    ensures WellFormed(tags[..|tags| - 1])
    ensures tags[|tags| - 1].name != [] && tags[|tags| - 1].values != []
  {
  }

  /** A tag with a new, non-empty name and a value keeps a list well formed. */
  lemma WellFormedAppend(tags: seq<Tag>, t: Tag)
    requires WellFormed(tags) && t.name != [] && t.values != []
    requires forall i :: 0 <= i < |tags| ==> tags[i].name != t.name
    ensures WellFormed(tags + [t])
  {
  }

  /**
   * Applying the difference to the reference with Replace reproduces every
   * tag of `other`: the result stores under each of its names exactly its values.
   */
  lemma ApplyingNewTagsReproducesOther(reference: seq<Tag>, other: seq<Tag>, t: Tag)
    requires WellFormed(reference) && WellFormed(other) && t in other
    ensures Lookup(MergeTags(reference, NewTags(reference, other), Replace), t.name) == Some(t.values)
  {
    var diff := NewTags(reference, other);
    NewTagsWellFormed(reference, other);
    LookupAfterReplace(reference, diff, t.name);
    NewTagsMembers(reference, other, t);
    var k :| 0 <= k < |other| && other[k] == t;
    if t in diff {
      var d :| 0 <= d < |diff| && diff[d] == t;
      LookupIs(diff, t.name, d);
    } else {
      forall d | 0 <= d < |diff|
        ensures diff[d].name != t.name
      {
        NewTagsMembers(reference, other, diff[d]);
        var m :| 0 <= m < |other| && other[m] == diff[d];
        assert m != k;
      }
      LookupAbsent(diff, t.name);
    }
  }

  lemma NewTagsStep(reference: seq<Tag>, tags: seq<Tag>, num: nat)
    requires num < |tags|
    ensures NewTags(reference, tags[..num + 1]) ==
              NewTags(reference, tags[..num]) +
                (if Lookup(reference, tags[num].name) == Some(tags[num].values) then [] else [tags[num]])
  {
    assert tags[..num + 1][..num] == tags[..num];
  }

  /** The difference computed over a prefix does not yet hold the name of the next tag. */
  lemma NewNameNotYetTaken(reference: seq<Tag>, tags: seq<Tag>, num: nat)
    requires UniqueNames(tags) && num < |tags|
    ensures forall i :: 0 <= i < |NewTags(reference, tags[..num])| ==>
              NewTags(reference, tags[..num])[i].name != tags[num].name
  {
    var r := NewTags(reference, tags[..num]);
    forall i | 0 <= i < |r|
      ensures r[i].name != tags[num].name
    {
      NewTagsMembers(reference, tags[..num], r[i]);
      var k :| 0 <= k < num && tags[k] == r[i];
    }
  }

  /** Whether the values of `name` agree index by index over the first `count` values of both lists. */
  method ValuesEqual(other: seq<Tag>, reference: seq<Tag>, name: string, count: nat) returns (equal: bool)
    requires name != []
    ensures equal <==> forall k :: 0 <= k < count ==> RawValue(other, name, k) == RawValue(reference, name, k)
  {
    equal := true;
    var index := 0;
    while index < count
      invariant index <= count
      invariant forall k :: 0 <= k < index ==> RawValue(other, name, k) == RawValue(reference, name, k)
    {
      if RawValue(other, name, index) != RawValue(reference, name, index) {
        equal := false;
        break;
      }
      index := index + 1;
    }
  }

  /**
   * Whether a tag of `other` needs no entry in the difference: the reference
   * has the tag, with as many values, all pairwise equal.
   */
  method TagUnchanged(reference: seq<Tag>, other: seq<Tag>, at: nat) returns (same: bool)
    requires WellFormed(reference) && WellFormed(other) && at < |other|
    ensures same <==> Lookup(reference, other[at].name) == Some(other[at].values)
  {
    var t := other[at];
    var name := t.name;
    ValuesOfTagAt(other, at);
    var numInOther := NumValuesForTag(other, name);
    same := false;
    HasValueIff(reference, name);
    if HasValue(reference, name) {
      var numInReference := NumValuesForTag(reference, name);
      var r :| 0 <= r < |reference| && reference[r].name == name;
      ValuesOfTagAt(reference, r);
      LookupIs(reference, name, r);
      var rvs := reference[r].values;
      if numInOther == numInReference {
        same := ValuesEqual(other, reference, name, numInOther);
        if same {
          forall k | 0 <= k < |rvs|
            ensures t.values[k] == rvs[k]
          {
            RawValueOfTagAt(other, at, k);
            RawValueOfTagAt(reference, r, k);
          }
          assert t.values == rvs;
        } else {
          var k :| 0 <= k < numInOther && RawValue(other, name, k) != RawValue(reference, name, k);
          RawValueOfTagAt(other, at, k);
          RawValueOfTagAt(reference, r, k);
        }
      }
    } else {
      LookupAbsent(reference, name);
    }
  }

  /** Appending the next value of a tag that is built up at the end of the list. */
  lemma AppendValueStep(before: seq<Tag>, name: string, values: seq<TagValue>, index: nat, prior: seq<Tag>)
    requires index < |values|
    requires forall i :: 0 <= i < |before| ==> before[i].name != name
    requires prior == before + (if index == 0 then [] else [Tag(name, values[..index])])
    ensures MergeOne(prior, Tag(name, [values[index]]), Append) == before + [Tag(name, values[..index + 1])]
  {
    if index == 0 {
      assert prior == before;
      assert IndexOf(prior, name) == |prior|;
      assert values[..1] == [values[0]];
    } else {
      IndexOfAppended(before, Tag(name, values[..index]));
      assert values[..index] + [values[index]] == values[..index + 1];
      assert prior[|before| := Tag(name, values[..index + 1])] == before + [Tag(name, values[..index + 1])];
    }
  }

  /** Adds each value of the tag at `at` in `other`, in order, to `result`, which lacks that name so far. */
  method AppendValues(result: TagList, other: seq<Tag>, at: nat, name: string, count: nat)
    requires WellFormed(other)
    requires at < |other| && name == other[at].name && count == |other[at].values|
    requires forall i :: 0 <= i < |result.Contents()| ==> result.Contents()[i].name != name
    modifies result, result.list
    ensures result.list != null && (result.list == old(result.list) || fresh(result.list))
    ensures result.Contents() == old(result.Contents()) + [other[at]]
  {
    ghost var before := result.Contents();
    ghost var values := other[at].values;
    var index := 0;
    while index < count
      invariant index <= count
      invariant result.list == null || result.list == old(result.list) || fresh(result.list)
      invariant index > 0 ==> result.list != null
      invariant result.Contents() == before + (if index == 0 then [] else [Tag(name, values[..index])])
    {
      var value := RawValue(other, name, index);
      RawValueOfTagAt(other, at, index);
      AppendValueStep(before, name, values, index, result.Contents());
      AddRawValue(result, value.value, name, Append);
      index := index + 1;
    }
    assert values[..count] == values;
  }

  /**
   * One round of the difference: the tag at `num` in `other` is added to
   * `result`, with all its values, unless the reference already has it unchanged.
   */
  method AddIfChanged(reference: seq<Tag>, other: seq<Tag>, result: TagList, num: nat)
    requires WellFormed(reference) && WellFormed(other) && num < |other|
    requires result.Contents() == NewTags(reference, other[..num])
    modifies result, result.list
    ensures result.list == old(result.list) || fresh(result.list)
    ensures result.Contents() == NewTags(reference, other[..num + 1])
  {
    var name := other[num].name;
    ValuesOfTagAt(other, num);
    var numInOther := NumValuesForTag(other, name);
    var same := TagUnchanged(reference, other, num);
    NewTagsStep(reference, other, num);
    if !same {
      NewNameNotYetTaken(reference, other, num);
      AppendValues(result, other, num, name, numInOther);
    }
  }

  /**
   * The difference of two tag lists: the tags of `other`, in order, that are
   * new or changed with respect to `reference`. An empty `other` gives a null list.
   * Neither input is changed; the lists are read through their contents.
   */
  method CalculateNewTags(reference: TagList, other: TagList) returns (result: TagList)
    requires reference.Valid() && other.Valid()
    ensures fresh(result) && (result.list == null || fresh(result.list))
    ensures other.IsEmpty() ==> result.list == null
    ensures result.Valid()
    ensures result.Contents() == NewTags(reference.Contents(), other.Contents())
  {
    result := new TagList.Null();
    if other.IsEmpty() {
      return;
    }
    var referenceTags, otherTags := reference.Contents(), other.Contents();
    var num := 0;
    while num < |otherTags|
      invariant num <= |otherTags|
      invariant fresh(result) && (result.list == null || fresh(result.list))
      invariant result.Contents() == NewTags(referenceTags, otherTags[..num])
    {
      AddIfChanged(referenceTags, otherTags, result, num);
      num := num + 1;
    }
    assert otherTags[..num] == otherTags;
    NewTagsWellFormed(referenceTags, otherTags);
  }
}
