/** The first pass both list commands make before shortening IDs (task.go and memory.go):
  * every full ID is filed under its first eight characters, in the order the IDs come. */
module ShortIds {
  /** Slicing `id[:8]` panics on shorter strings; a UUID's text is always 36 characters. */
  predicate LongEnough(ids: seq<string>) {
    forall id :: id in ids ==> |id| >= 8
  }

  /** The eight-character keys that occur. */
  function PrefixKeys(ids: seq<string>): set<string>
    requires LongEnough(ids)
  {
    set id | id in ids :: id[..8]
  }

  /** The IDs filed under `key`, in input order, repeats included. */
  function GroupOf(ids: seq<string>, key: string): (g: seq<string>)
    requires LongEnough(ids)
    ensures |g| <= |ids|
  {
    if ids == [] then []
    else
      var last := ids[|ids| - 1];
      assert forall id :: id in ids[..|ids| - 1] ==> id in ids;
      GroupOf(ids[..|ids| - 1], key) + (if last[..8] == key then [last] else [])
  }

  /** A group holds exactly the IDs with its key. */
  lemma {:induction false} GroupOfMembers(ids: seq<string>, key: string)
    requires LongEnough(ids)
    ensures forall id :: id in GroupOf(ids, key) <==> id in ids && id[..8] == key
    ensures GroupOf(ids, key) == [] <==> forall id :: id in ids ==> id[..8] != key
  {
    if ids != [] {
      var init := ids[..|ids| - 1];
      assert forall id :: id in init ==> id in ids;
      GroupOfMembers(init, key);
      assert forall id :: id in ids <==> id in init || id == ids[|ids| - 1];
    }
  }

  /** A group holds every listed ID with its key, each as often as it is listed. */
  lemma {:induction false} GroupOfCount(ids: seq<string>, id: string)
    requires LongEnough(ids) && |id| >= 8
    ensures multiset(GroupOf(ids, id[..8]))[id] == multiset(ids)[id]
  {
    if ids != [] {
      var init := ids[..|ids| - 1];
      assert ids == init + [ids[|ids| - 1]];
      assert forall x :: x in init ==> x in ids;
      GroupOfCount(init, id);
    }
  }

  /** A prefix one element longer. */
  lemma TakeOneMore(s: seq<string>, j: nat)
    requires j < |s|
    ensures s[..j + 1] == s[..j] + [s[j]]
    ensures forall x :: x in s[..j + 1] <==> x in s[..j] || x == s[j]
  {
  }

  /** A sequence of copies of one string that holds it once has length one. */
  lemma {:induction false} OnlyMember(g: seq<string>, id: string)
    requires id in g && forall x :: x in g ==> x == id
    requires multiset(g)[id] == 1
    ensures |g| == 1
  {
    var rest := g[1..];
    assert g == [g[0]] + rest && g[0] in g;
    assert multiset(g) == multiset{g[0]} + multiset(rest);
    assert id !in multiset(rest);
    assert forall x :: x in rest ==> x in g && x in multiset(rest);
    assert forall j :: 0 <= j < |rest| ==> rest[j] in rest;
  }

  /** Two different members make a group of at least two. */
  lemma TwoMembers(group: seq<string>, a: string, b: string)
    requires a in group && b in group && a != b
    ensures |group| >= 2
  {
    var i :| 0 <= i < |group| && group[i] == a;
    var j :| 0 <= j < |group| && group[j] == b;
    assert i != j;
  }

  /** Every key that occurs files at least one ID. */
  lemma GroupOfKeyNonEmpty(ids: seq<string>, key: string)
    requires LongEnough(ids) && key in PrefixKeys(ids)
    ensures |GroupOf(ids, key)| >= 1
  {
    GroupOfMembers(ids, key);
    var id :| id in ids && id[..8] == key;
    assert id in GroupOf(ids, key);
  }

  /** Filing one more ID extends its own group and no other. */
  lemma FileOneMore(ids: seq<string>, id: string)
    requires LongEnough(ids) && |id| >= 8
    ensures LongEnough(ids + [id])
    ensures PrefixKeys(ids + [id]) == PrefixKeys(ids) + {id[..8]}
    ensures forall key :: GroupOf(ids + [id], key) == GroupOf(ids, key) + (if id[..8] == key then [id] else [])
  {
    var s := ids + [id];
    assert s[..|s| - 1] == ids;
    assert forall x :: x in s <==> x in ids || x == id;
  }

  /** A key that does not occur files nothing. */
  lemma GroupOfAbsentKey(ids: seq<string>, key: string)
    requires LongEnough(ids) && key !in PrefixKeys(ids)
    ensures GroupOf(ids, key) == []
  {
    GroupOfMembers(ids, key);
    assert forall id :: id in ids ==> id[..8] in PrefixKeys(ids);
  }

  /** `groups` files the IDs of `seen` under their keys. */
  predicate Filed(groups: map<string, seq<string>>, seen: seq<string>) {
    && LongEnough(seen)
    && groups.Keys == PrefixKeys(seen)
    && forall key :: key in groups ==> groups[key] == GroupOf(seen, key)
  }

  /** The map after filing `id`: appended to its key's group, or in a new group. */
  function FileId(groups: map<string, seq<string>>, id: string): map<string, seq<string>>
    requires |id| >= 8
  {
    var key := id[..8];
    groups[key := (if key in groups then groups[key] else []) + [id]]
  }

  lemma FileStepKeys(groups: map<string, seq<string>>, seen: seq<string>, id: string)
    requires Filed(groups, seen) && |id| >= 8
    ensures LongEnough(seen + [id]) && FileId(groups, id).Keys == PrefixKeys(seen + [id])
  {
    FileOneMore(seen, id);
  }

  lemma FileStepGroups(groups: map<string, seq<string>>, seen: seq<string>, id: string)
    requires Filed(groups, seen) && |id| >= 8
    ensures LongEnough(seen + [id])
    ensures forall k :: k in FileId(groups, id) ==> FileId(groups, id)[k] == GroupOf(seen + [id], k)
  {
    var key := id[..8];
    if key !in groups {
      GroupOfAbsentKey(seen, key);
    }
    FileOneMore(seen, id);
    var grouped := FileId(groups, id);
    forall k | k in grouped
      ensures grouped[k] == GroupOf(seen + [id], k)
    {
      assert GroupOf(seen + [id], k) == GroupOf(seen, k) + (if key == k then [id] else []);
    }
  }

  /** Filing one more ID keeps the map filed. */
  lemma FileStep(groups: map<string, seq<string>>, seen: seq<string>, id: string)
    requires Filed(groups, seen) && |id| >= 8
    ensures Filed(FileId(groups, id), seen + [id])
  {
    FileStepKeys(groups, seen, id);
    FileStepGroups(groups, seen, id);
  }

  /** The map the first pass builds, filing the IDs one after another. */
  function GroupsOf(ids: seq<string>): map<string, seq<string>>
    requires LongEnough(ids)
  {
    if ids == [] then map[]
    else
      var init := ids[..|ids| - 1];
      assert forall id :: id in init ==> id in ids;
      FileId(GroupsOf(init), ids[|ids| - 1])
  }

  /** The map built files every ID under its key: its keys are the keys that occur, and each
    * key's group holds exactly the IDs with that key, in input order. */
  lemma {:induction false} GroupsOfFiled(ids: seq<string>)
    requires LongEnough(ids)
    ensures Filed(GroupsOf(ids), ids)
  {
    if ids == [] {
      assert PrefixKeys(ids) == {};
    } else {
      var init := ids[..|ids| - 1];
      assert forall id :: id in init ==> id in ids;
      GroupsOfFiled(init);
      FileStep(GroupsOf(init), init, ids[|ids| - 1]);
      assert init + [ids[|ids| - 1]] == ids;
    }
  }

  /** The first pass: the map from each key that occurs to the IDs filed under it. */
  method GroupByPrefix(ids: seq<string>) returns (groups: map<string, seq<string>>)
    requires LongEnough(ids)
    ensures groups == GroupsOf(ids)
    ensures groups.Keys == PrefixKeys(ids)
    ensures forall key :: key in groups ==> groups[key] == GroupOf(ids, key)
  {
    groups := map[];
    var i := 0;
    while i < |ids|
      invariant 0 <= i <= |ids|
      invariant LongEnough(ids[..i])
      invariant groups == GroupsOf(ids[..i])
    {
      assert ids[..i + 1][..i] == ids[..i];
      groups := FileId(groups, ids[i]);
      i := i + 1;
    }
    assert ids[..i] == ids;
    GroupsOfFiled(ids);
  }
}
