/** The memory commands of the command-line client (internal/cli/commands/memory.go): the
  * short IDs the list shows, the word wrapping of long content, and `memory modify`. */
module MemoryCommands {
  import opened Wrappers
  import opened GoText
  import opened ShortIds
  import TaskCommands

  // ----- short IDs -----

  /** Memory IDs are UUIDs printed in the dashed form, 36 characters long. */
  predicate UuidLength(ids: seq<string>) {
    forall id :: id in ids ==> |id| == 36
  }

  /** `other` is a different ID that starts with the first n characters of `id`. */
  predicate Extends(id: string, other: string, n: nat)
    requires n <= |id|
  {
    other != id && HasPrefix(other, id[..n])
  }

  /** No ID of the group extends the candidate prefix of length n. */
  predicate FreeAt(id: string, group: seq<string>, n: nat)
    requires n <= |id|
  {
    forall j :: 0 <= j < |group| ==> !Extends(id, group[j], n)
  }

  /** The first length from n up to 35 whose prefix no other ID of the group extends,
    * or None when every one is extended. */
  function FirstFreeFrom(id: string, group: seq<string>, n: nat): (r: Option<nat>)
    requires 9 <= n <= 36 && |id| == 36
    ensures r.Some? ==> n <= r.value < 36 && FreeAt(id, group, r.value)
    ensures r.Some? ==> forall k :: n <= k < r.value ==> !FreeAt(id, group, k)
    ensures r.None? ==> forall k :: n <= k < 36 ==> !FreeAt(id, group, k)
    decreases 36 - n
  {
    if n == 36 then None
    else if FreeAt(id, group, n) then Some(n)
    else FirstFreeFrom(id, group, n + 1)
  }

  /** The short ID the memory list shows: the first eight characters when no other listed
    * ID starts with them; otherwise the shortest prefix of 9 to 35 characters that no other
    * ID of the group starts with, and no entry at all when there is none. */
  function MemoryShortId(ids: seq<string>, id: string): (r: Option<string>)
    requires UuidLength(ids) && id in ids
    ensures r.Some? ==> 8 <= |r.value| < 36 && r.value == id[..|r.value|]
  {
    assert LongEnough(ids);
    var group := GroupOf(ids, id[..8]);
    if |group| == 1 then Some(id[..8])
    else
      match FirstFreeFrom(id, group, 9)
      case Some(n) => Some(id[..n])
      case None => None
  }

  /** The inner loop over the group. */
  method IsFreeAt(id: string, group: seq<string>, n: nat) returns (unique: bool)
    requires n <= |id|
    ensures unique == FreeAt(id, group, n)
  {
    unique := true;
    var j := 0;
    while j < |group|
      invariant 0 <= j <= |group|
      invariant forall k :: 0 <= k < j ==> !Extends(id, group[k], n)
    {
      var other := group[j];
      if other != id && HasPrefix(other, id[..n]) {
        unique := false;
        break;
      }
      j := j + 1;
    }
  }

  /** The loop over the lengths 9 to 35. */
  method FreeLength(id: string, group: seq<string>) returns (r: Option<nat>)
    requires |id| == 36
    ensures r == FirstFreeFrom(id, group, 9)
  {
    var length := 9;
    while length < 36
      invariant 9 <= length <= 36
      invariant FirstFreeFrom(id, group, length) == FirstFreeFrom(id, group, 9)
    {
      var unique := IsFreeAt(id, group, length);
      if unique {
        return Some(length);
      }
      length := length + 1;
    }
    return None;
  }

  /** A member of a group of two or more is shown with the first free prefix, if any. */
  lemma MemoryShortIdInCollision(ids: seq<string>, key: string, id: string)
    requires UuidLength(ids) && LongEnough(ids)
    requires id in GroupOf(ids, key) && |GroupOf(ids, key)| != 1
    ensures id in ids && |id| == 36
    ensures MemoryShortId(ids, id)
      == match FirstFreeFrom(id, GroupOf(ids, key), 9) case Some(n) => Some(id[..n]) case None => None
  {
    GroupOfMembers(ids, key);
  }

  /** The map holds the shown short IDs of listed IDs, and only those. */
  predicate Shown(ids: seq<string>, short: map<string, string>)
    requires UuidLength(ids)
  {
    forall x :: x in short ==> x in ids && MemoryShortId(ids, x) == Some(short[x])
  }

  /** The keys of `result` are those of `short` and the IDs of `part` that have a short ID. */
  ghost predicate CoversShown(ids: seq<string>, result: map<string, string>, short: map<string, string>, part: seq<string>)
    requires UuidLength(ids)
  {
    forall id :: id in result <==> id in short || (id in part && id in ids && MemoryShortId(ids, id).Some?)
  }

  /** Recording the search's outcome for one more ID (its prefix when one is free, nothing
    * otherwise) keeps the map correct and covering. */
  lemma RecordOutcome(ids: seq<string>, short: map<string, string>, result: map<string, string>,
                      part: seq<string>, id: string, r: Option<nat>)
    requires UuidLength(ids) && id in ids
    requires r.Some? ==> r.value <= |id| && MemoryShortId(ids, id) == Some(id[..r.value])
    requires r.None? ==> MemoryShortId(ids, id).None?
    requires Shown(ids, result) && CoversShown(ids, result, short, part)
    ensures var next := if r.Some? then result[id := id[..r.value]] else result;
      Shown(ids, next) && CoversShown(ids, next, short, part + [id])
  {
    assert forall x :: x in part + [id] <==> x in part || x == id;
  }

  /** The collision branch of the second pass. */
  method ShortenMemoryGroup(ids: seq<string>, key: string, fullIds: seq<string>, short: map<string, string>)
    returns (result: map<string, string>)
    requires UuidLength(ids) && LongEnough(ids)
    requires fullIds == GroupOf(ids, key) && |fullIds| != 1
    requires Shown(ids, short)
    ensures Shown(ids, result)
    ensures forall id :: id in result <==> id in short || (id in fullIds && id in ids && MemoryShortId(ids, id).Some?)
  {
    result := short;
    var j := 0;
    while j < |fullIds|
      invariant 0 <= j <= |fullIds|
      invariant Shown(ids, result)
      invariant CoversShown(ids, result, short, fullIds[..j])
    {
      var fullId := fullIds[j];
      assert fullId in fullIds;
      MemoryShortIdInCollision(ids, key, fullId);
      var r := FreeLength(fullId, fullIds);
      RecordOutcome(ids, short, result, fullIds[..j], fullId, r);
      TakeOneMore(fullIds, j);
      if r.Some? {
        result := result[fullId := fullId[..r.value]];
      }
      j := j + 1;
    }
    assert fullIds[..j] == fullIds;
  }

  /** The only member of a group of one is shown with the group's key. */
  lemma MemoryShortIdAlone(ids: seq<string>, key: string)
    requires UuidLength(ids) && LongEnough(ids) && |GroupOf(ids, key)| == 1
    ensures GroupOf(ids, key)[0] in ids
    ensures forall id :: id in ids && id[..8] == key ==> id == GroupOf(ids, key)[0]
    ensures MemoryShortId(ids, GroupOf(ids, key)[0]) == Some(key)
  {
    GroupOfMembers(ids, key);
    assert GroupOf(ids, key)[0] in GroupOf(ids, key);
  }

  /** generateUniqueShortIDsForMemories: the shown short ID of every listed ID that has one. */
  method GenerateMemoryShortIds(ids: seq<string>) returns (short: map<string, string>)
    requires UuidLength(ids)
    ensures forall id :: id in short <==> id in ids && MemoryShortId(ids, id).Some?
    ensures forall id :: id in short ==> MemoryShortId(ids, id) == Some(short[id])
  {
    assert LongEnough(ids);
    var groups := GroupByPrefix(ids);
    short := map[];
    var pending := groups.Keys;
    while pending != {}
      invariant pending <= groups.Keys
      invariant Shown(ids, short)
      invariant forall id :: id in short <==> id in ids && id[..8] !in pending && MemoryShortId(ids, id).Some?
      decreases |pending|
    {
      var key :| key in pending;
      var fullIds := groups[key];
      GroupOfMembers(ids, key);
      if |fullIds| == 1 {
        MemoryShortIdAlone(ids, key);
        short := short[fullIds[0] := key];
      } else {
        short := ShortenMemoryGroup(ids, key, fullIds, short);
      }
      pending := pending - {key};
    }
  }

  // ----- properties of the short IDs -----

  /** An ID whose first eight characters no other listed ID starts with keeps exactly those. */
  lemma MemoryUniqueKeyKeepsEight(ids: seq<string>, id: string)
    requires UuidLength(ids) && id in ids
    requires forall other :: other in ids && other[..8] == id[..8] ==> other == id
    requires multiset(ids)[id] == 1
    ensures MemoryShortId(ids, id) == Some(id[..8])
  {
    assert LongEnough(ids);
    GroupOfMembers(ids, id[..8]);
    GroupOfCount(ids, id);
    OnlyMember(GroupOf(ids, id[..8]), id);
  }

  /** A group member sharing the first 35 characters extends every candidate prefix. */
  lemma SharedBlocksAll(id: string, group: seq<string>, j: nat)
    requires |id| == 36 && j < |group| && group[j] != id && |group[j]| >= 35 && group[j][..35] == id[..35]
    ensures forall k :: 9 <= k < 36 ==> !FreeAt(id, group, k)
  {
    var other := group[j];
    forall k | 9 <= k < 36
      ensures !FreeAt(id, group, k)
    {
      assert other[..k] == other[..35][..k] == id[..35][..k] == id[..k];
      assert Extends(id, group[j], k);
    }
  }

  /** An ID sharing the first 35 characters is in the same group, which then has two members. */
  lemma SharedInGroup(ids: seq<string>, id: string, other: string)
    requires UuidLength(ids) && id in ids && other in ids && other != id && other[..35] == id[..35]
    ensures LongEnough(ids) && other in GroupOf(ids, id[..8]) && |GroupOf(ids, id[..8])| >= 2
  {
    assert LongEnough(ids);
    var group := GroupOf(ids, id[..8]);
    GroupOfMembers(ids, id[..8]);
    assert other[..8] == other[..35][..8] == id[..35][..8] == id[..8];
    assert other in group && id in group;
    TwoMembers(group, id, other);
  }

  /** Another listed ID with the same first 35 characters extends every candidate prefix. */
  lemma MissingWhenShared(ids: seq<string>, id: string, other: string)
    requires UuidLength(ids) && id in ids && other in ids && other != id && other[..35] == id[..35]
    ensures MemoryShortId(ids, id).None?
  {
    assert LongEnough(ids);
    SharedInGroup(ids, id, other);
    var group := GroupOf(ids, id[..8]);
    var j :| 0 <= j < |group| && group[j] == other;
    SharedBlocksAll(id, group, j);
    NoneWhenNeverFree(id, group, 9);
  }

  /** Without such an ID the 35-character prefix is free, so there is a short ID. */
  lemma PresentWhenUnshared(ids: seq<string>, id: string)
    requires UuidLength(ids) && id in ids
    requires forall other :: other in ids && other != id ==> other[..35] != id[..35]
    ensures MemoryShortId(ids, id).Some?
  {
    assert LongEnough(ids);
    var group := GroupOf(ids, id[..8]);
    GroupOfMembers(ids, id[..8]);
    if |group| != 1 {
      forall j | 0 <= j < |group|
        ensures !Extends(id, group[j], 35)
      {
        assert group[j] in group;
      }
      SomeWhenFree(id, group, 9, 35);
    }
  }

  /** A listed ID goes without a short ID exactly when another listed ID shares its first
    * 35 characters. */
  lemma MemoryShortIdMissingIff(ids: seq<string>, id: string)
    requires UuidLength(ids) && id in ids
    ensures MemoryShortId(ids, id).None? <==> exists other :: other in ids && other != id && other[..35] == id[..35]
  {
    if exists other :: other in ids && other != id && other[..35] == id[..35] {
      var other :| other in ids && other != id && other[..35] == id[..35];
      MissingWhenShared(ids, id, other);
    } else {
      PresentWhenUnshared(ids, id);
    }
  }

  lemma {:induction false} NoneWhenNeverFree(id: string, group: seq<string>, n: nat)
    requires 9 <= n <= 36 && |id| == 36
    requires forall k :: n <= k < 36 ==> !FreeAt(id, group, k)
    ensures FirstFreeFrom(id, group, n).None?
    decreases 36 - n
  {
    if n < 36 {
      NoneWhenNeverFree(id, group, n + 1);
    }
  }

  lemma {:induction false} SomeWhenFree(id: string, group: seq<string>, n: nat, k: nat)
    requires 9 <= n <= k < 36 && |id| == 36 && FreeAt(id, group, k)
    ensures FirstFreeFrom(id, group, n).Some?
    decreases 36 - n
  {
    if n < k && !FreeAt(id, group, n) {
      SomeWhenFree(id, group, n + 1, k);
    }
  }

  /** Two different listed IDs that are both shown are shown differently. */
  lemma DistinctMemoryShortIds(ids: seq<string>, a: string, b: string)
    requires UuidLength(ids) && a in ids && b in ids && a != b
    requires MemoryShortId(ids, a).Some? && MemoryShortId(ids, b).Some?
    ensures MemoryShortId(ids, a).value != MemoryShortId(ids, b).value
  {
    assert LongEnough(ids);
    var sa, sb := MemoryShortId(ids, a).value, MemoryShortId(ids, b).value;
    if a[..8] != b[..8] {
      assert sa[..8] == a[..8] && sb[..8] == b[..8];
    } else {
      var group := GroupOf(ids, a[..8]);
      GroupOfMembers(ids, a[..8]);
      TwoMembers(group, a, b);
      var la, lb := FirstFreeFrom(a, group, 9).value, FirstFreeFrom(b, group, 9).value;
      assert sa == a[..la] && sb == b[..lb];
      if la == lb {
        var j :| 0 <= j < |group| && group[j] == b;
        assert !Extends(a, group[j], la);
        assert b[..la] != a[..la];
      }
    }
  }

  // ----- word wrapping -----

  /** Words laid end to end with single spaces. */
  function JoinWords(ws: seq<string>): string {
    if ws == [] then "" else if |ws| == 1 then ws[0] else JoinWords(ws[..|ws| - 1]) + " " + ws[|ws| - 1]
  }

  /** Lines laid end to end with newlines. */
  function JoinLines(lines: seq<string>): string {
    if lines == [] then "" else if |lines| == 1 then lines[0] else lines[0] + "\n" + JoinLines(lines[1..])
  }

  /** The greedy layout: `line` holds the words of the line being filled; a word that would
    * push the line past `width` bytes starts the next line. */
  function Chunks(line: seq<string>, rest: seq<string>, width: int): (cs: seq<seq<string>>)
    requires line != []
    ensures cs != [] && cs[0] != []
    decreases |rest|
  {
    if rest == [] then [line]
    else if ByteLen(JoinWords(line)) + 1 + ByteLen(rest[0]) > width then [line] + Chunks([rest[0]], rest[1..], width)
    else Chunks(line + [rest[0]], rest[1..], width)
  }

  function Lines(cs: seq<seq<string>>): (lines: seq<string>)
    ensures |lines| == |cs|
  {
    seq(|cs|, k requires 0 <= k < |cs| => JoinWords(cs[k]))
  }

  /** The text of the greedy layout: its lines joined with newlines. */
  function Layout(line: seq<string>, rest: seq<string>, width: int): string
    requires line != []
  {
    JoinLines(Lines(Chunks(line, rest, width)))
  }

  /** wrapString: text of at most `lineWidth` bytes as it is; otherwise its words, filled
    * greedily into lines. */
  function Wrapped(text: string, lineWidth: int): (r: string)
    ensures ByteLen(text) <= lineWidth ==> r == text
    ensures ByteLen(text) > lineWidth && AllSpace(text) ==> r == ""
  {
    if ByteLen(text) <= lineWidth then text
    else
      var words := Fields(text);
      if words == [] then "" else Layout([words[0]], words[1..], lineWidth)
  }

  function Flatten(cs: seq<seq<string>>): seq<string> {
    if cs == [] then [] else cs[0] + Flatten(cs[1..])
  }

  /** The layout keeps the words, in order. */
  lemma {:induction false} ChunksKeepWords(line: seq<string>, rest: seq<string>, width: int)
    requires line != []
    ensures Flatten(Chunks(line, rest, width)) == line + rest
    decreases |rest|
  {
    if rest == [] {
      assert Flatten([line]) == line + Flatten([]);
    } else if ByteLen(JoinWords(line)) + 1 + ByteLen(rest[0]) > width {
      ChunksKeepWords([rest[0]], rest[1..], width);
      var cs := [line] + Chunks([rest[0]], rest[1..], width);
      assert cs[1..] == Chunks([rest[0]], rest[1..], width);
      assert [rest[0]] + rest[1..] == rest;
    } else {
      ChunksKeepWords(line + [rest[0]], rest[1..], width);
      assert line + [rest[0]] + rest[1..] == line + rest;
    }
  }

  lemma JoinWordsAppend(ws: seq<string>, w: string)
    requires ws != []
    ensures JoinWords(ws + [w]) == JoinWords(ws) + " " + w
  {
    assert (ws + [w])[..|ws|] == ws;
  }

  /** Every line of two or more words fits in `width` bytes. */
  predicate FullLinesFit(cs: seq<seq<string>>, width: int) {
    forall k :: 0 <= k < |cs| && |cs[k]| >= 2 ==> ByteLen(JoinWords(cs[k])) <= width
  }

  /** Each line ends only because its next word would not have fitted. */
  predicate BreaksNeeded(cs: seq<seq<string>>, width: int) {
    forall k :: 0 < k < |cs| ==> cs[k] != [] && ByteLen(JoinWords(cs[k - 1])) + 1 + ByteLen(cs[k][0]) > width
  }

  /** Every line of two or more words the greedy layout makes fits. */
  lemma {:induction false} ChunksFit(line: seq<string>, rest: seq<string>, width: int)
    requires line != [] && (|line| >= 2 ==> ByteLen(JoinWords(line)) <= width)
    ensures FullLinesFit(Chunks(line, rest, width), width)
    decreases |rest|
  {
    if rest != [] {
      if ByteLen(JoinWords(line)) + 1 + ByteLen(rest[0]) > width {
        ChunksFit([rest[0]], rest[1..], width);
        var tail := Chunks([rest[0]], rest[1..], width);
        assert forall k :: 1 <= k < |[line] + tail| ==> ([line] + tail)[k] == tail[k - 1];
      } else {
        JoinWordsAppend(line, rest[0]);
        ByteLenAppend(JoinWords(line) + " ", rest[0]);
        ByteLenAppend(JoinWords(line), " ");
        ChunksFit(line + [rest[0]], rest[1..], width);
      }
    }
  }

  /** The greedy layout ends a line only when the next word would not have fitted. */
  lemma {:induction false} ChunksBreakWhenNeeded(line: seq<string>, rest: seq<string>, width: int)
    requires line != []
    ensures BreaksNeeded(Chunks(line, rest, width), width)
    decreases |rest|
  {
    if rest != [] {
      if ByteLen(JoinWords(line)) + 1 + ByteLen(rest[0]) > width {
        ChunksBreakWhenNeeded([rest[0]], rest[1..], width);
        var tail := Chunks([rest[0]], rest[1..], width);
        var cs := [line] + tail;
        ChunksStartWith([rest[0]], rest[1..], width);
        assert forall k :: 1 <= k < |cs| ==> cs[k] == tail[k - 1];
        assert cs[1][0] == rest[0];
      } else {
        ChunksBreakWhenNeeded(line + [rest[0]], rest[1..], width);
      }
    }
  }

  /** The greedy layout fills lines as far as they go and no further. */
  lemma ChunksFitGreedily(line: seq<string>, rest: seq<string>, width: int)
    requires line != [] && (|line| >= 2 ==> ByteLen(JoinWords(line)) <= width)
    ensures FullLinesFit(Chunks(line, rest, width), width)
    ensures BreaksNeeded(Chunks(line, rest, width), width)
  {
    ChunksFit(line, rest, width);
    ChunksBreakWhenNeeded(line, rest, width);
  }

  lemma LinesCons(line: seq<string>, cs: seq<seq<string>>)
    ensures Lines([line] + cs) == [JoinWords(line)] + Lines(cs)
  {
    var l, r := Lines([line] + cs), [JoinWords(line)] + Lines(cs);
    assert |l| == |r|;
    forall k | 0 <= k < |l|
      ensures l[k] == r[k]
    {
      if k > 0 {
        assert ([line] + cs)[k] == cs[k - 1];
      }
    }
  }

  lemma JoinLinesCons(x: string, tail: seq<string>)
    requires tail != []
    ensures JoinLines([x] + tail) == x + "\n" + JoinLines(tail)
  {
    assert ([x] + tail)[1..] == tail;
  }

  /** A word that does not fit ends the line being filled. */
  lemma BreakLine(line: seq<string>, word: string, more: seq<string>, width: int)
    requires line != [] && ByteLen(JoinWords(line)) + 1 + ByteLen(word) > width
    ensures Layout(line, [word] + more, width) == JoinWords(line) + "\n" + Layout([word], more, width)
  {
    var rest := [word] + more;
    assert rest[0] == word && rest[1..] == more;
    var tail := Chunks([word], more, width);
    assert Chunks(line, rest, width) == [line] + tail;
    LinesCons(line, tail);
    JoinLinesCons(JoinWords(line), Lines(tail));
  }

  /** A word that fits joins the line being filled. */
  lemma ExtendLine(line: seq<string>, word: string, more: seq<string>, width: int)
    requires line != [] && ByteLen(JoinWords(line)) + 1 + ByteLen(word) <= width
    ensures Chunks(line, [word] + more, width) == Chunks(line + [word], more, width)
    ensures JoinWords(line + [word]) == JoinWords(line) + " " + word
  {
    var rest := [word] + more;
    assert rest[0] == word && rest[1..] == more;
    JoinWordsAppend(line, word);
  }

  /** The first line starts with the first word. */
  lemma {:induction false} ChunksStartWith(line: seq<string>, rest: seq<string>, width: int)
    requires line != []
    ensures Chunks(line, rest, width)[0][0] == line[0]
    decreases |rest|
  {
    if rest != [] && ByteLen(JoinWords(line)) + 1 + ByteLen(rest[0]) <= width {
      ChunksStartWith(line + [rest[0]], rest[1..], width);
    }
  }

  /** wrapString, with its builder `result` and the line being filled. */
  method WrapString(text: string, lineWidth: int) returns (r: string)
    ensures r == Wrapped(text, lineWidth)
  {
    if ByteLen(text) <= lineWidth {
      return text;
    }
    var words := Fields(text);
    if |words| == 0 {
      return "";
    }
    var result := "";
    var currentLine := words[0];
    ghost var line := [words[0]];
    ghost var goal := Layout([words[0]], words[1..], lineWidth);
    var i := 1;
    while i < |words|
      invariant 1 <= i <= |words|
      invariant line != [] && currentLine == JoinWords(line)
      invariant result + Layout(line, words[i..], lineWidth) == goal
    {
      var word := words[i];
      assert words[i..] == [word] + words[i + 1..];
      if ByteLen(currentLine) + 1 + ByteLen(word) > lineWidth {
        BreakLine(line, word, words[i + 1..], lineWidth);
        result := result + (currentLine + "\n");
        currentLine := word;
        line := [word];
      } else {
        ExtendLine(line, word, words[i + 1..], lineWidth);
        currentLine := currentLine + " " + word;
        line := line + [word];
      }
      i := i + 1;
    }
    assert words[i..] == [];
    result := result + currentLine;
    return result;
  }

  // ----- memory modify -----

  class MemoryRecord {
    var content: string

    constructor (content: string)
      ensures this.content == content
    {
      this.content := content;
    }

    /** `memory modify`: new content replaces the old when it is non-empty and different;
      * `modified` reports whether it did, and so whether the memory is saved. */
    method Modify(newContent: string) returns (modified: bool)
      modifies this
      ensures content == TaskCommands.Replaced(old(content), newContent)
      ensures modified <==> content != old(content)
    {
      modified := false;
      if newContent != "" && newContent != content {
        content := newContent;
        modified := true;
      }
    }
  }
}
