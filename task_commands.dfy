/** The task commands of the command-line client (internal/cli/commands/task.go): the short
  * IDs the list shows, the icons and the progress bar, the parsing of a progress percentage,
  * and how start, done, progress and modify change a task. */
module TaskCommands {
  import opened Wrappers
  import opened GoText
  import opened ShortIds
  import Tui

  // ----- short IDs -----

  /** `other` is a different, longer ID that agrees with `id` on its first n characters. */
  predicate Clashes(id: string, other: string, n: nat)
    requires n <= |id|
  {
    other != id && |other| > n && other[..n] == id[..n]
  }

  /** No ID of the group clashes with `id` at length n. */
  predicate UniqueAt(id: string, group: seq<string>, n: nat)
    requires n <= |id|
  {
    forall j :: 0 <= j < |group| ==> !Clashes(id, group[j], n)
  }

  /** The length the search for a unique prefix settles on when it starts at n: the first
    * length from n on at which no ID of the group clashes, or the whole ID. */
  function UniqueLenFrom(id: string, group: seq<string>, n: nat): (r: nat)
    requires n <= |id|
    ensures n <= r <= |id|
    ensures r == |id| || UniqueAt(id, group, r)
    ensures forall k :: n <= k < r ==> !UniqueAt(id, group, k)
    decreases |id| - n
  {
    if n == |id| || UniqueAt(id, group, n) then n else UniqueLenFrom(id, group, n + 1)
  }

  /** The short ID the task list shows for `id`: its first eight characters when no other
    * listed ID starts with them, else the shortest longer prefix no other ID of the group
    * shares. */
  function TaskShortId(ids: seq<string>, id: string): (short: string)
    requires LongEnough(ids) && id in ids
    ensures 8 <= |short| <= |id| && short == id[..|short|]
  {
    var group := GroupOf(ids, id[..8]);
    if |group| == 1 then id[..8] else id[..UniqueLenFrom(id, group, 8)]
  }

  /** The inner loop: does no other ID of the group share the candidate prefix? */
  method IsUniqueAt(id: string, group: seq<string>, n: nat) returns (unique: bool)
    requires n <= |id|
    ensures unique == UniqueAt(id, group, n)
  {
    unique := true;
    var j := 0;
    while j < |group|
      invariant 0 <= j <= |group|
      invariant forall k :: 0 <= k < j ==> !Clashes(id, group[k], n)
    {
      var other := group[j];
      if other != id && |other| > n && other[..n] == id[..n] {
        unique := false;
        break;
      }
      j := j + 1;
    }
  }

  /** The loop growing `uniqueLen` from eight. */
  method UniqueLength(id: string, group: seq<string>) returns (n: nat)
    requires |id| >= 8
    ensures n == UniqueLenFrom(id, group, 8)
  {
    n := 8;
    while n < |id|
      invariant 8 <= n <= |id|
      invariant UniqueLenFrom(id, group, n) == UniqueLenFrom(id, group, 8)
    {
      var unique := IsUniqueAt(id, group, n);
      if unique {
        break;
      }
      n := n + 1;
    }
  }

  /** A member of a group of two or more is shown with the prefix the search settles on. */
  lemma ShortIdInCollision(ids: seq<string>, key: string, id: string)
    requires LongEnough(ids) && id in GroupOf(ids, key) && |GroupOf(ids, key)| != 1
    ensures id in ids && |id| >= 8
    ensures TaskShortId(ids, id) == id[..UniqueLenFrom(id, GroupOf(ids, key), 8)]
  {
    GroupOfMembers(ids, key);
  }

  /** The only member of a group of one is shown with the group's key. */
  lemma ShortIdAlone(ids: seq<string>, key: string)
    requires LongEnough(ids) && |GroupOf(ids, key)| == 1
    ensures GroupOf(ids, key)[0] in ids
    ensures forall id :: id in ids && id[..8] == key ==> id == GroupOf(ids, key)[0]
    ensures TaskShortId(ids, GroupOf(ids, key)[0]) == key
  {
    GroupOfMembers(ids, key);
    assert GroupOf(ids, key)[0] in GroupOf(ids, key);
  }

  /** Every entry of `short` is the short ID of a listed ID. */
  predicate Correct(ids: seq<string>, short: map<string, string>)
    requires LongEnough(ids)
  {
    forall id :: id in short ==> id in ids && short[id] == TaskShortId(ids, id)
  }

  /** The keys of `result` are those of `short` and the IDs of `part`. */
  ghost predicate Covers(result: map<string, string>, short: map<string, string>, part: seq<string>) {
    forall id :: id in result <==> id in short || id in part
  }

  /** Recording the settled prefix of a collision-group member keeps the map correct. */
  lemma AddShortId(ids: seq<string>, key: string, short: map<string, string>, id: string, n: nat)
    requires LongEnough(ids) && id in GroupOf(ids, key) && |GroupOf(ids, key)| != 1
    requires |id| >= 8 && n == UniqueLenFrom(id, GroupOf(ids, key), 8)
    requires Correct(ids, short)
    ensures Correct(ids, short[id := id[..n]])
  {
    ShortIdInCollision(ids, key, id);
  }

  /** One step of the collision branch: recording the next member keeps both invariants. */
  lemma ShortenStep(ids: seq<string>, key: string, fullIds: seq<string>, short: map<string, string>,
                    result: map<string, string>, j: nat, n: nat)
    requires LongEnough(ids) && fullIds == GroupOf(ids, key) && |fullIds| != 1
    requires j < |fullIds| && |fullIds[j]| >= 8 && n == UniqueLenFrom(fullIds[j], fullIds, 8)
    requires Covers(result, short, fullIds[..j]) && Correct(ids, result)
    ensures Covers(result[fullIds[j] := fullIds[j][..n]], short, fullIds[..j + 1])
    ensures Correct(ids, result[fullIds[j] := fullIds[j][..n]])
  {
    assert fullIds[j] in fullIds;
    AddShortId(ids, key, result, fullIds[j], n);
    TakeOneMore(fullIds, j);
  }

  /** The collision branch of the second pass: every ID of a group of two or more gets the
    * prefix the search settles on. */
  method ShortenGroup(ids: seq<string>, key: string, fullIds: seq<string>, short: map<string, string>)
    returns (result: map<string, string>)
    requires LongEnough(ids) && fullIds == GroupOf(ids, key) && |fullIds| != 1
    requires Correct(ids, short)
    ensures Covers(result, short, fullIds)
    ensures Correct(ids, result)
  {
    result := short;
    var j := 0;
    while j < |fullIds|
      invariant 0 <= j <= |fullIds|
      invariant Covers(result, short, fullIds[..j])
      invariant Correct(ids, result)
    {
      var fullId := fullIds[j];
      assert fullId in fullIds;
      ShortIdInCollision(ids, key, fullId);
      var n := UniqueLength(fullId, fullIds);
      ShortenStep(ids, key, fullIds, short, result, j, n);
      result := result[fullId := fullId[..n]];
      j := j + 1;
    }
    assert fullIds[..j] == fullIds;
  }

  /** generateUniqueShortIDsForTasks: a short ID for every listed ID. The groups are visited
    * in whatever order the map gives them; the result does not depend on it. */
  method GenerateTaskShortIds(ids: seq<string>) returns (short: map<string, string>)
    requires LongEnough(ids)
    ensures forall id :: id in short <==> id in ids
    ensures forall id :: id in short ==> short[id] == TaskShortId(ids, id)
  {
    var groups := GroupByPrefix(ids);
    short := map[];
    var pending := groups.Keys;
    while pending != {}
      invariant pending <= groups.Keys
      invariant forall id :: id in short <==> id in ids && id[..8] !in pending
      invariant Correct(ids, short)
      decreases |pending|
    {
      var key :| key in pending;
      var fullIds := groups[key];
      GroupOfMembers(ids, key);
      if |fullIds| == 1 {
        ShortIdAlone(ids, key);
        short := short[fullIds[0] := key];
      } else {
        short := ShortenGroup(ids, key, fullIds, short);
      }
      pending := pending - {key};
    }
  }

  /** An ID whose first eight characters no other listed ID starts with keeps exactly those;
    * a second copy of the same ID is no rival. */
  lemma UniqueKeyKeepsEight(ids: seq<string>, id: string)
    requires LongEnough(ids) && id in ids
    requires forall other :: other in ids && other[..8] == id[..8] ==> other == id
    ensures TaskShortId(ids, id) == id[..8]
  {
    var group := GroupOf(ids, id[..8]);
    GroupOfMembers(ids, id[..8]);
    forall j | 0 <= j < |group|
      ensures !Clashes(id, group[j], 8)
    {
      assert group[j] in group;
    }
    assert UniqueAt(id, group, 8);
    assert UniqueLenFrom(id, group, 8) == 8;
  }

  /** Distinct IDs of the same length are shown with distinct short IDs. */
  lemma DistinctTaskShortIds(ids: seq<string>, a: string, b: string)
    requires LongEnough(ids) && a in ids && b in ids
    requires a != b && |a| == |b|
    ensures TaskShortId(ids, a) != TaskShortId(ids, b)
  {
    var sa, sb := TaskShortId(ids, a), TaskShortId(ids, b);
    if a[..8] != b[..8] {
      assert sa[..8] == a[..8] && sb[..8] == b[..8];
    } else {
      var group := GroupOf(ids, a[..8]);
      GroupOfMembers(ids, a[..8]);
      TwoMembers(group, a, b);
      var la, lb := UniqueLenFrom(a, group, 8), UniqueLenFrom(b, group, 8);
      assert sa == a[..la] && sb == b[..lb];
      if la == lb && la < |a| {
        var j :| 0 <= j < |group| && group[j] == b;
        assert !Clashes(a, group[j], la);
        assert b[..la] != a[..la];
      } else if la == lb {
        assert a[..la] == a && b[..lb] == b;
      }
    }
  }

  /** The two IDs of the example below form one group, in listed order. */
  lemma CrossLengthGroup()
    ensures GroupOf(["abcdefghX", "abcdefghXY"], "abcdefgh") == ["abcdefghX", "abcdefghXY"]
  {
    var a, b := "abcdefghX", "abcdefghXY";
    var ids := [a, b];
    assert a[..8] == b[..8] == "abcdefgh";
    assert ids[..1] == [a] && ids[..1][..0] == [];
    assert GroupOf(ids[..1], "abcdefgh") == GroupOf(ids[..1][..0], "abcdefgh") + [a];
    assert GroupOf(ids, "abcdefgh") == GroupOf(ids[..1], "abcdefgh") + [b];
  }

  /** In that group both searches settle on nine characters. */
  lemma CrossLengthSearch()
    ensures UniqueLenFrom("abcdefghX", ["abcdefghX", "abcdefghXY"], 8) == 9
    ensures UniqueLenFrom("abcdefghXY", ["abcdefghX", "abcdefghXY"], 8) == 9
  {
    var a, b := "abcdefghX", "abcdefghXY";
    var group := [a, b];
    assert !UniqueAt(a, group, 8) by {
      assert Clashes(a, group[1], 8);
    }
    assert !UniqueAt(b, group, 8) by {
      assert Clashes(b, group[0], 8);
    }
    assert UniqueAt(b, group, 9) by {
      assert b[..9] == a;
    }
  }

  /** With IDs of different lengths the rule can give two IDs the same short ID: the shorter
    * ID runs out of characters, and the longer one stops as soon as no longer ID clashes. */
  lemma CrossLengthCollision()
    ensures TaskShortId(["abcdefghX", "abcdefghXY"], "abcdefghX") == "abcdefghX"
    ensures TaskShortId(["abcdefghX", "abcdefghXY"], "abcdefghXY") == "abcdefghX"
  {
    CrossLengthGroup();
    CrossLengthSearch();
    assert "abcdefghX"[..8] == "abcdefghXY"[..8] == "abcdefgh";
  }

  // ----- icons, as the file spells them -----

  // task.go holds its emoji as the UTF-8 bytes of each emoji read back as Mac Roman text and
  // saved again, so the command prints the characters below rather than the emoji.

  const UnknownTaskPriorityIcon := "\U{201A}\U{00F6}\U{2122}"
  const UnknownTaskStatusIcon := "\U{201A}\U{00F9}\U{00EC}"

  /** getPriorityIconForTask */
  function TaskPriorityIcon(priority: string): (icon: string)
    ensures |icon| >= 3
  {
    match priority
    case "H" => "\U{F8FF}\U{00FC}\U{00EE}\U{00A5}"
    case "M" => "\U{F8FF}\U{00FC}\U{00FC}\U{00B0}"
    case "L" => "\U{F8FF}\U{00FC}\U{00FC}\U{00A2}"
    case _ => UnknownTaskPriorityIcon
  }

  /** getStatusIconForTask */
  function TaskStatusIcon(status: string): (icon: string)
    ensures |icon| >= 3
  {
    match status
    case "TODO" => "\U{F8FF}\U{00FC}\U{00EC}\U{00E3}"
    case "IN_PROGRESS" => "\U{F8FF}\U{00FC}\U{00F6}\U{00C4}"
    case "IN_REVIEW" => "\U{F8FF}\U{00FC}\U{00EB}\U{00C4}"
    case "COMPLETED" => "\U{201A}\U{00FA}\U{00D6}"
    case _ => UnknownTaskStatusIcon
  }

  /** The fallback priority icon shows exactly for priorities other than H, M and L, and
    * those three have icons of their own. */
  lemma TaskPriorityIconDistinguishes(a: string, b: string)
    ensures TaskPriorityIcon(a) == UnknownTaskPriorityIcon <==> !Tui.IsKnownPriority(a)
    ensures Tui.IsKnownPriority(a) && TaskPriorityIcon(a) == TaskPriorityIcon(b) ==> a == b
  {
  }

  /** The fallback status icon shows exactly for statuses other than the four known ones,
    * and each known status has an icon of its own. */
  lemma TaskStatusIconDistinguishes(a: string, b: string)
    ensures TaskStatusIcon(a) == UnknownTaskStatusIcon <==> !Tui.IsKnownStatus(a)
    ensures Tui.IsKnownStatus(a) && TaskStatusIcon(a) == TaskStatusIcon(b) ==> a == b
  {
  }

  /** For every priority and status the list shows a different icon than the terminal
    * interface, which spells the same lookups with the emoji themselves. */
  lemma TaskIconsMisencoded(priority: string, status: string)
    ensures TaskPriorityIcon(priority) != Tui.PriorityIcon(priority)
    ensures TaskStatusIcon(status) != Tui.StatusIcon(status)
  {
  }

  // ----- the progress bar -----

  const LightCell := "\U{201A}\U{00F1}\U{00EB}"
  const DarkCell := "\U{201A}\U{00F1}\U{00EC}"
  const DoneBar := "\U{201A}\U{00FA}\U{00D6} 100%"

  /** strings.Repeat */
  function RepeatString(s: string, n: nat): (r: string)
    ensures |r| == |s| * n
  {
    if n == 0 then [] else s + RepeatString(s, n - 1)
  }

  /** The number of dark cells: `progress * width / 100` with Go's integer division, which
    * truncates toward zero, so a negative progress gives a count at or below zero. */
  function FilledCells(progress: int, width: int): (f: int)
    requires width >= 0
    ensures progress * width >= 0 ==> f * 100 <= progress * width < (f + 1) * 100
    ensures progress * width < 0 ==> (f - 1) * 100 < progress * width <= f * 100
    ensures 0 <= progress <= 100 ==> 0 <= f <= width
  {
    var scaled := progress * width;
    if scaled >= 0 then scaled / 100 else -((-scaled) / 100)
  }

  /** The cells of the bar, one per unit of width: dark up to the filled share, then light. */
  function Cells(progress: int, width: int): (cells: seq<string>)
    requires width >= 0
    ensures |cells| == width
  {
    seq(width, i requires 0 <= i < width => if i < FilledCells(progress, width) then DarkCell else LightCell)
  }

  /** getProgressBar, None where it panics: strings.Repeat panics on a negative count, which
    * a filled share below zero or above the width asks for. The progress is the stored one,
    * unchecked; the width is 8 or 10. */
  function ProgressBar(progress: int, width: int): (bar: Option<string>)
    requires width >= 0
    ensures bar.None? <==> progress != 0 && progress != 100 && !(0 <= FilledCells(progress, width) <= width)
  {
    if progress == 0 then Some(RepeatString(LightCell, width))
    else if progress == 100 then Some(DoneBar)
    else
      var filled := FilledCells(progress, width);
      if filled < 0 || width - filled < 0 then None
      else
        Some(RepeatString(DarkCell, filled) + RepeatString(LightCell, width - filled)
          + " " + IntToString(progress) + "%")
  }

  lemma {:induction false} ConcatAppend(a: seq<string>, b: seq<string>)
    ensures Concat(a + b) == Concat(a) + Concat(b)
  {
    if a == [] {
      assert a + b == b;
    } else {
      assert (a + b)[1..] == a[1..] + b;
      ConcatAppend(a[1..], b);
    }
  }

  lemma {:induction false} RepeatIsConcat(s: string, n: nat)
    ensures RepeatString(s, n) == Concat(seq(n, _ => s))
  {
    if n > 0 {
      assert seq(n, _ => s)[1..] == seq(n - 1, _ => s);
      RepeatIsConcat(s, n - 1);
    }
  }

  /** `f` dark cells then light ones up to `width`, written out by strings.Repeat. */
  lemma RepeatedCells(f: nat, width: nat)
    requires f <= width
    ensures RepeatString(DarkCell, f) + RepeatString(LightCell, width - f)
      == Concat(seq(width, i requires 0 <= i < width => if i < f then DarkCell else LightCell))
  {
    assert seq(width, i requires 0 <= i < width => if i < f then DarkCell else LightCell)
      == seq(f, _ => DarkCell) + seq(width - f, _ => LightCell);
    ConcatAppend(seq(f, _ => DarkCell), seq(width - f, _ => LightCell));
    RepeatIsConcat(DarkCell, f);
    RepeatIsConcat(LightCell, width - f);
  }

  /** At 100 percent the bar is the done mark alone; otherwise, when it is drawn, it is its
    * `width` cells laid end to end, followed by the percentage unless that is zero. */
  lemma ProgressBarIsCells(progress: int, width: int)
    requires width >= 0
    ensures progress == 100 ==> ProgressBar(progress, width) == Some(DoneBar)
    ensures progress != 100 && ProgressBar(progress, width).Some? ==>
      ProgressBar(progress, width).value
        == Concat(Cells(progress, width)) + (if progress == 0 then "" else " " + IntToString(progress) + "%")
  {
    if progress != 100 && ProgressBar(progress, width).Some? {
      var f := FilledCells(progress, width);
      assert 0 <= f <= width;
      var bar := RepeatString(DarkCell, f) + RepeatString(LightCell, width - f);
      RepeatedCells(f, width);
      assert Cells(progress, width) == seq(width, i requires 0 <= i < width => if i < f then DarkCell else LightCell);
      if progress == 0 {
        assert f == 0 && bar == RepeatString(LightCell, width);
      } else {
        var suffix := " " + IntToString(progress) + "%";
        assert ProgressBar(progress, width).value == bar + " " + IntToString(progress) + "%" == bar + suffix;
      }
    }
  }

  /** The bar panics exactly when `progress * width` reaches -100 (a negative filled count)
    * or 100 times one more than the width (a negative light count); every percentage from
    * 0 to 100 is drawn. */
  lemma ProgressBarPanics(progress: int, width: int)
    requires width >= 0
    ensures ProgressBar(progress, width).None? <==>
      progress * width <= -100 || progress * width >= 100 * (width + 1)
    ensures 0 <= progress <= 100 ==> ProgressBar(progress, width).Some?
  {
    var f := FilledCells(progress, width);
    if progress == 0 || progress == 100 {
      assert 0 <= progress * width <= 100 * width;
    }
  }

  /** The list draws its bars 8 cells wide and the detail view 10: the first is drawn for a
    * stored progress from -12 to 112, the second from -9 to 109. */
  lemma ListedBarRange(progress: int)
    ensures ProgressBar(progress, 8).Some? <==> -12 <= progress <= 112
    ensures ProgressBar(progress, 10).Some? <==> -9 <= progress <= 109
  {
    ProgressBarPanics(progress, 8);
    ProgressBarPanics(progress, 10);
  }

  lemma ScaleMonotone(p: int, q: int, width: int)
    requires p <= q && width >= 0
    ensures p * width <= q * width
  {
    assert q * width == p * width + (q - p) * width;
  }

  /** More progress never shows fewer dark cells, negative progress included. */
  lemma FilledCellsMonotone(p: int, q: int, width: int)
    requires p <= q && width >= 0
    ensures FilledCells(p, width) <= FilledCells(q, width)
  {
    var fp, fq := FilledCells(p, width), FilledCells(q, width);
    ScaleMonotone(p, q, width);
    assert fp * 100 < (fq + 1) * 100;
  }

  // ----- reading a percentage -----

  /** strconv.Atoi: an optional sign and at least one decimal digit, making up the whole
    * string, whose value fits in 64 bits. */
  function Atoi(s: string): (r: Option<int>)
    ensures r.Some? ==> MinInt64 <= r.value <= MaxInt64
    ensures r.Some? ==> s != [] && (var digits := if s[0] == '+' || s[0] == '-' then s[1..] else s;
      digits != [] && AllDigits(digits)
      && r.value == (if s[0] == '-' then -(DigitsValue(digits) as int) else DigitsValue(digits)))
  {
    if s == [] then None
    else
      var negative := s[0] == '-';
      var digits := if s[0] == '+' || s[0] == '-' then s[1..] else s;
      if digits == [] || !AllDigits(digits) then None
      else
        var v := if negative then -(DigitsValue(digits) as int) else DigitsValue(digits);
        if MinInt64 <= v <= MaxInt64 then Some(v) else None
  }

  /** Atoi reads back what strconv.Itoa prints. */
  lemma AtoiOfIntToString(n: int)
    requires MinInt64 <= n <= MaxInt64
    ensures Atoi(IntToString(n)) == Some(n)
  {
    var s := IntToString(n);
    if n < 0 {
      var digits := NatToString(-n);
      NatToStringValue(-n);
      assert s[0] == '-' && s[1..] == digits;
      assert -(DigitsValue(digits) as int) == n;
    } else {
      var digits := NatToString(n);
      NatToStringValue(n);
      assert s == digits && IsDigit(s[0]);
      assert DigitsValue(digits) == n;
    }
  }

  /** The percentage the progress command accepts: a number from 0 to 100. */
  function ParseProgress(input: string): (r: Option<int>)
    ensures r.Some? <==> Atoi(input).Some? && 0 <= Atoi(input).value <= 100
    ensures r.Some? ==> r.value == Atoi(input).value
  {
    match Atoi(input)
    case Some(p) => if 0 <= p <= 100 then Some(p) else None
    case None => None
  }

  // ----- status rules -----

  /** The status after the progress is set: 100 completes the task, and any progress
    * starts a task still to do; otherwise the status stays. */
  function StatusAfterProgress(status: string, progress: int): string {
    if progress == 100 then "COMPLETED"
    else if progress > 0 && status == "TODO" then "IN_PROGRESS"
    else status
  }

  /** The rules as consequences: full progress means completed; a task is still to do
    * exactly when it was and no progress is recorded; applying them twice changes nothing;
    * and lowering the progress of a completed task leaves it completed. */
  lemma StatusAfterProgressRules(status: string, progress: int)
    requires 0 <= progress <= 100
    ensures progress == 100 ==> StatusAfterProgress(status, progress) == "COMPLETED"
    ensures StatusAfterProgress(status, progress) == "TODO" <==> status == "TODO" && progress == 0
    ensures StatusAfterProgress(StatusAfterProgress(status, progress), progress)
      == StatusAfterProgress(status, progress)
    ensures status == "COMPLETED" ==> StatusAfterProgress(status, progress) == "COMPLETED"
  {
  }

  /** A non-empty replacement that differs from the current value, or the current value. */
  function Replaced(current: string, proposed: string): (r: string)
    ensures r == current || r == proposed
    ensures r != current <==> proposed != "" && proposed != current
  {
    if proposed != "" && proposed != current then proposed else current
  }

  /** The task fields the commands change. */
  class TaskRecord {
    var description: string
    var priority: string
    var status: string
    var progress: int

    constructor (description: string, priority: string, status: string, progress: int)
      ensures this.description == description && this.priority == priority
      ensures this.status == status && this.progress == progress
    {
      this.description := description;
      this.priority := priority;
      this.status := status;
      this.progress := progress;
    }

    /** `task start`: in progress, whatever the progress. */
    method Start()
      modifies this
      ensures status == "IN_PROGRESS"
      ensures progress == old(progress) && description == old(description) && priority == old(priority)
    {
      status := "IN_PROGRESS";
    }

    /** `task done`: completed at 100 percent. */
    method Done()
      modifies this
      ensures status == "COMPLETED" && progress == 100
      ensures description == old(description) && priority == old(priority)
    {
      status := "COMPLETED";
      progress := 100;
    }

    /** `task progress`: an input that is not a percentage from 0 to 100 changes nothing;
      * otherwise the progress is set and the status follows the rules. */
    method UpdateProgress(input: string) returns (ok: bool)
      modifies this
      ensures ok <==> ParseProgress(input).Some?
      ensures ok ==> (progress == ParseProgress(input).value
        && status == StatusAfterProgress(old(status), progress))
      ensures !ok ==> progress == old(progress) && status == old(status)
      ensures description == old(description) && priority == old(priority)
    {
      var parsed := ParseProgress(input);
      if parsed.None? {
        return false;
      }
      var p := parsed.value;
      progress := p;
      if p == 100 {
        status := "COMPLETED";
      } else if p > 0 && status == "TODO" {
        status := "IN_PROGRESS";
      }
      return true;
    }

    /** `task modify`: each of the three fields takes its new value when that is non-empty
      * and different; `modified` reports whether anything changed, and so whether the task
      * is saved. */
    method Modify(newDescription: string, newPriority: string, newStatus: string) returns (modified: bool)
      modifies this
      ensures description == Replaced(old(description), newDescription)
      ensures priority == Replaced(old(priority), newPriority)
      ensures status == Replaced(old(status), newStatus)
      ensures progress == old(progress)
      ensures modified <==> description != old(description) || priority != old(priority) || status != old(status)
    {
      modified := false;
      if newDescription != "" && newDescription != description {
        description := newDescription;
        modified := true;
      }
      if newPriority != "" && newPriority != priority {
        priority := newPriority;
        modified := true;
      }
      if newStatus != "" && newStatus != status {
        status := newStatus;
        modified := true;
      }
    }
  }
}
