/** The helpers of the MCP tool dispatcher (internal/mcp/tools.go): argument coercion, the
  * priority scale, the urgency order of get_next_tasks, the memory filters of list_memories and
  * recall, and the project and task identifier resolvers. The API client and the configuration
  * file are not part of this model: the client is a `Client` value answering each request, and
  * the configuration is the active project id it holds (None when it cannot be loaded). */
module McpTools {
  import opened Wrappers
  import opened GoText
  import opened GoJson
  import GoUuid

  // ----- the backend -----

  /** A task as the API client returns it; `createdAt` orders creation times. */
  datatype Task = Task(
    id: string, title: string, description: string, status: string, priority: string,
    projectId: string, createdAt: int, annotations: seq<string>)

  datatype Memory = Memory(id: string, content: string, createdAt: int)

  datatype Project = Project(id: string, name: string, description: string, isActive: bool)

  /** One request sent to the API client: the client method and its arguments. */
  datatype Call = Call(op: string, args: seq<Value>)

  /** The API client, as the answers it gives. Methods whose results the dispatcher inspects are
    * typed; every other method answers through `send` with the Go value it returns, and the
    * methods returning raw bytes through `fetch` with the document they hold (None when the
    * bytes are not JSON). How the client's records encode as JSON is also the client's. */
  datatype Client = Client(
    projects: Result<seq<Project>, string>,
    listTasks: (string, string) -> Result<seq<Task>, string>,
    queryTasks: (string, string, string, seq<string>) -> Result<seq<Task>, string>,
    memories: (string, string) -> Result<seq<Memory>, string>,
    getTask: string -> Result<Task, string>,
    createTask: (string, string, string, string) -> Result<Task, string>,
    send: Call -> Result<Value, string>,
    fetch: Call -> Result<Option<Json>, string>,
    taskJson: Task -> Json,
    memoryJson: Memory -> Json,
    projectJson: Project -> Json,
    timeJson: int -> Json)

  const ListProjectsCall: Call := Call("ListProjects", [])

  function GetTaskCall(id: string): Call {
    Call("GetTask", [Str(id)])
  }

  /** A []models.Task result. */
  function TasksValue(client: Client, ts: seq<Task>): Value {
    Record(Some(JArray(seq(|ts|, i requires 0 <= i < |ts| => client.taskJson(ts[i])))))
  }

  function TaskValue(client: Client, t: Task): Value {
    Record(Some(client.taskJson(t)))
  }

  /** A []models.Project result. */
  function ProjectsValue(client: Client, ps: seq<Project>): Value {
    Record(Some(JArray(seq(|ps|, i requires 0 <= i < |ps| => client.projectJson(ps[i])))))
  }

  /** A client answer carrying a task, passed on as the tool's result. */
  function TaskResult(client: Client, res: Result<Task, string>): Result<Value, string> {
    match res
    case Failure(e) => Failure(e)
    case Success(t) => Success(TaskValue(client, t))
  }

  /** A client answer that only reports success, replaced by a fixed acknowledgement. */
  function Acknowledged(res: Result<Value, string>, ack: Value): Result<Value, string> {
    match res
    case Failure(e) => Failure(e)
    case Success(_) => Success(ack)
  }

  /** Raw bytes from the client decoded into an `interface{}`; `invalid` reports bytes that are
    * not JSON. */
  function Decode(res: Result<Option<Json>, string>, invalid: string): Result<Value, string> {
    match res
    case Failure(e) => Failure(e)
    case Success(None) => Failure(invalid)
    case Success(Some(j)) => Success(Unmarshal(j))
  }

  /** A []models.Memory result. */
  function MemoriesValue(client: Client, ms: seq<Memory>): Value {
    Record(Some(JArray(seq(|ms|, i requires 0 <= i < |ms| => client.memoryJson(ms[i])))))
  }

  // ----- arguments -----

  /** `x, _ := args[key].(string)`: the string argument, or "" when missing or not a string. */
  function StringArg(args: map<string, Value>, key: string): string {
    if key in args && args[key].Str? then args[key].s else ""
  }

  function TrimmedArg(args: map<string, Value>, key: string): string {
    TrimSpace(StringArg(args, key))
  }

  function ArgOrNil(args: map<string, Value>, key: string): Value {
    if key in args then args[key] else Nil
  }

  /** A suffix of the tail is a suffix of the whole. */
  lemma SuffixOfTail(s: string, r: string)
    requires s != [] && |r| <= |s| - 1 && r == s[1..][|s| - 1 - |r|..]
    ensures r == s[|s| - |r|..]
  {
    assert s[1..][|s| - 1 - |r|..] == s[|s| - |r|..];
  }

  /** The white space fmt skips before a number: any space except a newline. */
  function SkipScanSpace(s: string): (r: string)
    ensures |r| <= |s| && r == s[|s| - |r|..]
    ensures r == [] || r[0] == '\n' || !IsSpace(r[0])
  {
    if s != [] && IsSpace(s[0]) && s[0] != '\n' then
      var r := SkipScanSpace(s[1..]);
      SuffixOfTail(s, r);
      r
    else s
  }

  /** Length of the run of ASCII digits at the front of `s`. */
  function DigitRun(s: string): (n: nat)
    ensures n <= |s| && AllDigits(s[..n])
    ensures n == |s| || !IsDigit(s[n])
  {
    if s == [] || !IsDigit(s[0]) then 0 else 1 + DigitRun(s[1..])
  }

  /** fmt.Sscanf(s, "%d", &x): spaces other than newlines are skipped, then an optional sign and
    * the longest run of decimal digits are read, and what follows is ignored. A newline before
    * the number, a missing digit, or a value outside int64 is an error. */
  function ScanInt(s: string): (r: Option<int>)
    ensures r.Some? ==> MinInt64 <= r.value <= MaxInt64
  {
    var t := SkipScanSpace(s);
    var sign := if t != [] && t[0] == '-' then -1 else 1;
    var u := if t != [] && (t[0] == '+' || t[0] == '-') then t[1..] else t;
    var n := DigitRun(u);
    if t == [] || t[0] == '\n' || n == 0 then None
    else
      var v := sign * DigitsValue(u[..n]);
      if MinInt64 <= v <= MaxInt64 then Some(v) else None
  }

  /** Go's int(x) for a float64 in range: truncation toward zero. */
  function TruncateReal(x: real): (i: int)
    ensures x >= 0.0 ==> i as real <= x < i as real + 1.0
    ensures x < 0.0 ==> i as real - 1.0 < x <= i as real
  {
    if x >= 0.0 then x.Floor else -((-x).Floor)
  }

  /** toInt: numbers convert (float64 truncated toward zero), strings are scanned as "%d" with 0
    * on failure, and anything else is 0. */
  function ToInt(v: Value): int {
    match v
    case Float(x) => TruncateReal(x)
    case Int(i) => i
    case Str(s) => (match ScanInt(s) case Some(n) => n case None => 0)
    case _ => 0
  }

  lemma {:induction false} DigitRunOfDigits(s: string)
    requires AllDigits(s)
    ensures DigitRun(s) == |s|
  {
    if s != [] {
      DigitRunOfDigits(s[1..]);
    }
  }

  /** `%d` reads a run of digits as its value. */
  lemma ScanUnsigned(digits: string)
    requires digits != [] && AllDigits(digits) && DigitsValue(digits) <= MaxInt64
    ensures ScanInt(digits) == Some(DigitsValue(digits) as int)
  {
    assert IsDigit(digits[0]) && !IsSpace(digits[0]);
    assert SkipScanSpace(digits) == digits;
    DigitRunOfDigits(digits);
    assert digits[..|digits|] == digits;
  }

  /** `%d` reads a minus sign and a run of digits as the negated value. */
  lemma ScanNegative(digits: string)
    requires digits != [] && AllDigits(digits) && MinInt64 <= -(DigitsValue(digits) as int)
    ensures ScanInt("-" + digits) == Some(-(DigitsValue(digits) as int))
  {
    var s := "-" + digits;
    assert s[0] == '-';
    assert SkipScanSpace(s) == s;
    assert s[1..] == digits;
    DigitRunOfDigits(digits);
    assert digits[..|digits|] == digits;
  }

  /** A number within int64 written in decimal reads back as itself. */
  lemma ToIntReadsDecimal(n: int)
    requires MinInt64 <= n <= MaxInt64
    ensures ToInt(Str(IntToString(n))) == n
  {
    var m: nat := if n < 0 then -n else n;
    NatToStringValue(m);
    if n < 0 {
      ScanNegative(NatToString(m));
    } else {
      ScanUnsigned(NatToString(m));
    }
  }

  /** A whole number sent as a JSON number converts to itself. */
  lemma ToIntOfWholeNumber(n: int)
    ensures ToInt(Float(n as real)) == n
  {
  }

  /** Without digits there is no number: toInt gives 0. */
  lemma ToIntWithoutDigits(s: string)
    requires forall i :: 0 <= i < |s| ==> !IsDigit(s[i])
    ensures ToInt(Str(s)) == 0
  {
    var t := SkipScanSpace(s);
    var u := if t != [] && (t[0] == '+' || t[0] == '-') then t[1..] else t;
    if u != [] {
      assert u[0] == s[|s| - |u|];
    }
  }

  // ----- priorities -----

  /** normalizePriority: the H, M or L a priority argument names; M when it names none. */
  function NormalizePriority(s: string): (p: string)
    ensures p == "H" || p == "M" || p == "L"
  {
    var t := TrimSpace(Upper(s));
    if t == "" then "M"
    else if t == "H" || t == "HIGH" then "H"
    else if t == "M" || t == "MEDIUM" then "M"
    else if t == "L" || t == "LOW" then "L"
    else "M"
  }

  /** priorityRank: 3 for high, 2 for medium, 1 for low, 0 for anything else. */
  function PriorityRank(p: string): (rank: int)
    ensures 0 <= rank <= 3
  {
    var t := Upper(TrimSpace(p));
    if t == "H" || t == "HIGH" then 3
    else if t == "M" || t == "MEDIUM" then 2
    else if t == "L" || t == "LOW" then 1
    else 0
  }

  lemma {:induction false} UpperPreservesSpace(s: string)
    ensures forall i :: 0 <= i < |s| ==> IsSpace(Upper(s)[i]) == IsSpace(s[i])
  {
  }

  lemma {:induction false} TrimLeftUpper(s: string)
    ensures TrimLeft(Upper(s)) == Upper(TrimLeft(s))
  {
    if s != [] {
      assert Upper(s)[1..] == Upper(s[1..]);
      TrimLeftUpper(s[1..]);
    }
  }

  lemma {:induction false} TrimRightUpper(s: string)
    ensures TrimRight(Upper(s)) == Upper(TrimRight(s))
  {
    if s != [] {
      assert Upper(s)[..|s| - 1] == Upper(s[..|s| - 1]);
      TrimRightUpper(s[..|s| - 1]);
    }
  }

  /** Trimming and upper-casing commute, so the two helpers read a priority the same way. */
  lemma TrimSpaceUpper(s: string)
    ensures TrimSpace(Upper(s)) == Upper(TrimSpace(s))
  {
    TrimLeftUpper(s);
    TrimRightUpper(TrimLeft(s));
  }

  /** A normalized priority keeps its rank, except that an unrecognised one becomes medium. */
  lemma RankOfNormalized(s: string)
    ensures PriorityRank(NormalizePriority(s)) == if PriorityRank(s) == 0 then 2 else PriorityRank(s)
  {
    TrimSpaceUpper(s);
    RankOfLetters();
  }

  /** The ranks of the three normalized priorities. */
  lemma RankOfLetters()
    ensures PriorityRank("H") == 3 && PriorityRank("M") == 2 && PriorityRank("L") == 1
  {
    assert TrimSpace("H") == "H" && Upper("H") == "H";
    assert TrimSpace("M") == "M" && Upper("M") == "M";
    assert TrimSpace("L") == "L" && Upper("L") == "L";
  }

  /** Normalizing twice changes nothing more. */
  lemma NormalizeIdempotent(s: string)
    ensures NormalizePriority(NormalizePriority(s)) == NormalizePriority(s)
  {
  }

  // ----- limits and ordering -----

  /** `if limit > 0 && limit < len(xs) { xs = xs[:limit] }` */
  function TruncateToLimit<T>(xs: seq<T>, limit: int): (r: seq<T>)
    ensures |r| == if 0 < limit < |xs| then limit else |xs|
    ensures r == xs[..|r|]
  {
    if limit > 0 && limit < |xs| then xs[..limit] else xs
  }

  /** The rank get_next_tasks orders by. */
  function Rank(t: Task): int {
    PriorityRank(t.priority)
  }

  /** The order of get_next_tasks under a ranking: higher rank first, then earlier creation.
    * The sorting machinery takes the ranking as a parameter; the tool uses `Rank`. */
  predicate MoreUrgentBy(rank: Task -> int, a: Task, b: Task) {
    rank(a) > rank(b) || (rank(a) == rank(b) && a.createdAt < b.createdAt)
  }

  predicate MoreUrgent(a: Task, b: Task) {
    MoreUrgentBy(Rank, a, b)
  }

  predicate ByUrgency(rank: Task -> int, ts: seq<Task>) {
    forall i, j :: 0 <= i < j < |ts| ==> !MoreUrgentBy(rank, ts[j], ts[i])
  }

  /** Inserting a task before the first task it is more urgent than. */
  function InsertByUrgency(rank: Task -> int, t: Task, ts: seq<Task>): (r: seq<Task>)
    requires ByUrgency(rank, ts)
    ensures ByUrgency(rank, r)
    ensures forall x :: x in r <==> x == t || x in ts
  {
    if ts == [] then [t]
    else if MoreUrgentBy(rank, t, ts[0]) then
      [t] + ts
    else
      var rest := InsertByUrgency(rank, t, ts[1..]);
      assert forall x :: x in rest ==> !MoreUrgentBy(rank, x, ts[0]) by {
        forall x | x in rest && x != t
          ensures !MoreUrgentBy(rank, x, ts[0])
        {
          var k :| 0 <= k < |ts[1..]| && ts[1..][k] == x;
          assert ts[k + 1] == x;
        }
      }
      var r := [ts[0]] + rest;
      assert forall j :: 0 < j < |r| ==> r[j] in rest;
      r
  }

  lemma {:induction false} InsertPermutes(rank: Task -> int, t: Task, ts: seq<Task>)
    requires ByUrgency(rank, ts)
    ensures multiset(InsertByUrgency(rank, t, ts)) == multiset(ts) + multiset{t}
  {
    if ts != [] && !MoreUrgentBy(rank, t, ts[0]) {
      InsertPermutes(rank, t, ts[1..]);
      assert ts == [ts[0]] + ts[1..];
    }
  }

  /** sort.Slice with the urgency comparator. sort.Slice is not stable and may order tasks of
    * equal urgency either way; this is one of the orders it may produce. */
  function SortByUrgency(rank: Task -> int, ts: seq<Task>): (r: seq<Task>)
    ensures ByUrgency(rank, r)
  {
    if ts == [] then []
    else InsertByUrgency(rank, ts[0], SortByUrgency(rank, ts[1..]))
  }

  /** Sorting only reorders. */
  lemma {:induction false} SortPermutes(rank: Task -> int, ts: seq<Task>)
    ensures multiset(SortByUrgency(rank, ts)) == multiset(ts)
  {
    if ts != [] {
      SortPermutes(rank, ts[1..]);
      InsertPermutes(rank, ts[0], SortByUrgency(rank, ts[1..]));
      assert ts == [ts[0]] + ts[1..];
    }
  }

  /** How many tasks get_next_tasks returns for a count argument: 5 when it is not positive. */
  function NextCount(count: int): nat {
    if count <= 0 then 5 else count
  }

  /** get_next_tasks after fetching: the most urgent tasks, as many as the count asks for. */
  function NextTasks(ts: seq<Task>, count: int): seq<Task> {
    var sorted := SortByUrgency(Rank, ts);
    if NextCount(count) < |sorted| then sorted[..NextCount(count)] else sorted
  }

  /** Taking a prefix of a sorted permutation leaves nothing behind that is more urgent than
    * something taken. */
  lemma PrefixIsMostUrgent(rank: Task -> int, ts: seq<Task>, sorted: seq<Task>, k: nat)
    requires ByUrgency(rank, sorted) && multiset(sorted) == multiset(ts) && k <= |sorted|
    ensures multiset(sorted[..k]) <= multiset(ts)
    ensures forall t, u :: t in multiset(ts) - multiset(sorted[..k]) && u in sorted[..k] ==> !MoreUrgentBy(rank, t, u)
  {
    var r := sorted[..k];
    assert sorted == r + sorted[k..];
    assert multiset(sorted) == multiset(r) + multiset(sorted[k..]);
    forall t, u | t in multiset(ts) - multiset(r) && u in r
      ensures !MoreUrgentBy(rank, t, u)
    {
      assert t in multiset(sorted[k..]);
      var j :| 0 <= j < |sorted[k..]| && sorted[k..][j] == t;
      var i :| 0 <= i < |r| && r[i] == u;
      assert sorted[i] == u && sorted[k + j] == t;
    }
  }

  /** The tasks returned are among those fetched, as many as asked for (or all), in urgency
    * order, and no task left out is more urgent than a task returned. */
  lemma NextTasksAreMostUrgent(ts: seq<Task>, count: int)
    ensures var r := NextTasks(ts, count);
      && |r| == (if NextCount(count) < |ts| then NextCount(count) else |ts|)
      && multiset(r) <= multiset(ts)
      && ByUrgency(Rank, r)
      && forall t, u :: t in multiset(ts) - multiset(r) && u in r ==> !MoreUrgent(t, u)
  {
    var sorted := SortByUrgency(Rank, ts);
    SortPermutes(Rank, ts);
    var k := if NextCount(count) < |sorted| then NextCount(count) else |sorted|;
    assert NextTasks(ts, count) == sorted[..k];
    assert |sorted| == |multiset(sorted)| == |ts|;
    PrefixIsMostUrgent(Rank, ts, sorted, k);
  }

  // ----- memories -----

  /** The filter of list_memories and recall: the content contains the term, ignoring case. */
  predicate Mentions(m: Memory, term: string) {
    Contains(Lower(m.content), Lower(term))
  }

  /** The memories that mention the term, in their original order. */
  function FilterByTerm(ms: seq<Memory>, term: string): (r: seq<Memory>)
    ensures |r| <= |ms|
    ensures forall i :: 0 <= i < |r| ==> Mentions(r[i], term)
  {
    if ms == [] then []
    else
      var last := ms[|ms| - 1];
      assert ms == ms[..|ms| - 1] + [last];
      FilterByTerm(ms[..|ms| - 1], term) + (if Mentions(last, term) then [last] else [])
  }

  lemma FilterStep(ms: seq<Memory>, i: nat, term: string)
    requires i < |ms|
    ensures FilterByTerm(ms[..i + 1], term) == FilterByTerm(ms[..i], term) + (if Mentions(ms[i], term) then [ms[i]] else [])
  {
    assert ms[..i + 1][..i] == ms[..i];
  }

  /** The filter keeps only memories it was given. */
  lemma {:induction false} FilterWithinInput(ms: seq<Memory>, term: string)
    ensures multiset(FilterByTerm(ms, term)) <= multiset(ms)
  {
    if ms != [] {
      FilterWithinInput(ms[..|ms| - 1], term);
      assert ms == ms[..|ms| - 1] + [ms[|ms| - 1]];
    }
  }

  /** Every memory that mentions the term is kept. */
  lemma {:induction false} FilterKeepsMentions(ms: seq<Memory>, term: string)
    ensures forall i :: 0 <= i < |ms| && Mentions(ms[i], term) ==> ms[i] in FilterByTerm(ms, term)
  {
    if ms != [] {
      FilterKeepsMentions(ms[..|ms| - 1], term);
      forall i | 0 <= i < |ms| - 1 && Mentions(ms[i], term)
        ensures ms[i] in FilterByTerm(ms, term)
      {
        assert ms[..|ms| - 1][i] == ms[i];
      }
    }
  }

  /** Filtering a concatenation filters the parts. */
  lemma {:induction false} FilterAppend(a: seq<Memory>, b: seq<Memory>, term: string)
    ensures FilterByTerm(a + b, term) == FilterByTerm(a, term) + FilterByTerm(b, term)
    decreases |b|
  {
    if b == [] {
      assert a + b == a;
    } else {
      assert (a + b)[..|a + b| - 1] == a + b[..|b| - 1];
      FilterAppend(a, b[..|b| - 1], term);
    }
  }

  /** Writing slot `n` of a sequence extends its first `n` elements by the new value and keeps
    * the slots behind it. */
  lemma WriteSlot(before: seq<Memory>, after: seq<Memory>, n: nat, m: Memory)
    requires n < |before| && after == before[n := m]
    ensures after[..n + 1] == before[..n] + [m]
    ensures forall k :: n < k < |after| ==> after[k] == before[k]
  {
  }

  /** The in-place filter of list_memories (`filtered := memories[:0]`): the kept memories are
    * moved to the front of the same backing array, in order; the slots behind them keep what
    * they held. */
  method FilterInPlace(a: array<Memory>, term: string) returns (n: nat)
    modifies a
    ensures n <= a.Length
    ensures a[..n] == FilterByTerm(old(a[..]), term)
    ensures a[n..] == old(a[n..])
  {
    ghost var original := a[..];
    n := 0;
    var i := 0;
    while i < a.Length
      invariant n <= i <= a.Length
      invariant a[..n] == FilterByTerm(original[..i], term)
      invariant forall k :: n <= k < a.Length ==> a[k] == original[k]
    {
      var m := a[i];
      FilterStep(original, i, term);
      if Mentions(m, term) {
        ghost var before := a[..];
        a[n] := m;
        WriteSlot(before, a[..], n, m);
        n := n + 1;
      }
      i := i + 1;
    }
    assert original[..a.Length] == original;
    assert a[n..] == original[n..];
  }

  /** The matches recall reports: the first matching memories, at most `limit` of them and at
    * least one when there is a match (the check follows the first append). */
  function RecallMatches(ms: seq<Memory>, term: string, limit: int): seq<Memory> {
    var all := FilterByTerm(ms, term);
    var cap := if limit < 1 then 1 else limit;
    all[..if cap < |all| then cap else |all|]
  }

  /** Recall reports only matches, in order, never more than the limit (one, for a limit below
    * one), and stops short of the limit only when there are no more matches. */
  lemma RecallMatchesBounded(ms: seq<Memory>, term: string, limit: int)
    ensures var found := RecallMatches(ms, term, limit);
      && |found| <= (if limit < 1 then 1 else limit)
      && found == FilterByTerm(ms, term)[..|found|]
      && (forall i :: 0 <= i < |found| ==> Mentions(found[i], term))
      && (|found| < (if limit < 1 then 1 else limit) ==> found == FilterByTerm(ms, term))
  {
  }

  /** Once the matches among the first entries reach the cap, they are the recall's matches. */
  lemma RecallStopsAt(ms: seq<Memory>, term: string, limit: int, i: nat)
    requires i < |ms| && |FilterByTerm(ms[..i + 1], term)| == (if limit < 1 then 1 else limit)
    ensures FilterByTerm(ms[..i + 1], term) == RecallMatches(ms, term, limit)
  {
    FilterAppend(ms[..i + 1], ms[i + 1..], term);
    assert ms[..i + 1] + ms[i + 1..] == ms;
  }

  /** The recall loop, which stops once `limit` matches have been found. */
  method CollectRecall(ms: seq<Memory>, term: string, limit: int) returns (found: seq<Memory>)
    ensures found == RecallMatches(ms, term, limit)
  {
    var cap := if limit < 1 then 1 else limit;
    found := [];
    var i := 0;
    while i < |ms|
      invariant 0 <= i <= |ms|
      invariant found == FilterByTerm(ms[..i], term)
      invariant |found| < cap
    {
      FilterStep(ms, i, term);
      if Mentions(ms[i], term) {
        found := found + [ms[i]];
        if |found| >= limit {
          RecallStopsAt(ms, term, limit, i);
          return;
        }
      }
      i := i + 1;
    }
    assert ms[..i] == ms;
  }

  /** One entry of the recall results. */
  function RecallEntry(client: Client, m: Memory): Value {
    Object(map["id" := Str(m.id), "content" := Str(m.content), "created_at" := Record(Some(client.timeJson(m.createdAt)))])
  }

  // ----- resolving identifiers -----

  /** The projects that a name or an id prefix designates. */
  predicate Designates(p: Project, identifier: string) {
    p.name == identifier || HasPrefix(p.id, identifier)
  }

  /** Index of the first project satisfying Designates, if any. */
  function FirstDesignated(ps: seq<Project>, identifier: string): (r: Option<nat>)
    ensures r.Some? ==> (r.value < |ps| && Designates(ps[r.value], identifier)
      && forall j :: 0 <= j < r.value ==> !Designates(ps[j], identifier))
    ensures r.None? ==> forall j :: 0 <= j < |ps| ==> !Designates(ps[j], identifier)
  {
    if ps == [] then None
    else if Designates(ps[0], identifier) then Some(0)
    else match FirstDesignated(ps[1..], identifier)
      case None => None
      case Some(k) => Some(k + 1)
  }

  /** Index of the first active project, if any. */
  function FirstActive(ps: seq<Project>): (r: Option<nat>)
    ensures r.Some? ==> r.value < |ps| && ps[r.value].isActive && forall j :: 0 <= j < r.value ==> !ps[j].isActive
    ensures r.None? ==> forall j :: 0 <= j < |ps| ==> !ps[j].isActive
  {
    if ps == [] then None
    else if ps[0].isActive then Some(0)
    else match FirstActive(ps[1..])
      case None => None
      case Some(k) => Some(k + 1)
  }

  /** Whether resolving the identifier consults the project list. */
  predicate ListsProjects(config: Option<string>, identifier: string) {
    var t := TrimSpace(identifier);
    if t == "" then !(config.Some? && config.value != "") else !GoUuid.IsUuid(t)
  }

  /** resolveProjectID: a blank identifier means the configured active project, else the first
    * active project; a UUID is taken as it is; anything else is the first project it names or
    * whose id it begins. */
  function ProjectIdFor(projects: Result<seq<Project>, string>, config: Option<string>, identifier: string): Result<string, string> {
    var t := TrimSpace(identifier);
    if t == "" then
      if config.Some? && config.value != "" then Success(config.value)
      else match projects
        case Failure(e) => Failure(e)
        case Success(ps) =>
          (match FirstActive(ps) case Some(k) => Success(ps[k].id) case None => Failure("no active project"))
    else if GoUuid.IsUuid(t) then Success(t)
    else match projects
      case Failure(e) => Failure(e)
      case Success(ps) =>
        (match FirstDesignated(ps, t) case Some(k) => Success(ps[k].id) case None => Failure("project not found"))
  }

  /** The loop looking for the active project. */
  method FindActive(ps: seq<Project>) returns (found: Option<nat>)
    ensures found == FirstActive(ps)
  {
    var i := 0;
    while i < |ps|
      invariant 0 <= i <= |ps|
      invariant forall j :: 0 <= j < i ==> !ps[j].isActive
    {
      if ps[i].isActive {
        assert FirstActive(ps) == Some(i);
        return Some(i);
      }
      i := i + 1;
    }
    return None;
  }

  /** The loop looking for the first project an identifier designates. */
  method FindDesignated(ps: seq<Project>, identifier: string) returns (found: Option<nat>)
    ensures found == FirstDesignated(ps, identifier)
  {
    var i := 0;
    while i < |ps|
      invariant 0 <= i <= |ps|
      invariant forall j :: 0 <= j < i ==> !Designates(ps[j], identifier)
    {
      if ps[i].name == identifier || HasPrefix(ps[i].id, identifier) {
        assert FirstDesignated(ps, identifier) == Some(i);
        return Some(i);
      }
      i := i + 1;
    }
    return None;
  }

  /** resolveProjectID; its two loops over the project list are FindActive and FindDesignated. */
  method ResolveProjectID(client: Client, config: Option<string>, identifier: string)
    returns (r: Result<string, string>, calls: seq<Call>)
    ensures r == ProjectIdFor(client.projects, config, identifier)
    ensures calls == if ListsProjects(config, identifier) then [ListProjectsCall] else []
  {
    var t := TrimSpace(identifier);
    calls := [];
    if t == "" {
      if config.Some? && config.value != "" {
        return Success(config.value), calls;
      }
      calls := [ListProjectsCall];
      if client.projects.Failure? {
        return Failure(client.projects.error), calls;
      }
      var ps := client.projects.value;
      var active := FindActive(ps);
      if active.Some? {
        return Success(ps[active.value].id), calls;
      }
      return Failure("no active project"), calls;
    }
    if GoUuid.Parse(t).Some? {
      return Success(t), calls;
    }
    calls := [ListProjectsCall];
    if client.projects.Failure? {
      return Failure(client.projects.error), calls;
    }
    var ps := client.projects.value;
    var designated := FindDesignated(ps, t);
    if designated.Some? {
      return Success(ps[designated.value].id), calls;
    }
    return Failure("project not found"), calls;
  }

  /** A name or id prefix resolves to the id of a listed project that it designates, the first
    * one in list order; surrounding white space in the identifier does not matter. */
  lemma ResolvedProjectIsDesignated(ps: seq<Project>, config: Option<string>, identifier: string, id: string)
    requires TrimSpace(identifier) != "" && !GoUuid.IsUuid(TrimSpace(identifier))
    requires ProjectIdFor(Success(ps), config, identifier) == Success(id)
    ensures exists k :: (0 <= k < |ps| && ps[k].id == id && Designates(ps[k], TrimSpace(identifier))
      && forall j :: 0 <= j < k ==> !Designates(ps[j], TrimSpace(identifier)))
  {
    var k := FirstDesignated(ps, TrimSpace(identifier)).value;
    assert ps[k].id == id;
  }

  lemma ResolveIgnoresSurroundingSpace(projects: Result<seq<Project>, string>, config: Option<string>, identifier: string)
    ensures ProjectIdFor(projects, config, TrimSpace(identifier)) == ProjectIdFor(projects, config, identifier)
  {
    TrimSpaceIdempotent(identifier);
  }

  /** The ids of the non-blank string entries, each resolved through GetTask, in order; the first
    * failing lookup fails the whole list. */
  function TaskIdsOf(getTask: string -> Result<Task, string>, items: seq<Value>): Result<seq<string>, string> {
    if items == [] then Success([])
    else
      var prefix := TaskIdsOf(getTask, items[..|items| - 1]);
      var s := if items[|items| - 1].Str? then TrimSpace(items[|items| - 1].s) else "";
      if prefix.Failure? || s == "" then prefix
      else match getTask(s)
        case Failure(e) => Failure(e)
        case Success(t) => Success(prefix.value + [t.id])
  }

  /** The GetTask requests resolving `items` sends, up to and including the first that fails. */
  function TaskLookups(getTask: string -> Result<Task, string>, items: seq<Value>): seq<Call> {
    if items == [] then []
    else
      var prefix := TaskLookups(getTask, items[..|items| - 1]);
      var s := if items[|items| - 1].Str? then TrimSpace(items[|items| - 1].s) else "";
      if TaskIdsOf(getTask, items[..|items| - 1]).Failure? || s == "" then prefix
      else prefix + [GetTaskCall(s)]
  }

  /** resolveTaskIDList's verdict on a taskIds argument. */
  function TaskIdListFor(getTask: string -> Result<Task, string>, v: Value): Result<seq<string>, string> {
    if !v.List? then Failure("taskIds must be an array")
    else if v.items == [] then Failure("taskIds cannot be empty")
    else match TaskIdsOf(getTask, v.items)
      case Failure(e) => Failure(e)
      case Success(ids) => if ids == [] then Failure("no valid task ids") else Success(ids)
  }

  /** resolveTaskIDList, with its loop over the entries. */
  method ResolveTaskIDList(client: Client, v: Value) returns (r: Result<seq<string>, string>, calls: seq<Call>)
    ensures r == TaskIdListFor(client.getTask, v)
    ensures calls == if v.List? then TaskLookups(client.getTask, v.items) else []
  {
    calls := [];
    if !v.List? {
      return Failure("taskIds must be an array"), calls;
    }
    var items := v.items;
    if |items| == 0 {
      return Failure("taskIds cannot be empty"), calls;
    }
    var ids: seq<string> := [];
    var i := 0;
    while i < |items|
      invariant 0 <= i <= |items|
      invariant TaskIdsOf(client.getTask, items[..i]) == Success(ids)
      invariant calls == TaskLookups(client.getTask, items[..i])
    {
      TaskIdsStep(client.getTask, items, i);
      var s := if items[i].Str? then TrimSpace(items[i].s) else "";
      if s != "" {
        var t := client.getTask(s);
        calls := calls + [GetTaskCall(s)];
        if t.Failure? {
          ListFailsAt(client.getTask, v, i);
          return Failure(t.error), calls;
        }
        ids := ids + [t.value.id];
      }
      i := i + 1;
    }
    assert items[..i] == items;
    if |ids| == 0 {
      return Failure("no valid task ids"), calls;
    }
    return Success(ids), calls;
  }

  /** One more entry: a blank one or an earlier failure changes nothing, any other entry is
    * looked up and its id, or the lookup's error, is what the list gains. */
  lemma TaskIdsStep(getTask: string -> Result<Task, string>, items: seq<Value>, i: nat)
    requires i < |items|
    ensures var s := if items[i].Str? then TrimSpace(items[i].s) else "";
      var before := TaskIdsOf(getTask, items[..i]);
      && (before.Failure? || s == "" ==>
        TaskIdsOf(getTask, items[..i + 1]) == before && TaskLookups(getTask, items[..i + 1]) == TaskLookups(getTask, items[..i]))
      && (before.Success? && s != "" ==>
        && TaskLookups(getTask, items[..i + 1]) == TaskLookups(getTask, items[..i]) + [GetTaskCall(s)]
        && TaskIdsOf(getTask, items[..i + 1]) ==
          if getTask(s).Failure? then Failure(getTask(s).error) else Success(before.value + [getTask(s).value.id]))
  {
    assert items[..i + 1][..i] == items[..i];
  }

  /** A failed lookup ends the resolution: its error is the verdict, and no more requests follow. */
  lemma ListFailsAt(getTask: string -> Result<Task, string>, v: Value, i: nat)
    requires v.List? && i < |v.items| && TaskIdsOf(getTask, v.items[..i + 1]).Failure?
    ensures TaskIdListFor(getTask, v) == Failure(TaskIdsOf(getTask, v.items[..i + 1]).error)
    ensures TaskLookups(getTask, v.items) == TaskLookups(getTask, v.items[..i + 1])
  {
    TaskIdsFailureSticks(getTask, v.items, i + 1);
    TaskLookupsAfterFailure(getTask, v.items, i + 1);
  }

  /** Once a lookup fails, the list fails with that error. */
  lemma {:induction false} TaskIdsFailureSticks(getTask: string -> Result<Task, string>, items: seq<Value>, i: nat)
    requires i <= |items| && TaskIdsOf(getTask, items[..i]).Failure?
    ensures TaskIdsOf(getTask, items) == TaskIdsOf(getTask, items[..i])
    decreases |items| - i
  {
    if i < |items| {
      assert items[..i + 1][..i] == items[..i];
      TaskIdsFailureSticks(getTask, items, i + 1);
    } else {
      assert items[..i] == items;
    }
  }

  /** Once a lookup fails, no further GetTask request is sent. */
  lemma {:induction false} TaskLookupsAfterFailure(getTask: string -> Result<Task, string>, items: seq<Value>, i: nat)
    requires i <= |items| && TaskIdsOf(getTask, items[..i]).Failure?
    ensures TaskLookups(getTask, items) == TaskLookups(getTask, items[..i])
    decreases |items| - i
  {
    if i < |items| {
      assert items[..i + 1][..i] == items[..i];
      TaskIdsFailureSticks(getTask, items[..i + 1], i);
      TaskLookupsAfterFailure(getTask, items, i + 1);
    } else {
      assert items[..i] == items;
    }
  }

  /** The entries that are non-blank strings. */
  function NonBlankEntries(items: seq<Value>): nat {
    if items == [] then 0
    else (NonBlankEntries(items[..|items| - 1])
      + (if items[|items| - 1].Str? && TrimSpace(items[|items| - 1].s) != "" then 1 else 0))
  }

  /** `id` is the id GetTask reports for some identifier. */
  ghost predicate ReportedId(getTask: string -> Result<Task, string>, id: string) {
    exists s :: getTask(s).Success? && getTask(s).value.id == id
  }

  /** A resolved list holds one full id per non-blank entry, each the id GetTask reports. */
  lemma {:induction false} TaskIdsOneEach(getTask: string -> Result<Task, string>, items: seq<Value>)
    requires TaskIdsOf(getTask, items).Success?
    ensures |TaskIdsOf(getTask, items).value| == NonBlankEntries(items)
    ensures forall k :: 0 <= k < |TaskIdsOf(getTask, items).value| ==>
      ReportedId(getTask, TaskIdsOf(getTask, items).value[k])
  {
    if items != [] {
      var prefix := items[..|items| - 1];
      TaskIdsStep(getTask, items, |items| - 1);
      assert items[..|items| - 1 + 1] == items;
      TaskIdsOneEach(getTask, prefix);
      var ids := TaskIdsOf(getTask, items).value;
      var before := TaskIdsOf(getTask, prefix).value;
      var s := if items[|items| - 1].Str? then TrimSpace(items[|items| - 1].s) else "";
      assert |ids| == NonBlankEntries(items);
      forall k | 0 <= k < |ids|
        ensures ReportedId(getTask, ids[k])
      {
        if k < |before| {
          assert ids[k] == before[k];
        } else {
          assert getTask(s).Success? && getTask(s).value.id == ids[k];
        }
      }
    }
  }

  // ----- tags -----

  /** The string entries of a tags argument, trimmed, in order; nothing for a non-array. */
  function StringItems(items: seq<Value>): seq<string> {
    if items == [] then []
    else (StringItems(items[..|items| - 1])
      + (if items[|items| - 1].Str? then [TrimSpace(items[|items| - 1].s)] else []))
  }

  /** The `var tags []string` loop over a tags argument. */
  method CollectTags(raw: Value) returns (tags: seq<string>)
    ensures tags == if raw.List? then StringItems(raw.items) else []
  {
    tags := [];
    if raw.List? {
      var i := 0;
      while i < |raw.items|
        invariant 0 <= i <= |raw.items|
        invariant tags == StringItems(raw.items[..i])
      {
        assert raw.items[..i + 1][..i] == raw.items[..i];
        if raw.items[i].Str? {
          tags := tags + [TrimSpace(raw.items[i].s)];
        }
        i := i + 1;
      }
      assert raw.items[..i] == raw.items;
    }
  }

  /** A []string value: nil (encoded null) until something is appended. */
  function StringsValue(xs: seq<string>): Value {
    if xs == [] then Record(Some(JNull))
    else Record(Some(JArray(seq(|xs|, i requires 0 <= i < |xs| => JString(xs[i])))))
  }

  // ----- export -----

  function CountStatus(ts: seq<Task>, status: string): nat {
    if ts == [] then 0
    else CountStatus(ts[..|ts| - 1], status) + (if ts[|ts| - 1].status == status then 1 else 0)
  }

  /** The tasks whose status is neither completed nor in progress. */
  function CountPending(ts: seq<Task>): nat {
    if ts == [] then 0
    else
      var t := ts[|ts| - 1];
      CountPending(ts[..|ts| - 1]) + (if t.status != "COMPLETED" && t.status != "IN_PROGRESS" then 1 else 0)
  }

  /** The three counts of the export report partition the tasks. */
  lemma {:induction false} StatusCountsPartition(ts: seq<Task>)
    ensures CountStatus(ts, "COMPLETED") + CountStatus(ts, "IN_PROGRESS") + CountPending(ts) == |ts|
  {
    if ts != [] {
      StatusCountsPartition(ts[..|ts| - 1]);
    }
  }

  /** The stats loop of export_project. */
  method CountByStatus(ts: seq<Task>) returns (completed: nat, inProgress: nat, pending: nat)
    ensures completed == CountStatus(ts, "COMPLETED")
    ensures inProgress == CountStatus(ts, "IN_PROGRESS")
    ensures pending == CountPending(ts)
  {
    completed, inProgress, pending := 0, 0, 0;
    var i := 0;
    while i < |ts|
      invariant 0 <= i <= |ts|
      invariant completed == CountStatus(ts[..i], "COMPLETED")
      invariant inProgress == CountStatus(ts[..i], "IN_PROGRESS")
      invariant pending == CountPending(ts[..i])
    {
      assert ts[..i + 1][..i] == ts[..i];
      if ts[i].status == "COMPLETED" {
        completed := completed + 1;
      } else if ts[i].status == "IN_PROGRESS" {
        inProgress := inProgress + 1;
      } else {
        pending := pending + 1;
      }
      i := i + 1;
    }
    assert ts[..i] == ts;
  }

  /** The status mark of a task in the exported list. */
  function ExportMark(status: string): string {
    if status == "COMPLETED" then "\U{2705}" else if status == "IN_PROGRESS" then "\U{1F504}" else "\U{23F3}"
  }

  function ExportLine(t: Task): string {
    "- " + ExportMark(t.status) + " **" + t.title + "** [" + t.priority + "]\n"
  }

  function ExportLines(ts: seq<Task>): string {
    if ts == [] then "" else ExportLines(ts[..|ts| - 1]) + ExportLine(ts[|ts| - 1])
  }

  /** Writing one more task's line after `prefix`. */
  lemma ExportLinesStep(prefix: string, ts: seq<Task>, i: nat)
    requires i < |ts|
    ensures prefix + ExportLines(ts[..i + 1]) == (prefix + ExportLines(ts[..i])) + ExportLine(ts[i])
  {
    assert ts[..i + 1][..i] == ts[..i];
  }

  /** The heading of the export report: the project name, then its description if it has one. */
  function ExportTitle(name: string, description: string): string {
    if description != "" then "# " + name + "\n\n" + (description + "\n\n") else "# " + name + "\n\n"
  }

  /** The statistics section of the export report. */
  function ExportStats(total: int, completed: int, inProgress: int, pending: int): string {
    "## \U{0130}statistikler\n\n"
    + "- **Toplam:** " + IntToString(total) + "\n"
    + "- **Tamamlanan:** " + IntToString(completed) + "\n"
    + "- **Devam Eden:** " + IntToString(inProgress) + "\n"
    + "- **Bekleyen:** " + IntToString(pending) + "\n\n"
  }

  /** The heading and statistics of the export report. */
  function ExportHeader(name: string, description: string, ts: seq<Task>): string {
    ExportTitle(name, description)
    + ExportStats(|ts|, CountStatus(ts, "COMPLETED"), CountStatus(ts, "IN_PROGRESS"), CountPending(ts))
    + "## G\U{00F6}revler\n\n"
  }

  /** The markdown report of export_project. */
  function ExportMarkdown(name: string, description: string, ts: seq<Task>): string {
    ExportHeader(name, description, ts) + ExportLines(ts)
  }

  /** The heading and statistics as export_project writes them, counting in one pass. */
  method WriteExportHeader(name: string, description: string, ts: seq<Task>) returns (md: string)
    ensures md == ExportHeader(name, description, ts)
  {
    var completed, inProgress, pending := CountByStatus(ts);
    md := "# " + name + "\n\n";
    if description != "" {
      md := md + (description + "\n\n");
    }
    md := md + ExportStats(|ts|, completed, inProgress, pending);
    md := md + "## G\U{00F6}revler\n\n";
  }

  /** The task loop of export_project: one line per task written after `prefix`. */
  method AppendExportLines(prefix: string, ts: seq<Task>) returns (md: string)
    ensures md == prefix + ExportLines(ts)
  {
    md := prefix;
    var i := 0;
    while i < |ts|
      invariant 0 <= i <= |ts|
      invariant md == prefix + ExportLines(ts[..i])
    {
      ExportLinesStep(prefix, ts, i);
      md := md + ExportLine(ts[i]);
      i := i + 1;
    }
    assert ts[..i] == ts;
  }

  /** The strings.Builder of export_project: the header, then one line per task. */
  method BuildExport(name: string, description: string, ts: seq<Task>) returns (md: string)
    ensures md == ExportMarkdown(name, description, ts)
  {
    md := WriteExportHeader(name, description, ts);
    md := AppendExportLines(md, ts);
  }

  /** Index of the first project with the given id, the loop of export_project. */
  function FirstWithId(ps: seq<Project>, id: string): (r: Option<nat>)
    ensures r.Some? ==> (r.value < |ps| && ps[r.value].id == id
      && forall j :: 0 <= j < r.value ==> ps[j].id != id)
    ensures r.None? ==> forall j :: 0 <= j < |ps| ==> ps[j].id != id
  {
    if ps == [] then None
    else if ps[0].id == id then Some(0)
    else match FirstWithId(ps[1..], id)
      case None => None
      case Some(k) => Some(k + 1)
  }
}
