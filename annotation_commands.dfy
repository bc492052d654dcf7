/** The `annotate` and `task-annotations` commands (internal/cli/commands/annotation.go): a task
  * is named on the command line by its full UUID or by a prefix of its ID, and the prefix must
  * pick out exactly one task. The task table and the annotation table are sequences of rows. */
module AnnotationCommands {
  import opened Wrappers
  import opened GoText
  import opened GoUuid

  /** A row of the task table: its ID as the database prints it, and its description. */
  datatype TaskRow = TaskRow(id: string, description: string)

  /** A row of the annotation table. */
  datatype Annotation = Annotation(id: string, taskId: string, content: string, createdAt: int)

  /** The message of the error the database layer returns when `First` finds no row. */
  const RecordNotFound := "record not found"

  function NotFound(cause: string): string {
    "task not found: " + cause
  }

  function NotFoundWithPrefix(prefix: string): string {
    "task not found with prefix: " + prefix
  }

  function Ambiguous(prefix: string): string {
    "multiple tasks found with prefix " + prefix + ", please be more specific"
  }

  /** Task IDs are the table's primary key. */
  predicate UniqueIds(tasks: seq<TaskRow>) {
    forall i, j :: 0 <= i < j < |tasks| ==> tasks[i].id != tasks[j].id
  }

  predicate Distinct(rows: seq<TaskRow>) {
    forall i, j :: 0 <= i < j < |rows| ==> rows[i] != rows[j]
  }

  /** The direct lookup by ID: the first row with that ID, if any. */
  function ById(tasks: seq<TaskRow>, id: string): (r: Option<TaskRow>)
    ensures r.Some? ==> r.value in tasks && r.value.id == id
    ensures r.None? <==> forall t :: t in tasks ==> t.id != id
  {
    if tasks == [] then None
    else if tasks[0].id == id then Some(tasks[0])
    else
      var rest := ById(tasks[1..], id);
      assert forall t :: t in tasks <==> t == tasks[0] || t in tasks[1..];
      rest
  }

  /** The query `id::text LIKE prefix%`: the rows whose ID starts with the prefix, in table order. */
  function PrefixMatches(tasks: seq<TaskRow>, prefix: string): (m: seq<TaskRow>)
    ensures |m| <= |tasks|
    ensures forall t :: t in m <==> t in tasks && HasPrefix(t.id, prefix)
    ensures UniqueIds(tasks) ==> Distinct(m)
  {
    if tasks == [] then []
    else
      var rest := PrefixMatches(tasks[1..], prefix);
      assert forall t :: t in tasks <==> t == tasks[0] || t in tasks[1..];
      assert UniqueIds(tasks) ==> UniqueIds(tasks[1..]) && tasks[0] !in tasks[1..];
      if HasPrefix(tasks[0].id, prefix) then [tasks[0]] + rest else rest
  }

  /** The resolution both commands perform: an argument uuid.Parse accepts is looked up by its
    * canonical ID; any other argument is matched as a prefix, and only a single match
    * resolves. */
  function ResolveTask(tasks: seq<TaskRow>, arg: string): (r: Result<TaskRow, string>)
    ensures r.Success? ==> r.value in tasks
  {
    match Parse(arg)
    case Some(id) =>
      (match ById(tasks, id)
       case Some(t) => Success(t)
       case None => Failure(NotFound(RecordNotFound)))
    case None =>
      var matches := PrefixMatches(tasks, arg);
      if |matches| == 0 then Failure(NotFoundWithPrefix(arg))
      else if |matches| > 1 then Failure(Ambiguous(arg))
      else Success(matches[0])
  }

  /** An argument that parses as a UUID resolves exactly when a task has that ID, and then to
    * that task. */
  lemma ResolveByUuid(tasks: seq<TaskRow>, arg: string)
    requires IsUuid(arg)
    ensures var r := ResolveTask(tasks, arg);
      && (r.Success? <==> exists t :: t in tasks && t.id == Parse(arg).value)
      && (r.Success? ==> r.value.id == Parse(arg).value)
      && (r.Failure? ==> r.error == NotFound(RecordNotFound))
  {
    var id := Parse(arg).value;
    var found := ById(tasks, id);
    if found.Some? {
      assert found.value in tasks && found.value.id == id;
    }
  }

  predicate TwoMatching(tasks: seq<TaskRow>, prefix: string) {
    exists a, b :: a in tasks && b in tasks && a != b && HasPrefix(a.id, prefix) && HasPrefix(b.id, prefix)
  }

  /** Two matches are two different matching rows. */
  lemma TwoMatchesDiffer(tasks: seq<TaskRow>, prefix: string)
    requires UniqueIds(tasks) && |PrefixMatches(tasks, prefix)| > 1
    ensures TwoMatching(tasks, prefix)
  {
    var m := PrefixMatches(tasks, prefix);
    assert m[0] in m && m[1] in m && m[0] != m[1];
  }

  /** Two different matching rows make at least two matches. */
  lemma TwoMatchingCounted(tasks: seq<TaskRow>, prefix: string)
    requires UniqueIds(tasks) && TwoMatching(tasks, prefix)
    ensures |PrefixMatches(tasks, prefix)| > 1
  {
    var m := PrefixMatches(tasks, prefix);
    var a, b :| a in tasks && b in tasks && a != b && HasPrefix(a.id, prefix) && HasPrefix(b.id, prefix);
    assert a in m && b in m;
    var i :| 0 <= i < |m| && m[i] == a;
    var j :| 0 <= j < |m| && m[j] == b;
    assert i != j;
  }

  lemma PrefixMessagesDiffer(arg: string)
    ensures NotFoundWithPrefix(arg) != Ambiguous(arg)
  {
    assert NotFoundWithPrefix(arg)[5] == 'n' && Ambiguous(arg)[5] == 'p';
  }

  /** Any other argument is "not found" exactly when no task's ID starts with it. */
  lemma PrefixNotFound(tasks: seq<TaskRow>, arg: string)
    requires !IsUuid(arg)
    ensures ResolveTask(tasks, arg) == Failure(NotFoundWithPrefix(arg)) <==> forall t :: t in tasks ==> !HasPrefix(t.id, arg)
  {
    PrefixMessagesDiffer(arg);
    var m := PrefixMatches(tasks, arg);
    if |m| != 0 {
      assert m[0] in m;
    }
  }

  /** ... and "multiple tasks" exactly when two different tasks' IDs start with it. */
  lemma PrefixAmbiguous(tasks: seq<TaskRow>, arg: string)
    requires !IsUuid(arg) && UniqueIds(tasks)
    ensures ResolveTask(tasks, arg) == Failure(Ambiguous(arg)) <==> TwoMatching(tasks, arg)
  {
    PrefixMessagesDiffer(arg);
    if |PrefixMatches(tasks, arg)| > 1 {
      TwoMatchesDiffer(tasks, arg);
    }
    if TwoMatching(tasks, arg) {
      TwoMatchingCounted(tasks, arg);
    }
  }

  /** ... and otherwise it resolves to the one task whose ID starts with it. */
  lemma PrefixResolved(tasks: seq<TaskRow>, arg: string)
    requires !IsUuid(arg)
    ensures var r := ResolveTask(tasks, arg);
      r.Success? ==> HasPrefix(r.value.id, arg) && forall t :: t in tasks && HasPrefix(t.id, arg) ==> t == r.value
  {
    var m := PrefixMatches(tasks, arg);
    if |m| == 1 {
      assert m[0] in m;
      assert forall t :: t in m ==> t == m[0];
    }
  }

  /** Any other argument: no matching task is "not found", two or more are "multiple tasks",
    * and otherwise the one task whose ID starts with the argument is the answer. */
  lemma ResolveByPrefix(tasks: seq<TaskRow>, arg: string)
    requires !IsUuid(arg) && UniqueIds(tasks)
    ensures var r := ResolveTask(tasks, arg);
      && (r == Failure(NotFoundWithPrefix(arg)) <==> forall t :: t in tasks ==> !HasPrefix(t.id, arg))
      && (r == Failure(Ambiguous(arg)) <==> TwoMatching(tasks, arg))
      && (r.Success? ==> HasPrefix(r.value.id, arg) && forall t :: t in tasks && HasPrefix(t.id, arg) ==> t == r.value)
  {
    PrefixNotFound(tasks, arg);
    PrefixAmbiguous(tasks, arg);
    PrefixResolved(tasks, arg);
  }

  /** createAnnotation: an annotation with the caller's fresh ID and clock reading, the resolved
    * task's ID and the given content, or the resolution's error. */
  function CreateAnnotation(tasks: seq<TaskRow>, arg: string, content: string, newId: string, now: int): (r: Result<Annotation, string>)
    ensures r.Success? <==> ResolveTask(tasks, arg).Success?
    ensures r.Success? ==> r.value.taskId == ResolveTask(tasks, arg).value.id && r.value.content == content
    ensures r.Failure? ==> r.error == ResolveTask(tasks, arg).error
  {
    match ResolveTask(tasks, arg)
    case Success(task) => Success(Annotation(newId, task.id, content, now))
    case Failure(e) => Failure(e)
  }

  /** The annotations of one task, in table order. */
  function AnnotationsOf(annotations: seq<Annotation>, taskId: string): (r: seq<Annotation>)
    ensures |r| <= |annotations|
    ensures forall a :: a in r <==> a in annotations && a.taskId == taskId
  {
    if annotations == [] then []
    else
      var last := annotations[|annotations| - 1];
      var rest := AnnotationsOf(annotations[..|annotations| - 1], taskId);
      assert forall a :: a in annotations <==> a in annotations[..|annotations| - 1] || a == last;
      if last.taskId == taskId then rest + [last] else rest
  }

  /** listTaskAnnotations: the same resolution, then the resolved task's annotations. */
  function ListTaskAnnotations(tasks: seq<TaskRow>, annotations: seq<Annotation>, arg: string): (r: Result<seq<Annotation>, string>)
    ensures r.Success? <==> ResolveTask(tasks, arg).Success?
    ensures r.Success? ==> forall a :: a in r.value <==> a in annotations && a.taskId == ResolveTask(tasks, arg).value.id
    ensures r.Failure? ==> r.error == ResolveTask(tasks, arg).error
  {
    match ResolveTask(tasks, arg)
    case Success(task) => Success(AnnotationsOf(annotations, task.id))
    case Failure(e) => Failure(e)
  }

  /** An annotation just created is listed for the same argument, and nothing else is new. */
  lemma CreatedIsListed(tasks: seq<TaskRow>, annotations: seq<Annotation>, arg: string, content: string, newId: string, now: int)
    requires CreateAnnotation(tasks, arg, content, newId, now).Success?
    ensures var a := CreateAnnotation(tasks, arg, content, newId, now).value;
      var listed := ListTaskAnnotations(tasks, annotations + [a], arg);
      && listed.Success?
      && a in listed.value
      && forall b :: b in listed.value && b != a ==> b in annotations
  {
    var a := CreateAnnotation(tasks, arg, content, newId, now).value;
    assert a in annotations + [a];
    assert forall b :: b in annotations + [a] <==> b in annotations || b == a;
  }

  /** The annotation table the commands write to and read from. */
  class AnnotationStore {
    var annotations: seq<Annotation>

    constructor(rows: seq<Annotation>)
      ensures annotations == rows
    {
      annotations := rows;
    }

    /** createAnnotation: the new row is inserted only when the task resolves; `newId` and
      * `now` are the fresh ID and the clock reading. */
    method Create(tasks: seq<TaskRow>, arg: string, content: string, newId: string, now: int)
      returns (r: Result<Annotation, string>)
      modifies this
      ensures r == CreateAnnotation(tasks, arg, content, newId, now)
      ensures r.Success? ==> annotations == old(annotations) + [r.value]
      ensures r.Failure? ==> annotations == old(annotations)
    {
      r := CreateAnnotation(tasks, arg, content, newId, now);
      if r.Success? {
        annotations := annotations + [r.value];
      }
    }

    /** listTaskAnnotations over the table as it stands. */
    method List(tasks: seq<TaskRow>, arg: string) returns (r: Result<seq<Annotation>, string>)
      ensures r == ListTaskAnnotations(tasks, annotations, arg)
    {
      r := ListTaskAnnotations(tasks, annotations, arg);
    }
  }
}
