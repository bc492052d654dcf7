/** CallTool of internal/mcp/tools.go: the 57 tools the MCP server offers, each checking its
  * arguments, calling the API client and shaping what the client answers. Every method returns
  * the tool's result or error together with the requests it sent to the client, in order. */
module McpDispatch {
  import opened Wrappers
  import opened GoText
  import opened GoJson
  import opened McpTools
  import GoUuid

  // ----- the tool catalogue, in the sections of the switch -----

  datatype TaskTool =
    | CreateTask | ListTasks | SearchTasks | GetNextTasks | GetTask | StartTask | CompleteTask
    | StopTask | GetActiveTask | DeleteTask | UpdateTaskStatus | UpdateProgress | AddTaskNote
    | CreateSubtask | BulkStartTasks | BulkCompleteTasks

  datatype ProjectTool =
    | ListProjects | CreateProject | SetActiveProject | GetProject | UpdateProject | DeleteProject

  datatype MemoryTool =
    | AddMemory | ListMemories | GetMemory | UpdateMemory | DeleteMemory | GetTaskMemories
    | MemoryTasks | CreateMemoryTaskLink

  datatype ReportTool =
    | GetStats | GetHistory | AnalyzeTaskRisks | AnalyzeTaskDependencies | DuplicateTask
    | MoveTasksToProject | Timeline | Recall | ExportProject

  datatype ContextTool =
    | ListContexts | CreateContext | SetActiveContext | ListContextPacks | GetContextPack
    | CreateContextPack | UpdateContextPack | DeleteContextPack | ActivateContextPack
    | GetActiveContextPack

  datatype OrganizationTool = ListOrganizations | GetOrganization | CreateOrganization

  datatype DecisionTool = ListDecisions | GetDecision | CreateDecision | UpdateDecision | DeleteDecision

  datatype Tool =
    | Tasks(task: TaskTool)
    | Projects(project: ProjectTool)
    | Memories(memory: MemoryTool)
    | Reports(report: ReportTool)
    | Contexts(context: ContextTool)
    | Organizations(organization: OrganizationTool)
    | Decisions(decision: DecisionTool)

  function TaskToolName(t: TaskTool): string {
    match t
    case CreateTask => "create_task"
    case ListTasks => "list_tasks"
    case SearchTasks => "search_tasks"
    case GetNextTasks => "get_next_tasks"
    case GetTask => "get_task"
    case StartTask => "start_task"
    case CompleteTask => "complete_task"
    case StopTask => "stop_task"
    case GetActiveTask => "get_active_task"
    case DeleteTask => "delete_task"
    case UpdateTaskStatus => "update_task_status"
    case UpdateProgress => "update_progress"
    case AddTaskNote => "add_task_note"
    case CreateSubtask => "create_subtask"
    case BulkStartTasks => "bulk_start_tasks"
    case BulkCompleteTasks => "bulk_complete_tasks"
  }

  function ProjectToolName(t: ProjectTool): string {
    match t
    case ListProjects => "list_projects"
    case CreateProject => "create_project"
    case SetActiveProject => "set_active_project"
    case GetProject => "get_project"
    case UpdateProject => "update_project"
    case DeleteProject => "delete_project"
  }

  function MemoryToolName(t: MemoryTool): string {
    match t
    case AddMemory => "add_memory"
    case ListMemories => "list_memories"
    case GetMemory => "get_memory"
    case UpdateMemory => "update_memory"
    case DeleteMemory => "delete_memory"
    case GetTaskMemories => "get_task_memories"
    case MemoryTasks => "memory_tasks"
    case CreateMemoryTaskLink => "create_memory_task_link"
  }

  function ReportToolName(t: ReportTool): string {
    match t
    case GetStats => "get_stats"
    case GetHistory => "get_history"
    case AnalyzeTaskRisks => "analyze_task_risks"
    case AnalyzeTaskDependencies => "analyze_task_dependencies"
    case DuplicateTask => "duplicate_task"
    case MoveTasksToProject => "move_tasks_to_project"
    case Timeline => "timeline"
    case Recall => "recall"
    case ExportProject => "export_project"
  }

  function ContextToolName(t: ContextTool): string {
    match t
    case ListContexts => "list_contexts"
    case CreateContext => "create_context"
    case SetActiveContext => "set_active_context"
    case ListContextPacks => "list_context_packs"
    case GetContextPack => "get_context_pack"
    case CreateContextPack => "create_context_pack"
    case UpdateContextPack => "update_context_pack"
    case DeleteContextPack => "delete_context_pack"
    case ActivateContextPack => "activate_context_pack"
    case GetActiveContextPack => "get_active_context_pack"
  }

  function OrganizationToolName(t: OrganizationTool): string {
    match t
    case ListOrganizations => "list_organizations"
    case GetOrganization => "get_organization"
    case CreateOrganization => "create_organization"
  }

  function DecisionToolName(t: DecisionTool): string {
    match t
    case ListDecisions => "list_decisions"
    case GetDecision => "get_decision"
    case CreateDecision => "create_decision"
    case UpdateDecision => "update_decision"
    case DeleteDecision => "delete_decision"
  }

  /** The name a tool is called by, as ToolDefinitions advertises it. */
  function ToolName(t: Tool): string {
    match t
    case Tasks(x) => TaskToolName(x)
    case Projects(x) => ProjectToolName(x)
    case Memories(x) => MemoryToolName(x)
    case Reports(x) => ReportToolName(x)
    case Contexts(x) => ContextToolName(x)
    case Organizations(x) => OrganizationToolName(x)
    case Decisions(x) => DecisionToolName(x)
  }

  // The switch of CallTool, one section at a time: each case compares the requested name with
  // the name of its tool.

  function TaskToolOf(name: string): (r: Option<TaskTool>)
    ensures r.Some? ==> TaskToolName(r.value) == name
  {
    if name == "create_task" then Some(CreateTask)
    else if name == "list_tasks" then Some(ListTasks)
    else if name == "search_tasks" then Some(SearchTasks)
    else if name == "get_next_tasks" then Some(GetNextTasks)
    else if name == "get_task" then Some(GetTask)
    else if name == "start_task" then Some(StartTask)
    else if name == "complete_task" then Some(CompleteTask)
    else if name == "stop_task" then Some(StopTask)
    else if name == "get_active_task" then Some(GetActiveTask)
    else if name == "delete_task" then Some(DeleteTask)
    else if name == "update_task_status" then Some(UpdateTaskStatus)
    else if name == "update_progress" then Some(UpdateProgress)
    else if name == "add_task_note" then Some(AddTaskNote)
    else if name == "create_subtask" then Some(CreateSubtask)
    else if name == "bulk_start_tasks" then Some(BulkStartTasks)
    else if name == "bulk_complete_tasks" then Some(BulkCompleteTasks)
    else None
  }

  function ProjectToolOf(name: string): (r: Option<ProjectTool>)
    ensures r.Some? ==> ProjectToolName(r.value) == name
  {
    if name == "list_projects" then Some(ListProjects)
    else if name == "create_project" then Some(CreateProject)
    else if name == "set_active_project" then Some(SetActiveProject)
    else if name == "get_project" then Some(GetProject)
    else if name == "update_project" then Some(UpdateProject)
    else if name == "delete_project" then Some(DeleteProject)
    else None
  }

  function MemoryToolOf(name: string): (r: Option<MemoryTool>)
    ensures r.Some? ==> MemoryToolName(r.value) == name
  {
    if name == "add_memory" then Some(AddMemory)
    else if name == "list_memories" then Some(ListMemories)
    else if name == "get_memory" then Some(GetMemory)
    else if name == "update_memory" then Some(UpdateMemory)
    else if name == "delete_memory" then Some(DeleteMemory)
    else if name == "get_task_memories" then Some(GetTaskMemories)
    else if name == "memory_tasks" then Some(MemoryTasks)
    else if name == "create_memory_task_link" then Some(CreateMemoryTaskLink)
    else None
  }

  function ReportToolOf(name: string): (r: Option<ReportTool>)
    ensures r.Some? ==> ReportToolName(r.value) == name
  {
    if name == "get_stats" then Some(GetStats)
    else if name == "get_history" then Some(GetHistory)
    else if name == "analyze_task_risks" then Some(AnalyzeTaskRisks)
    else if name == "analyze_task_dependencies" then Some(AnalyzeTaskDependencies)
    else if name == "duplicate_task" then Some(DuplicateTask)
    else if name == "move_tasks_to_project" then Some(MoveTasksToProject)
    else if name == "timeline" then Some(Timeline)
    else if name == "recall" then Some(Recall)
    else if name == "export_project" then Some(ExportProject)
    else None
  }

  function ContextToolOf(name: string): (r: Option<ContextTool>)
    ensures r.Some? ==> ContextToolName(r.value) == name
  {
    if name == "list_contexts" then Some(ListContexts)
    else if name == "create_context" then Some(CreateContext)
    else if name == "set_active_context" then Some(SetActiveContext)
    else if name == "list_context_packs" then Some(ListContextPacks)
    else if name == "get_context_pack" then Some(GetContextPack)
    else if name == "create_context_pack" then Some(CreateContextPack)
    else if name == "update_context_pack" then Some(UpdateContextPack)
    else if name == "delete_context_pack" then Some(DeleteContextPack)
    else if name == "activate_context_pack" then Some(ActivateContextPack)
    else if name == "get_active_context_pack" then Some(GetActiveContextPack)
    else None
  }

  function OrganizationToolOf(name: string): (r: Option<OrganizationTool>)
    ensures r.Some? ==> OrganizationToolName(r.value) == name
  {
    if name == "list_organizations" then Some(ListOrganizations)
    else if name == "get_organization" then Some(GetOrganization)
    else if name == "create_organization" then Some(CreateOrganization)
    else None
  }

  function DecisionToolOf(name: string): (r: Option<DecisionTool>)
    ensures r.Some? ==> DecisionToolName(r.value) == name
  {
    if name == "list_decisions" then Some(ListDecisions)
    else if name == "get_decision" then Some(GetDecision)
    else if name == "create_decision" then Some(CreateDecision)
    else if name == "update_decision" then Some(UpdateDecision)
    else if name == "delete_decision" then Some(DeleteDecision)
    else None
  }

  /** The tool a requested name selects, if any: the switch of CallTool, whose default case
    * reports "tool not implemented". A name only ever selects the tool called by that name. */
  function ToolOf(name: string): (r: Option<Tool>)
    ensures r.Some? ==> ToolName(r.value) == name
  {
    match TaskToolOf(name)
    case Some(x) => Some(Tasks(x))
    case None =>
    match ProjectToolOf(name)
    case Some(x) => Some(Projects(x))
    case None => MiddleToolOf(name)
  }

  /** The memory and report sections of the switch, then the rest. */
  function MiddleToolOf(name: string): (r: Option<Tool>)
    ensures r.Some? ==> ToolName(r.value) == name
  {
    match MemoryToolOf(name)
    case Some(x) => Some(Memories(x))
    case None =>
    match ReportToolOf(name)
    case Some(x) => Some(Reports(x))
    case None => LaterToolOf(name)
  }

  /** The context section of the switch, then the last two. */
  function LaterToolOf(name: string): (r: Option<Tool>)
    ensures r.Some? ==> ToolName(r.value) == name
  {
    match ContextToolOf(name)
    case Some(x) => Some(Contexts(x))
    case None => LastToolOf(name)
  }

  /** The organization and decision sections of the switch. */
  function LastToolOf(name: string): (r: Option<Tool>)
    ensures r.Some? ==> ToolName(r.value) == name
  {
    match OrganizationToolOf(name)
    case Some(x) => Some(Organizations(x))
    case None =>
    match DecisionToolOf(name)
    case Some(x) => Some(Decisions(x))
    case None => None
  }

  // ----- every tool is selected by its own name -----

  const TaskToolNames: set<string> := {"create_task", "list_tasks", "search_tasks", "get_next_tasks", "get_task", "start_task", "complete_task", "stop_task", "get_active_task", "delete_task", "update_task_status", "update_progress", "add_task_note", "create_subtask", "bulk_start_tasks", "bulk_complete_tasks"}

  lemma TaskToolNameListed(t: TaskTool)
    ensures TaskToolName(t) in TaskToolNames
  {
  }

  /** A name outside the task section passes that section by. */
  lemma TaskToolOfOther(name: string)
    requires name !in TaskToolNames
    ensures TaskToolOf(name) == None
  {
    if TaskToolOf(name).Some? {
      TaskToolNameListed(TaskToolOf(name).value);
    }
  }

  /** Each case of the task section selects its own tool by that tool's name. */
  lemma TaskToolRoundTrip(t: TaskTool)
    ensures TaskToolOf(TaskToolName(t)) == Some(t)
  {
  }

  const ProjectToolNames: set<string> := {"list_projects", "create_project", "set_active_project", "get_project", "update_project", "delete_project"}

  lemma ProjectToolNameListed(t: ProjectTool)
    ensures ProjectToolName(t) in ProjectToolNames
  {
  }

  /** A name outside the project section passes that section by. */
  lemma ProjectToolOfOther(name: string)
    requires name !in ProjectToolNames
    ensures ProjectToolOf(name) == None
  {
    if ProjectToolOf(name).Some? {
      ProjectToolNameListed(ProjectToolOf(name).value);
    }
  }

  /** Each case of the project section selects its own tool by that tool's name. */
  lemma ProjectToolRoundTrip(t: ProjectTool)
    ensures ProjectToolOf(ProjectToolName(t)) == Some(t)
  {
  }

  const MemoryToolNames: set<string> := {"add_memory", "list_memories", "get_memory", "update_memory", "delete_memory", "get_task_memories", "memory_tasks", "create_memory_task_link"}

  lemma MemoryToolNameListed(t: MemoryTool)
    ensures MemoryToolName(t) in MemoryToolNames
  {
  }

  /** A name outside the memory section passes that section by. */
  lemma MemoryToolOfOther(name: string)
    requires name !in MemoryToolNames
    ensures MemoryToolOf(name) == None
  {
    if MemoryToolOf(name).Some? {
      MemoryToolNameListed(MemoryToolOf(name).value);
    }
  }

  /** Each case of the memory section selects its own tool by that tool's name. */
  lemma MemoryToolRoundTrip(t: MemoryTool)
    ensures MemoryToolOf(MemoryToolName(t)) == Some(t)
  {
  }

  const ReportToolNames: set<string> := {"get_stats", "get_history", "analyze_task_risks", "analyze_task_dependencies", "duplicate_task", "move_tasks_to_project", "timeline", "recall", "export_project"}

  lemma ReportToolNameListed(t: ReportTool)
    ensures ReportToolName(t) in ReportToolNames
  {
  }

  /** A name outside the report section passes that section by. */
  lemma ReportToolOfOther(name: string)
    requires name !in ReportToolNames
    ensures ReportToolOf(name) == None
  {
    if ReportToolOf(name).Some? {
      ReportToolNameListed(ReportToolOf(name).value);
    }
  }

  /** Each case of the report section selects its own tool by that tool's name. */
  lemma ReportToolRoundTrip(t: ReportTool)
    ensures ReportToolOf(ReportToolName(t)) == Some(t)
  {
  }

  const ContextToolNames: set<string> := {"list_contexts", "create_context", "set_active_context", "list_context_packs", "get_context_pack", "create_context_pack", "update_context_pack", "delete_context_pack", "activate_context_pack", "get_active_context_pack"}

  lemma ContextToolNameListed(t: ContextTool)
    ensures ContextToolName(t) in ContextToolNames
  {
  }

  /** A name outside the context section passes that section by. */
  lemma ContextToolOfOther(name: string)
    requires name !in ContextToolNames
    ensures ContextToolOf(name) == None
  {
    if ContextToolOf(name).Some? {
      ContextToolNameListed(ContextToolOf(name).value);
    }
  }

  /** Each case of the context section selects its own tool by that tool's name. */
  lemma ContextToolRoundTrip(t: ContextTool)
    ensures ContextToolOf(ContextToolName(t)) == Some(t)
  {
  }

  const OrganizationToolNames: set<string> := {"list_organizations", "get_organization", "create_organization"}

  lemma OrganizationToolNameListed(t: OrganizationTool)
    ensures OrganizationToolName(t) in OrganizationToolNames
  {
  }

  /** A name outside the organization section passes that section by. */
  lemma OrganizationToolOfOther(name: string)
    requires name !in OrganizationToolNames
    ensures OrganizationToolOf(name) == None
  {
    if OrganizationToolOf(name).Some? {
      OrganizationToolNameListed(OrganizationToolOf(name).value);
    }
  }

  /** Each case of the organization section selects its own tool by that tool's name. */
  lemma OrganizationToolRoundTrip(t: OrganizationTool)
    ensures OrganizationToolOf(OrganizationToolName(t)) == Some(t)
  {
  }

  const DecisionToolNames: set<string> := {"list_decisions", "get_decision", "create_decision", "update_decision", "delete_decision"}

  lemma DecisionToolNameListed(t: DecisionTool)
    ensures DecisionToolName(t) in DecisionToolNames
  {
  }

  /** A name outside the decision section passes that section by. */
  lemma DecisionToolOfOther(name: string)
    requires name !in DecisionToolNames
    ensures DecisionToolOf(name) == None
  {
    if DecisionToolOf(name).Some? {
      DecisionToolNameListed(DecisionToolOf(name).value);
    }
  }

  /** Each case of the decision section selects its own tool by that tool's name. */
  lemma DecisionToolRoundTrip(t: DecisionTool)
    ensures DecisionToolOf(DecisionToolName(t)) == Some(t)
  {
  }

  // No name belongs to two sections; each pair of sections is checked on its own.

  lemma ProjectNamesApartFromTask()
    ensures TaskToolNames !! ProjectToolNames
  {
  }

  lemma MemoryNamesApartFromTask()
    ensures TaskToolNames !! MemoryToolNames
  {
  }

  lemma MemoryNamesApartFromProject()
    ensures ProjectToolNames !! MemoryToolNames
  {
  }

  lemma ReportNamesApartFromTask()
    ensures TaskToolNames !! ReportToolNames
  {
  }

  lemma ReportNamesApartFromProject()
    ensures ProjectToolNames !! ReportToolNames
  {
  }

  lemma ReportNamesApartFromMemory()
    ensures MemoryToolNames !! ReportToolNames
  {
  }

  lemma ContextNamesApartFromTask()
    ensures TaskToolNames !! ContextToolNames
  {
  }

  lemma ContextNamesApartFromProject()
    ensures ProjectToolNames !! ContextToolNames
  {
  }

  lemma ContextNamesApartFromMemory()
    ensures MemoryToolNames !! ContextToolNames
  {
  }

  lemma ContextNamesApartFromReport()
    ensures ReportToolNames !! ContextToolNames
  {
  }

  lemma OrganizationNamesApartFromTask()
    ensures TaskToolNames !! OrganizationToolNames
  {
  }

  lemma OrganizationNamesApartFromProject()
    ensures ProjectToolNames !! OrganizationToolNames
  {
  }

  lemma OrganizationNamesApartFromMemory()
    ensures MemoryToolNames !! OrganizationToolNames
  {
  }

  lemma OrganizationNamesApartFromReport()
    ensures ReportToolNames !! OrganizationToolNames
  {
  }

  lemma OrganizationNamesApartFromContext()
    ensures ContextToolNames !! OrganizationToolNames
  {
  }

  lemma DecisionNamesApartFromTask()
    ensures TaskToolNames !! DecisionToolNames
  {
  }

  lemma DecisionNamesApartFromProject()
    ensures ProjectToolNames !! DecisionToolNames
  {
  }

  lemma DecisionNamesApartFromMemory()
    ensures MemoryToolNames !! DecisionToolNames
  {
  }

  lemma DecisionNamesApartFromReport()
    ensures ReportToolNames !! DecisionToolNames
  {
  }

  lemma DecisionNamesApartFromContext()
    ensures ContextToolNames !! DecisionToolNames
  {
  }

  lemma DecisionNamesApartFromOrganization()
    ensures OrganizationToolNames !! DecisionToolNames
  {
  }

  lemma TasksSelected(x: TaskTool)
    ensures ToolOf(ToolName(Tasks(x))) == Some(Tasks(x))
  {
    TaskToolNameListed(x);
    TaskToolRoundTrip(x);
  }

  lemma ProjectsSelected(x: ProjectTool)
    ensures ToolOf(ToolName(Projects(x))) == Some(Projects(x))
  {
    ProjectToolNameListed(x);
    ProjectNamesApartFromTask();
    TaskToolOfOther(ProjectToolName(x));
    ProjectToolRoundTrip(x);
  }

  lemma MemoriesSelected(x: MemoryTool)
    ensures ToolOf(ToolName(Memories(x))) == Some(Memories(x))
  {
    MemoryToolNameListed(x);
    MemoryNamesApartFromTask();
    MemoryNamesApartFromProject();
    TaskToolOfOther(MemoryToolName(x));
    ProjectToolOfOther(MemoryToolName(x));
    MemoryToolRoundTrip(x);
  }

  lemma ReportsSelected(x: ReportTool)
    ensures ToolOf(ToolName(Reports(x))) == Some(Reports(x))
  {
    ReportToolNameListed(x);
    ReportNamesApartFromTask();
    ReportNamesApartFromProject();
    ReportNamesApartFromMemory();
    TaskToolOfOther(ReportToolName(x));
    ProjectToolOfOther(ReportToolName(x));
    MemoryToolOfOther(ReportToolName(x));
    ReportToolRoundTrip(x);
  }

  lemma ContextsSelected(x: ContextTool)
    ensures ToolOf(ToolName(Contexts(x))) == Some(Contexts(x))
  {
    ContextToolNameListed(x);
    ContextNamesApartFromTask();
    ContextNamesApartFromProject();
    ContextNamesApartFromMemory();
    ContextNamesApartFromReport();
    TaskToolOfOther(ContextToolName(x));
    ProjectToolOfOther(ContextToolName(x));
    MemoryToolOfOther(ContextToolName(x));
    ReportToolOfOther(ContextToolName(x));
    ContextToolRoundTrip(x);
  }

  lemma OrganizationsSelected(x: OrganizationTool)
    ensures ToolOf(ToolName(Organizations(x))) == Some(Organizations(x))
  {
    OrganizationToolNameListed(x);
    OrganizationNamesApartFromTask();
    OrganizationNamesApartFromProject();
    OrganizationNamesApartFromMemory();
    OrganizationNamesApartFromReport();
    OrganizationNamesApartFromContext();
    TaskToolOfOther(OrganizationToolName(x));
    ProjectToolOfOther(OrganizationToolName(x));
    MemoryToolOfOther(OrganizationToolName(x));
    ReportToolOfOther(OrganizationToolName(x));
    ContextToolOfOther(OrganizationToolName(x));
    OrganizationToolRoundTrip(x);
  }

  lemma DecisionsSelected(x: DecisionTool)
    ensures ToolOf(ToolName(Decisions(x))) == Some(Decisions(x))
  {
    DecisionToolNameListed(x);
    DecisionNamesApartFromTask();
    DecisionNamesApartFromProject();
    DecisionNamesApartFromMemory();
    DecisionNamesApartFromReport();
    DecisionNamesApartFromContext();
    DecisionNamesApartFromOrganization();
    TaskToolOfOther(DecisionToolName(x));
    ProjectToolOfOther(DecisionToolName(x));
    MemoryToolOfOther(DecisionToolName(x));
    ReportToolOfOther(DecisionToolName(x));
    ContextToolOfOther(DecisionToolName(x));
    OrganizationToolOfOther(DecisionToolName(x));
    DecisionToolRoundTrip(x);
  }

  /** The switch reaches the case of every tool by that tool's name: no advertised name is
    * answered with "tool not implemented". */
  lemma ToolOfRoundTrip(t: Tool)
    ensures ToolOf(ToolName(t)) == Some(t)
  {
    match t
    case Tasks(x) => TasksSelected(x);
    case Projects(x) => ProjectsSelected(x);
    case Memories(x) => MemoriesSelected(x);
    case Reports(x) => ReportsSelected(x);
    case Contexts(x) => ContextsSelected(x);
    case Organizations(x) => OrganizationsSelected(x);
    case Decisions(x) => DecisionsSelected(x);
  }

  /** No two tools share a name. */
  lemma ToolNamesDistinct(a: Tool, b: Tool)
    requires ToolName(a) == ToolName(b)
    ensures a == b
  {
    ToolOfRoundTrip(a);
    ToolOfRoundTrip(b);
  }

  // ----- shared shapes -----

  /** A refusal: the error, and no request sent. */
  predicate Refused(message: string, r: Result<Value, string>, calls: seq<Call>) {
    r == Failure(message) && calls == []
  }

  /** A []string argument of a request. */
  function StringList(xs: seq<string>): Value {
    List(seq(|xs|, i requires 0 <= i < |xs| => Str(xs[i])))
  }

  /** One request with fixed arguments, its answer passed on. */
  predicate AskAnswers(client: Client, c: Call, r: Result<Value, string>, calls: seq<Call>)
  {
    calls == [c] && r == client.send(c)
  }

  method Ask(client: Client, c: Call) returns (r: Result<Value, string>, calls: seq<Call>)
    ensures AskAnswers(client, c, r, calls)
  {
    calls := [c];
    r := client.send(c);
  }

  /** Tools that check one identifier and pass on what the client answers for it. */
  predicate LookupAnswers(client: Client, args: map<string, Value>, key: string, message: string, op: string,
    r: Result<Value, string>, calls: seq<Call>)
  {
    && (TrimmedArg(args, key) == "" ==> Refused(message, r, calls))
    && (TrimmedArg(args, key) != "" ==>
        calls == [Call(op, [Str(TrimmedArg(args, key))])] && r == client.send(calls[0]))
  }

  method Lookup(client: Client, args: map<string, Value>, key: string, message: string, op: string)
    returns (r: Result<Value, string>, calls: seq<Call>)
    ensures LookupAnswers(client, args, key, message, op, r, calls)
  {
    var id := TrimmedArg(args, key);
    if id == "" {
      return Failure(message), [];
    }
    r, calls := Ask(client, Call(op, [Str(id)]));
  }

  /** start_task, complete_task and stop_task: one request, acknowledged with {"ok": true}. */
  predicate AcknowledgeAnswers(client: Client, args: map<string, Value>, op: string,
    r: Result<Value, string>, calls: seq<Call>)
  {
    && (TrimmedArg(args, "taskId") == "" ==> Refused("taskId is required", r, calls))
    && (TrimmedArg(args, "taskId") != "" ==>
        calls == [Call(op, [Str(TrimmedArg(args, "taskId"))])]
        && r == Acknowledged(client.send(calls[0]), Object(map["ok" := Bool(true)])))
  }

  method Acknowledge(client: Client, args: map<string, Value>, op: string)
    returns (r: Result<Value, string>, calls: seq<Call>)
    ensures AcknowledgeAnswers(client, args, op, r, calls)
  {
    var id := TrimmedArg(args, "taskId");
    if id == "" {
      return Failure("taskId is required"), [];
    }
    calls := [Call(op, [Str(id)])];
    r := Acknowledged(client.send(calls[0]), Object(map["ok" := Bool(true)]));
  }

  /** The delete tools: one request, acknowledged with {"ok": true, "deleted": id}. */
  predicate DeleteAnswers(client: Client, args: map<string, Value>, key: string, message: string, op: string,
    r: Result<Value, string>, calls: seq<Call>)
  {
    && (TrimmedArg(args, key) == "" ==> Refused(message, r, calls))
    && (TrimmedArg(args, key) != "" ==>
        calls == [Call(op, [Str(TrimmedArg(args, key))])]
        && r == Acknowledged(client.send(calls[0]), Object(map["ok" := Bool(true), "deleted" := Str(TrimmedArg(args, key))])))
  }

  method Delete(client: Client, args: map<string, Value>, key: string, message: string, op: string)
    returns (r: Result<Value, string>, calls: seq<Call>)
    ensures DeleteAnswers(client, args, key, message, op, r, calls)
  {
    var id := TrimmedArg(args, key);
    if id == "" {
      return Failure(message), [];
    }
    calls := [Call(op, [Str(id)])];
    r := Acknowledged(client.send(calls[0]), Object(map["ok" := Bool(true), "deleted" := Str(id)]));
  }

  /** The tools with two required arguments that send them, trimmed, in one request. */
  predicate PairAnswers(client: Client, args: map<string, Value>, first: string, second: string, message: string, op: string,
    r: Result<Value, string>, calls: seq<Call>)
  {
    && (TrimmedArg(args, first) == "" || TrimmedArg(args, second) == "" ==> Refused(message, r, calls))
    && (TrimmedArg(args, first) != "" && TrimmedArg(args, second) != "" ==>
        calls == [Call(op, [Str(TrimmedArg(args, first)), Str(TrimmedArg(args, second))])]
        && r == client.send(calls[0]))
  }

  method Pair(client: Client, args: map<string, Value>, first: string, second: string, message: string, op: string)
    returns (r: Result<Value, string>, calls: seq<Call>)
    ensures PairAnswers(client, args, first, second, message, op, r, calls)
  {
    var a := TrimmedArg(args, first);
    var b := TrimmedArg(args, second);
    if a == "" || b == "" {
      return Failure(message), [];
    }
    r, calls := Ask(client, Call(op, [Str(a), Str(b)]));
  }

  /** create_project, create_context and create_organization: a name is required, the
    * description is optional, both are trimmed. */
  predicate CreateNamedAnswers(client: Client, args: map<string, Value>, op: string,
    r: Result<Value, string>, calls: seq<Call>)
  {
    && (TrimmedArg(args, "name") == "" ==> Refused("name is required", r, calls))
    && (TrimmedArg(args, "name") != "" ==>
        calls == [Call(op, [Str(TrimmedArg(args, "name")), Str(TrimmedArg(args, "description"))])]
        && r == client.send(calls[0]))
  }

  method CreateNamed(client: Client, args: map<string, Value>, op: string)
    returns (r: Result<Value, string>, calls: seq<Call>)
    ensures CreateNamedAnswers(client, args, op, r, calls)
  {
    var name := TrimmedArg(args, "name");
    if name == "" {
      return Failure("name is required"), [];
    }
    r, calls := Ask(client, Call(op, [Str(name), Str(TrimmedArg(args, "description"))]));
  }

  /** The update map of the update tools: each string argument among `nonBlank` whose trimmed
    * text is not empty, each string argument among `anyString`, trimmed, and with `withTags`
    * the trimmed string entries of an array `tags` argument. */
  function Updates(args: map<string, Value>, nonBlank: set<string>, anyString: set<string>, withTags: bool): map<string, Value> {
    var fields := map k | k in args && args[k].Str? && ((k in nonBlank && TrimSpace(args[k].s) != "") || k in anyString)
      :: Str(TrimSpace(args[k].s));
    if withTags && "tags" in args && args["tags"].List? then fields["tags" := StringsValue(StringItems(args["tags"].items))]
    else fields
  }

  /** An update sends only the fields it names, trimmed, and every field it names that was given. */
  lemma UpdatesSendNamedFields(args: map<string, Value>, nonBlank: set<string>, anyString: set<string>, withTags: bool)
    requires "tags" !in nonBlank && "tags" !in anyString && nonBlank !! anyString
    ensures var u := Updates(args, nonBlank, anyString, withTags);
      && (forall k :: k in u ==> k in nonBlank || k in anyString || (withTags && k == "tags"))
      && (forall k :: k in u && k != "tags" ==> k in args && args[k].Str? && u[k] == Str(TrimSpace(args[k].s)))
      && (forall k :: k in anyString && k in args && args[k].Str? ==> k in u)
      && (forall k :: k in nonBlank && k in args && args[k].Str? ==> (k in u <==> TrimSpace(args[k].s) != ""))
  {
  }

  /** The update tools: the identifier checked, then one request with the update map. */
  predicate UpdateAnswers(client: Client, args: map<string, Value>, key: string, message: string, op: string,
    nonBlank: set<string>, anyString: set<string>, withTags: bool, r: Result<Value, string>, calls: seq<Call>)
  {
    && (TrimmedArg(args, key) == "" ==> Refused(message, r, calls))
    && (TrimmedArg(args, key) != "" ==>
        calls == [Call(op, [Str(TrimmedArg(args, key)), Object(Updates(args, nonBlank, anyString, withTags))])]
        && r == client.send(calls[0]))
  }

  method Update(client: Client, args: map<string, Value>, key: string, message: string, op: string,
                nonBlank: set<string>, anyString: set<string>, withTags: bool)
    returns (r: Result<Value, string>, calls: seq<Call>)
    ensures UpdateAnswers(client, args, key, message, op, nonBlank, anyString, withTags, r, calls)
  {
    var id := TrimmedArg(args, key);
    if id == "" {
      return Failure(message), [];
    }
    var updates := Updates(args, nonBlank, anyString, false);
    if withTags && "tags" in args && args["tags"].List? {
      var tags := CollectTags(args["tags"]);
      updates := updates["tags" := StringsValue(tags)];
    }
    r, calls := Ask(client, Call(op, [Str(id), Object(updates)]));
  }

  // ----- project filters -----

  /** The project filter of the listing tools: none when the argument is blank, else the
    * resolved project. */
  function ProjectFilter(projects: Result<seq<Project>, string>, config: Option<string>, identifier: string): Result<string, string> {
    if TrimSpace(identifier) == "" then Success("") else ProjectIdFor(projects, config, identifier)
  }

  method OptionalProject(client: Client, config: Option<string>, identifier: string)
    returns (r: Result<string, string>, calls: seq<Call>)
    ensures r == ProjectFilter(client.projects, config, identifier)
    ensures TrimSpace(identifier) == "" ==> calls == []
  {
    if TrimSpace(identifier) == "" {
      return Success(""), [];
    }
    r, calls := ResolveProjectID(client, config, identifier);
  }

  /** The tag filter: the trimmed tag, or none when it is blank. */
  function TagFilter(tag: string): seq<string> {
    if TrimSpace(tag) != "" then [TrimSpace(tag)] else []
  }

  function TasksResult(client: Client, res: Result<seq<Task>, string>, limit: int): Result<Value, string> {
    match res
    case Failure(e) => Failure(e)
    case Success(ts) => Success(TasksValue(client, TruncateToLimit(ts, limit)))
  }

  // ----- task tools -----

  /** create_task: a description is required; the priority is normalized and the project resolved. */
  predicate CreateTaskAnswers(client: Client, config: Option<string>, args: map<string, Value>,
    r: Result<Value, string>, calls: seq<Call>)
  {
    && (TrimmedArg(args, "description") == "" ==> Refused("description is required", r, calls))
    && (TrimmedArg(args, "description") != "" ==>
        var priority := NormalizePriority(StringArg(args, "priority"));
        match ProjectIdFor(client.projects, config, StringArg(args, "project"))
        case Failure(e) => r == Failure(e)
        case Success(pid) =>
          && r == TaskResult(client, client.createTask(pid, TrimmedArg(args, "description"), "", priority))
          && |calls| > 0
          && calls[|calls| - 1] == Call("CreateTask", [Str(pid), Str(TrimmedArg(args, "description")), Str(""), Str(priority)]))
  }

  method CreateTaskTool(client: Client, config: Option<string>, args: map<string, Value>)
    returns (r: Result<Value, string>, calls: seq<Call>)
    ensures CreateTaskAnswers(client, config, args, r, calls)
  {
    var description := TrimmedArg(args, "description");
    if description == "" {
      return Failure("description is required"), [];
    }
    var priority := NormalizePriority(StringArg(args, "priority"));
    var resolved;
    resolved, calls := ResolveProjectID(client, config, StringArg(args, "project"));
    if resolved.Failure? {
      return Failure(resolved.error), calls;
    }
    var pid := resolved.value;
    calls := calls + [Call("CreateTask", [Str(pid), Str(description), Str(""), Str(priority)])];
    r := TaskResult(client, client.createTask(pid, description, "", priority));
  }

  /** list_tasks: optionally of one project, by status, cut to a positive limit. */
  predicate ListTasksAnswers(client: Client, config: Option<string>, args: map<string, Value>,
    r: Result<Value, string>, calls: seq<Call>)
  {
    match ProjectFilter(client.projects, config, StringArg(args, "project"))
    case Failure(e) => r == Failure(e)
    case Success(pid) =>
      r == TasksResult(client, client.listTasks(pid, TrimmedArg(args, "status")), ToInt(ArgOrNil(args, "limit")))
  }

  method ListTasksTool(client: Client, config: Option<string>, args: map<string, Value>)
    returns (r: Result<Value, string>, calls: seq<Call>)
    ensures ListTasksAnswers(client, config, args, r, calls)
  {
    var pid;
    pid, calls := OptionalProject(client, config, StringArg(args, "project"));
    if pid.Failure? {
      return Failure(pid.error), calls;
    }
    var status := TrimmedArg(args, "status");
    calls := calls + [Call("ListTasks", [Str(pid.value), Str(status)])];
    var tasks := client.listTasks(pid.value, status);
    if tasks.Failure? {
      return Failure(tasks.error), calls;
    }
    var limit := ToInt(ArgOrNil(args, "limit"));
    var ts := tasks.value;
    if limit > 0 && limit < |ts| {
      ts := ts[..limit];
    }
    r := Success(TasksValue(client, ts));
  }

  /** search_tasks: a query is required; optional project, status and tag; cut to a positive limit. */
  predicate SearchTasksAnswers(client: Client, config: Option<string>, args: map<string, Value>,
    r: Result<Value, string>, calls: seq<Call>)
  {
    && (TrimmedArg(args, "query") == "" ==> Refused("query is required", r, calls))
    && (TrimmedArg(args, "query") != "" ==>
        match ProjectFilter(client.projects, config, StringArg(args, "project"))
        case Failure(e) => r == Failure(e)
        case Success(pid) =>
          r == TasksResult(client,
            client.queryTasks(pid, TrimmedArg(args, "status"), TrimmedArg(args, "query"), TagFilter(StringArg(args, "tag"))),
            ToInt(ArgOrNil(args, "limit"))))
  }

  method SearchTasksTool(client: Client, config: Option<string>, args: map<string, Value>)
    returns (r: Result<Value, string>, calls: seq<Call>)
    ensures SearchTasksAnswers(client, config, args, r, calls)
  {
    var query := TrimmedArg(args, "query");
    if query == "" {
      return Failure("query is required"), [];
    }
    var limit := ToInt(ArgOrNil(args, "limit"));
    var pid;
    pid, calls := OptionalProject(client, config, StringArg(args, "project"));
    if pid.Failure? {
      return Failure(pid.error), calls;
    }
    var tags := TagFilter(StringArg(args, "tag"));
    var status := TrimmedArg(args, "status");
    calls := calls + [Call("ListTasksQuery", [Str(pid.value), Str(status), Str(query), Nil, StringList(tags)])];
    var tasks := client.queryTasks(pid.value, status, query, tags);
    if tasks.Failure? {
      return Failure(tasks.error), calls;
    }
    var ts := tasks.value;
    if limit > 0 && limit < |ts| {
      ts := ts[..limit];
    }
    r := Success(TasksValue(client, ts));
  }

  /** get_next_tasks: the most urgent TODO tasks, optionally of one project and tag. */
  predicate NextTasksAnswers(client: Client, config: Option<string>, args: map<string, Value>,
    r: Result<Value, string>, calls: seq<Call>)
  {
    match ProjectFilter(client.projects, config, StringArg(args, "project"))
    case Failure(e) => r == Failure(e)
    case Success(pid) =>
      match client.queryTasks(pid, "TODO", "", TagFilter(StringArg(args, "tag")))
      case Failure(e) => r == Failure(e)
      case Success(ts) => r == Success(TasksValue(client, NextTasks(ts, ToInt(ArgOrNil(args, "count")))))
  }

  method NextTasksTool(client: Client, config: Option<string>, args: map<string, Value>)
    returns (r: Result<Value, string>, calls: seq<Call>)
    ensures NextTasksAnswers(client, config, args, r, calls)
  {
    var count := ToInt(ArgOrNil(args, "count"));
    var pid;
    pid, calls := OptionalProject(client, config, StringArg(args, "project"));
    if pid.Failure? {
      return Failure(pid.error), calls;
    }
    var tags := TagFilter(StringArg(args, "tag"));
    calls := calls + [Call("ListTasksQuery", [Str(pid.value), Str("TODO"), Str(""), Nil, StringList(tags)])];
    var tasks := client.queryTasks(pid.value, "TODO", "", tags);
    if tasks.Failure? {
      return Failure(tasks.error), calls;
    }
    r := Success(TasksValue(client, NextTasks(tasks.value, count)));
  }

  /** get_task: the task the client reports for the trimmed id. */
  predicate GetTaskAnswers(client: Client, args: map<string, Value>,
    r: Result<Value, string>, calls: seq<Call>)
  {
    && (TrimmedArg(args, "taskId") == "" ==> Refused("taskId is required", r, calls))
    && (TrimmedArg(args, "taskId") != "" ==>
        calls == [GetTaskCall(TrimmedArg(args, "taskId"))] && r == TaskResult(client, client.getTask(TrimmedArg(args, "taskId"))))
  }

  method GetTaskTool(client: Client, args: map<string, Value>)
    returns (r: Result<Value, string>, calls: seq<Call>)
    ensures GetTaskAnswers(client, args, r, calls)
  {
    var id := TrimmedArg(args, "taskId");
    if id == "" {
      return Failure("taskId is required"), [];
    }
    calls := [GetTaskCall(id)];
    r := TaskResult(client, client.getTask(id));
  }

  /** update_task_status: both the id and the status are required. */
  predicate UpdateTaskStatusAnswers(client: Client, args: map<string, Value>,
    r: Result<Value, string>, calls: seq<Call>)
  {
    && (TrimmedArg(args, "taskId") == "" || TrimmedArg(args, "status") == "" ==>
        Refused("taskId and status are required", r, calls))
    && (TrimmedArg(args, "taskId") != "" && TrimmedArg(args, "status") != "" ==>
        calls == [Call("UpdateTask", [Str(TrimmedArg(args, "taskId")), Object(map["status" := Str(TrimmedArg(args, "status"))])])]
        && r == client.send(calls[0]))
  }

  method UpdateTaskStatusTool(client: Client, args: map<string, Value>)
    returns (r: Result<Value, string>, calls: seq<Call>)
    ensures UpdateTaskStatusAnswers(client, args, r, calls)
  {
    var id := TrimmedArg(args, "taskId");
    var status := TrimmedArg(args, "status");
    if id == "" || status == "" {
      return Failure("taskId and status are required"), [];
    }
    r, calls := Ask(client, Call("UpdateTask", [Str(id), Object(map["status" := Str(status)])]));
  }

  /** update_progress: a task id is required, then the progress must lie in 0..100. */
  predicate UpdateProgressAnswers(client: Client, args: map<string, Value>,
    r: Result<Value, string>, calls: seq<Call>)
  {
    && (TrimmedArg(args, "taskId") == "" ==> Refused("taskId is required", r, calls))
    && (TrimmedArg(args, "taskId") != "" && !(0 <= ToInt(ArgOrNil(args, "progress")) <= 100) ==>
        Refused("progress must be between 0 and 100", r, calls))
    && (TrimmedArg(args, "taskId") != "" && 0 <= ToInt(ArgOrNil(args, "progress")) <= 100 ==>
        calls == [Call("UpdateTask", [Str(TrimmedArg(args, "taskId")), Object(map["progress" := Int(ToInt(ArgOrNil(args, "progress")))])])]
        && r == client.send(calls[0]))
  }

  method UpdateProgressTool(client: Client, args: map<string, Value>)
    returns (r: Result<Value, string>, calls: seq<Call>)
    ensures UpdateProgressAnswers(client, args, r, calls)
  {
    var id := TrimmedArg(args, "taskId");
    var progress := ToInt(ArgOrNil(args, "progress"));
    if id == "" {
      return Failure("taskId is required"), [];
    }
    if progress < 0 || progress > 100 {
      return Failure("progress must be between 0 and 100"), [];
    }
    r, calls := Ask(client, Call("UpdateTask", [Str(id), Object(map["progress" := Int(progress)])]));
  }

  /** bulk_start_tasks and bulk_complete_tasks: every listed task moved to one status. */
  predicate BulkStatusAnswers(client: Client, args: map<string, Value>, status: string,
    r: Result<Value, string>, calls: seq<Call>)
  {
    match TaskIdListFor(client.getTask, ArgOrNil(args, "taskIds"))
    case Failure(e) => r == Failure(e)
    case Success(ids) =>
      && |calls| > 0
      && calls[|calls| - 1] == Call("BulkUpdateTasks", [StringList(ids), Str(status)])
      && r == Acknowledged(client.send(calls[|calls| - 1]), Object(map["ok" := Bool(true), "count" := Int(|ids|)]))
  }

  method BulkStatusTool(client: Client, args: map<string, Value>, status: string)
    returns (r: Result<Value, string>, calls: seq<Call>)
    ensures BulkStatusAnswers(client, args, status, r, calls)
  {
    var ids;
    ids, calls := ResolveTaskIDList(client, ArgOrNil(args, "taskIds"));
    if ids.Failure? {
      return Failure(ids.error), calls;
    }
    calls := calls + [Call("BulkUpdateTasks", [StringList(ids.value), Str(status)])];
    r := Acknowledged(client.send(calls[|calls| - 1]), Object(map["ok" := Bool(true), "count" := Int(|ids.value|)]));
  }

  /** The count a bulk tool reports is the number of non-blank entries of its list. */
  lemma BulkCountIsEntryCount(getTask: string -> Result<Task, string>, v: Value)
    requires TaskIdListFor(getTask, v).Success?
    ensures v.List? && |TaskIdListFor(getTask, v).value| == NonBlankEntries(v.items) > 0
  {
    TaskIdsOneEach(getTask, v.items);
  }

  // ----- project tools -----

  /** list_projects: the projects the client lists. */
  predicate ListProjectsAnswers(client: Client, r: Result<Value, string>, calls: seq<Call>)
  {
    && (calls == [ListProjectsCall])
    && (r.Failure? <==> client.projects.Failure?)
    && (client.projects.Success? ==> r.value == ProjectsValue(client, client.projects.value))
  }

  method ListProjectsTool(client: Client) returns (r: Result<Value, string>, calls: seq<Call>)
    ensures ListProjectsAnswers(client, r, calls)
  {
    calls := [ListProjectsCall];
    if client.projects.Failure? {
      return Failure(client.projects.error), calls;
    }
    r := Success(ProjectsValue(client, client.projects.value));
  }

  /** set_active_project: the first project named so, or whose id begins so, is activated
    * and recorded as the active project of the configuration. */
  predicate SetActiveProjectAnswers(client: Client, args: map<string, Value>,
    r: Result<Value, string>, calls: seq<Call>, saved: Option<string>)
  {
    && (TrimmedArg(args, "projectName") == "" ==> Refused("projectName is required", r, calls) && saved == None)
    && (TrimmedArg(args, "projectName") != "" ==>
        match client.projects
        case Failure(e) => r == Failure(e) && saved == None
        case Success(ps) =>
          match FirstDesignated(ps, TrimmedArg(args, "projectName"))
          case None => r == Failure("project not found") && saved == None
          case Some(k) =>
            match client.send(Call("SetProjectActive", [Str(ps[k].id)]))
            case Failure(e) => r == Failure(e) && saved == None
            case Success(_) =>
              r == Success(Object(map["ok" := Bool(true), "project_id" := Str(ps[k].id), "name" := Str(ps[k].name)]))
              && saved == Some(ps[k].id))
  }

  method SetActiveProjectTool(client: Client, args: map<string, Value>)
    returns (r: Result<Value, string>, calls: seq<Call>, saved: Option<string>)
    ensures SetActiveProjectAnswers(client, args, r, calls, saved)
  {
    saved := None;
    var name := TrimmedArg(args, "projectName");
    if name == "" {
      return Failure("projectName is required"), [], saved;
    }
    calls := [ListProjectsCall];
    if client.projects.Failure? {
      return Failure(client.projects.error), calls, saved;
    }
    var ps := client.projects.value;
    var found := FindDesignated(ps, name);
    if found.None? {
      return Failure("project not found"), calls, saved;
    }
    var k := found.value;
    var activate := Call("SetProjectActive", [Str(ps[k].id)]);
    calls := calls + [activate];
    var res := client.send(activate);
    if res.Failure? {
      return Failure(res.error), calls, saved;
    }
    saved := Some(ps[k].id);
    r := Success(Object(map["ok" := Bool(true), "project_id" := Str(ps[k].id), "name" := Str(ps[k].name)]));
  }

  /** After set_active_project succeeds, a blank project argument resolves to the project it
    * activated, and so does the name it was given, unless that name is itself a UUID. */
  lemma ActivatedProjectIsResolved(ps: seq<Project>, name: string, k: nat, config: Option<string>)
    requires TrimSpace(name) != "" && FirstDesignated(ps, TrimSpace(name)) == Some(k)
    ensures ps[k].id != "" ==> ProjectIdFor(Success(ps), Some(ps[k].id), "") == Success(ps[k].id)
    ensures !GoUuid.IsUuid(TrimSpace(name)) ==> ProjectIdFor(Success(ps), config, name) == Success(ps[k].id)
  {
    assert TrimSpace("") == "";
  }

  // ----- memory tools -----

  /** add_memory: content is required; the memory goes to the resolved project. */
  predicate AddMemoryAnswers(client: Client, config: Option<string>, args: map<string, Value>,
    r: Result<Value, string>, calls: seq<Call>)
  {
    && (TrimmedArg(args, "content") == "" ==> Refused("content is required", r, calls))
    && (TrimmedArg(args, "content") != "" ==>
        match ProjectIdFor(client.projects, config, StringArg(args, "project"))
        case Failure(e) => r == Failure(e)
        case Success(pid) =>
          |calls| > 0 && calls[|calls| - 1] == Call("CreateMemory", [Str(pid), Str(TrimmedArg(args, "content"))])
          && r == client.send(calls[|calls| - 1]))
  }

  method AddMemoryTool(client: Client, config: Option<string>, args: map<string, Value>)
    returns (r: Result<Value, string>, calls: seq<Call>)
    ensures AddMemoryAnswers(client, config, args, r, calls)
  {
    var content := TrimmedArg(args, "content");
    if content == "" {
      return Failure("content is required"), [];
    }
    var pid;
    pid, calls := ResolveProjectID(client, config, StringArg(args, "project"));
    if pid.Failure? {
      return Failure(pid.error), calls;
    }
    calls := calls + [Call("CreateMemory", [Str(pid.value), Str(content)])];
    r := client.send(calls[|calls| - 1]);
  }

  /** The memories list_memories keeps: all of them for a blank term, else those mentioning it. */
  function MemoryFilter(ms: seq<Memory>, term: string): seq<Memory> {
    if TrimSpace(term) == "" then ms else FilterByTerm(ms, TrimSpace(term))
  }

  /** list_memories: optionally of one project, filtered in place by a term, cut to a positive limit. */
  predicate ListMemoriesAnswers(client: Client, config: Option<string>, args: map<string, Value>,
    r: Result<Value, string>, calls: seq<Call>)
  {
    match ProjectFilter(client.projects, config, StringArg(args, "project"))
    case Failure(e) => r == Failure(e)
    case Success(pid) =>
      match client.memories(pid, "")
      case Failure(e) => r == Failure(e)
      case Success(ms) =>
        r == Success(MemoriesValue(client, TruncateToLimit(MemoryFilter(ms, StringArg(args, "term")), ToInt(ArgOrNil(args, "limit")))))
  }

  method ListMemoriesTool(client: Client, config: Option<string>, args: map<string, Value>)
    returns (r: Result<Value, string>, calls: seq<Call>)
    ensures ListMemoriesAnswers(client, config, args, r, calls)
  {
    var pid;
    pid, calls := OptionalProject(client, config, StringArg(args, "project"));
    if pid.Failure? {
      return Failure(pid.error), calls;
    }
    calls := calls + [Call("ListMemories", [Str(pid.value), Str("")])];
    var listed := client.memories(pid.value, "");
    if listed.Failure? {
      return Failure(listed.error), calls;
    }
    var ms := listed.value;
    var term := TrimSpace(StringArg(args, "term"));
    if term != "" {
      var a := new Memory[|ms|](i requires 0 <= i < |ms| => ms[i]);
      assert a[..] == ms;
      var n := FilterInPlace(a, term);
      ms := a[..n];
    }
    var limit := ToInt(ArgOrNil(args, "limit"));
    if limit > 0 && limit < |ms| {
      ms := ms[..limit];
    }
    r := Success(MemoriesValue(client, ms));
  }

  /** create_memory_task_link: the link the client returns, decoded, or {"ok": true} when its
    * answer is not JSON. */
  predicate MemoryLinkAnswers(client: Client, args: map<string, Value>,
    r: Result<Value, string>, calls: seq<Call>)
  {
    && (TrimmedArg(args, "taskId") == "" || TrimmedArg(args, "memoryId") == "" ==>
        Refused("taskId and memoryId are required", r, calls))
    && (TrimmedArg(args, "taskId") != "" && TrimmedArg(args, "memoryId") != "" ==>
        calls == [Call("CreateMemoryTaskLink", [Str(TrimmedArg(args, "taskId")), Str(TrimmedArg(args, "memoryId")), Str(TrimmedArg(args, "relationType"))])]
        && match client.fetch(calls[0])
          case Failure(e) => r == Failure(e)
          case Success(None) => r == Success(Object(map["ok" := Bool(true)]))
          case Success(Some(j)) => r == Success(Unmarshal(j)))
  }

  method MemoryLinkTool(client: Client, args: map<string, Value>)
    returns (r: Result<Value, string>, calls: seq<Call>)
    ensures MemoryLinkAnswers(client, args, r, calls)
  {
    var taskId := TrimmedArg(args, "taskId");
    var memoryId := TrimmedArg(args, "memoryId");
    var relation := TrimmedArg(args, "relationType");
    if taskId == "" || memoryId == "" {
      return Failure("taskId and memoryId are required"), [];
    }
    calls := [Call("CreateMemoryTaskLink", [Str(taskId), Str(memoryId), Str(relation)])];
    var res := client.fetch(calls[0]);
    match res
    case Failure(e) => r := Failure(e);
    case Success(None) => r := Success(Object(map["ok" := Bool(true)]));
    case Success(Some(j)) => r := Success(Unmarshal(j));
  }

  // ----- reports and agent tools -----

  /** get_stats: the statistics report, decoded. */
  predicate StatsAnswers(client: Client, r: Result<Value, string>, calls: seq<Call>)
  {
    && (calls == [Call("Request", [Str("GET"), Str("/reports/stats")])])
    && (r == Decode(client.fetch(calls[0]), "invalid stats response"))
  }

  method StatsTool(client: Client) returns (r: Result<Value, string>, calls: seq<Call>)
    ensures StatsAnswers(client, r, calls)
  {
    calls := [Call("Request", [Str("GET"), Str("/reports/stats")])];
    r := Decode(client.fetch(calls[0]), "invalid stats response");
  }

  /** The endpoint get_history requests: 7 days when none are given, and no days parameter
    * at all for a negative count. */
  function HistoryEndpoint(days: int): (e: string)
    ensures days >= 0 ==> e == "/reports/history?days=" + IntToString(if days == 0 then 7 else days)
    ensures days < 0 ==> e == "/reports/history"
  {
    var d := if days == 0 then 7 else days;
    if d > 0 then "/reports/history?days=" + IntToString(d) else "/reports/history"
  }

  predicate HistoryAnswers(client: Client, args: map<string, Value>,
    r: Result<Value, string>, calls: seq<Call>)
  {
    && (calls == [Call("Request", [Str("GET"), Str(HistoryEndpoint(ToInt(ArgOrNil(args, "days"))))])])
    && (r == Decode(client.fetch(calls[0]), "invalid history response"))
  }

  method HistoryTool(client: Client, args: map<string, Value>)
    returns (r: Result<Value, string>, calls: seq<Call>)
    ensures HistoryAnswers(client, args, r, calls)
  {
    var days := ToInt(ArgOrNil(args, "days"));
    if days == 0 {
      days := 7;
    }
    var endpoint := "/reports/history";
    if days > 0 {
      endpoint := "/reports/history?days=" + IntToString(days);
    }
    calls := [Call("Request", [Str("GET"), Str(endpoint)])];
    r := Decode(client.fetch(calls[0]), "invalid history response");
  }

  /** The endpoint timeline requests: always a days parameter, and the project when it resolves. */
  function TimelineEndpoint(projects: Result<seq<Project>, string>, config: Option<string>, args: map<string, Value>): string {
    var days := ToInt(ArgOrNil(args, "days"));
    var d := if days == 0 then 7 else days;
    var base := "/reports/history?days=" + IntToString(d);
    if TrimSpace(StringArg(args, "project")) == "" then base
    else match ProjectIdFor(projects, config, StringArg(args, "project"))
      case Success(pid) => base + "&project_id=" + pid
      case Failure(_) => base
  }

  /** timeline: a project that does not resolve is left out of the request rather than refused. */
  predicate TimelineAnswers(client: Client, config: Option<string>, args: map<string, Value>,
    r: Result<Value, string>, calls: seq<Call>)
  {
    && (|calls| > 0)
    && (calls[|calls| - 1] == Call("Request", [Str("GET"), Str(TimelineEndpoint(client.projects, config, args))]))
    && (r == Decode(client.fetch(calls[|calls| - 1]), "invalid timeline response"))
  }

  method TimelineTool(client: Client, config: Option<string>, args: map<string, Value>)
    returns (r: Result<Value, string>, calls: seq<Call>)
    ensures TimelineAnswers(client, config, args, r, calls)
  {
    var days := ToInt(ArgOrNil(args, "days"));
    if days == 0 {
      days := 7;
    }
    var endpoint := "/reports/history?days=" + IntToString(days);
    calls := [];
    if TrimSpace(StringArg(args, "project")) != "" {
      var pid;
      pid, calls := ResolveProjectID(client, config, StringArg(args, "project"));
      if pid.Success? {
        endpoint := "/reports/history?days=" + IntToString(days) + "&project_id=" + pid.value;
      }
    }
    calls := calls + [Call("Request", [Str("GET"), Str(endpoint)])];
    r := Decode(client.fetch(calls[|calls| - 1]), "invalid timeline response");
  }

  /** A project that does not resolve leaves the timeline request exactly as if no project
    * had been given. */
  lemma TimelineIgnoresUnresolved(projects: Result<seq<Project>, string>, config: Option<string>, args: map<string, Value>)
    requires ProjectIdFor(projects, config, StringArg(args, "project")).Failure?
    ensures TimelineEndpoint(projects, config, args) == TimelineEndpoint(projects, config, args - {"project"})
  {
    assert StringArg(args - {"project"}, "project") == "";
    assert TrimSpace("") == "";
    assert ArgOrNil(args - {"project"}, "days") == ArgOrNil(args, "days");
  }

  /** The title of a duplicate: the new description if one is given (untrimmed), else the
    * original title marked as a copy. */
  function DuplicateTitle(title: string, newDescription: string): (r: string)
    ensures r != ""
    ensures newDescription != "" ==> r == newDescription
    ensures newDescription == "" ==> |r| > |title| && r[..|title|] == title
  {
    if newDescription != "" then newDescription else title + " (kopya)"
  }

  function AnnotationCopies(taskId: string, notes: seq<string>): (cs: seq<Call>)
    ensures |cs| == |notes|
    ensures forall i :: 0 <= i < |notes| ==> cs[i] == Call("CreateAnnotation", [Str(taskId), Str(notes[i])])
  {
    seq(|notes|, i requires 0 <= i < |notes| => Call("CreateAnnotation", [Str(taskId), Str(notes[i])]))
  }

  /** The annotation loop of duplicate_task; failures are ignored. */
  method CopyAnnotations(taskId: string, notes: seq<string>) returns (calls: seq<Call>)
    ensures calls == AnnotationCopies(taskId, notes)
  {
    calls := [];
    var i := 0;
    while i < |notes|
      invariant 0 <= i <= |notes|
      invariant calls == AnnotationCopies(taskId, notes[..i])
    {
      calls := calls + [Call("CreateAnnotation", [Str(taskId), Str(notes[i])])];
      i := i + 1;
    }
    assert notes[..i] == notes;
  }

  /** duplicate_task: a copy of the task in the same project, with its notes copied. */
  predicate DuplicateTaskAnswers(client: Client, args: map<string, Value>,
    r: Result<Value, string>, calls: seq<Call>)
  {
    && (TrimmedArg(args, "taskId") == "" ==> Refused("taskId is required", r, calls))
    && (TrimmedArg(args, "taskId") != "" ==>
        match client.getTask(TrimmedArg(args, "taskId"))
        case Failure(e) => r == Failure(e) && calls == [GetTaskCall(TrimmedArg(args, "taskId"))]
        case Success(orig) =>
          var title := DuplicateTitle(orig.title, StringArg(args, "newDescription"));
          var create := Call("CreateTask", [Str(orig.projectId), Str(title), Str(orig.description), Str(orig.priority)]);
          match client.createTask(orig.projectId, title, orig.description, orig.priority)
          case Failure(e) => r == Failure(e) && calls == [GetTaskCall(TrimmedArg(args, "taskId")), create]
          case Success(copy) =>
            && r == Success(Object(map["ok" := Bool(true), "original_id" := Str(orig.id), "new_id" := Str(copy.id), "title" := Str(copy.title)]))
            && calls == [GetTaskCall(TrimmedArg(args, "taskId")), create] + AnnotationCopies(copy.id, orig.annotations))
  }

  method DuplicateTaskTool(client: Client, args: map<string, Value>)
    returns (r: Result<Value, string>, calls: seq<Call>)
    ensures DuplicateTaskAnswers(client, args, r, calls)
  {
    var id := TrimmedArg(args, "taskId");
    if id == "" {
      return Failure("taskId is required"), [];
    }
    var newDescription := StringArg(args, "newDescription");
    calls := [GetTaskCall(id)];
    var original := client.getTask(id);
    if original.Failure? {
      return Failure(original.error), calls;
    }
    var orig := original.value;
    var title := orig.title;
    if newDescription != "" {
      title := newDescription;
    } else {
      title := title + " (kopya)";
    }
    calls := calls + [Call("CreateTask", [Str(orig.projectId), Str(title), Str(orig.description), Str(orig.priority)])];
    var created := client.createTask(orig.projectId, title, orig.description, orig.priority);
    if created.Failure? {
      return Failure(created.error), calls;
    }
    var copy := created.value;
    var copies := CopyAnnotations(copy.id, orig.annotations);
    calls := calls + copies;
    r := Success(Object(map["ok" := Bool(true), "original_id" := Str(orig.id), "new_id" := Str(copy.id), "title" := Str(copy.title)]));
  }

  function MoveCall(id: string, pid: string): Call {
    Call("UpdateTask", [Str(id), Object(map["project_id" := Str(pid)])])
  }

  /** How many of the moves the client accepts: never more than were asked for, and all of
    * them exactly when the client accepts every one. */
  function MovedCount(send: Call -> Result<Value, string>, ids: seq<string>, pid: string): (n: nat)
    ensures n <= |ids|
    ensures n == |ids| <==> forall i :: 0 <= i < |ids| ==> send(MoveCall(ids[i], pid)).Success?
  {
    if ids == [] then 0
    else
      var rest := MovedCount(send, ids[..|ids| - 1], pid);
      assert forall i :: 0 <= i < |ids| - 1 ==> ids[..|ids| - 1][i] == ids[i];
      rest + (if send(MoveCall(ids[|ids| - 1], pid)).Success? then 1 else 0)
  }

  /** One more move counts when the client accepts it. */
  lemma MovedCountStep(send: Call -> Result<Value, string>, ids: seq<string>, pid: string, i: nat)
    requires i < |ids|
    ensures MovedCount(send, ids[..i + 1], pid) ==
      MovedCount(send, ids[..i], pid) + (if send(MoveCall(ids[i], pid)).Success? then 1 else 0)
  {
    assert ids[..i + 1][..i] == ids[..i];
  }

  /** `calls` are the updates for the first `n` tasks, in order. */
  predicate MovesSent(calls: seq<Call>, ids: seq<string>, pid: string, n: nat) {
    n <= |ids| && |calls| == n && forall k :: 0 <= k < n ==> calls[k] == MoveCall(ids[k], pid)
  }

  lemma MovesSentStep(calls: seq<Call>, ids: seq<string>, pid: string, n: nat)
    requires MovesSent(calls, ids, pid, n) && n < |ids|
    ensures MovesSent(calls + [MoveCall(ids[n], pid)], ids, pid, n + 1)
  {
  }

  /** The move loop of move_tasks_to_project: one update per task, counting those accepted. */
  method MoveEach(client: Client, ids: seq<string>, pid: string) returns (moved: nat, calls: seq<Call>)
    ensures moved == MovedCount(client.send, ids, pid)
    ensures |calls| == |ids| && forall i :: 0 <= i < |ids| ==> calls[i] == MoveCall(ids[i], pid)
  {
    moved, calls := 0, [];
    var i := 0;
    while i < |ids|
      invariant 0 <= i <= |ids|
      invariant moved == MovedCount(client.send, ids[..i], pid)
      invariant MovesSent(calls, ids, pid, i)
    {
      MovesSentStep(calls, ids, pid, i);
      MovedCountStep(client.send, ids, pid, i);
      calls := calls + [MoveCall(ids[i], pid)];
      if client.send(MoveCall(ids[i], pid)).Success? {
        moved := moved + 1;
      }
      i := i + 1;
    }
    assert ids[..i] == ids;
  }

  /** move_tasks_to_project: every listed task sent to the target project; the result reports
    * how many moved out of how many. */
  predicate MoveTasksAnswers(client: Client, config: Option<string>, args: map<string, Value>,
    r: Result<Value, string>, calls: seq<Call>)
  {
    && (TrimmedArg(args, "targetProject") == "" ==> Refused("targetProject is required", r, calls))
    && (TrimmedArg(args, "targetProject") != "" ==>
        match TaskIdListFor(client.getTask, ArgOrNil(args, "taskIds"))
        case Failure(e) => r == Failure(e)
        case Success(ids) =>
          match ProjectIdFor(client.projects, config, TrimmedArg(args, "targetProject"))
          case Failure(e) => r == Failure(e)
          case Success(pid) =>
            r == Success(Object(map["ok" := Bool(true), "moved" := Int(MovedCount(client.send, ids, pid)),
                                    "total" := Int(|ids|), "project_id" := Str(pid)])))
  }

  method MoveTasksTool(client: Client, config: Option<string>, args: map<string, Value>)
    returns (r: Result<Value, string>, calls: seq<Call>)
    ensures MoveTasksAnswers(client, config, args, r, calls)
  {
    var target := TrimmedArg(args, "targetProject");
    if target == "" {
      return Failure("targetProject is required"), [];
    }
    var ids;
    ids, calls := ResolveTaskIDList(client, ArgOrNil(args, "taskIds"));
    if ids.Failure? {
      return Failure(ids.error), calls;
    }
    var pid, more := ResolveProjectID(client, config, target);
    calls := calls + more;
    if pid.Failure? {
      return Failure(pid.error), calls;
    }
    var moved, moves := MoveEach(client, ids.value, pid.value);
    calls := calls + moves;
    r := Success(Object(map["ok" := Bool(true), "moved" := Int(moved), "total" := Int(|ids.value|), "project_id" := Str(pid.value)]));
  }

  /** The limit recall applies: 10 when none is given. */
  function RecallLimit(args: map<string, Value>): int {
    var limit := ToInt(ArgOrNil(args, "limit"));
    if limit == 0 then 10 else limit
  }

  /** The recall result; `results` is a nil slice, encoded null, when nothing matched. */
  function RecallValue(client: Client, term: string, found: seq<Memory>): Value {
    Object(map[
      "term" := Str(term),
      "count" := Int(|found|),
      "results" := if found == [] then Nil else List(seq(|found|, i requires 0 <= i < |found| => RecallEntry(client, found[i])))])
  }

  /** recall: the memories of every project that mention the term, up to the limit. */
  predicate RecallAnswers(client: Client, args: map<string, Value>,
    r: Result<Value, string>, calls: seq<Call>)
  {
    && (TrimmedArg(args, "term") == "" ==> Refused("term is required", r, calls))
    && (TrimmedArg(args, "term") != "" ==>
        calls == [Call("ListMemories", [Str(""), Str("")])]
        && match client.memories("", "")
          case Failure(e) => r == Failure(e)
          case Success(ms) =>
            r == Success(RecallValue(client, TrimmedArg(args, "term"), RecallMatches(ms, TrimmedArg(args, "term"), RecallLimit(args)))))
  }

  method RecallTool(client: Client, args: map<string, Value>)
    returns (r: Result<Value, string>, calls: seq<Call>)
    ensures RecallAnswers(client, args, r, calls)
  {
    var term := TrimmedArg(args, "term");
    if term == "" {
      return Failure("term is required"), [];
    }
    var limit := ToInt(ArgOrNil(args, "limit"));
    if limit == 0 {
      limit := 10;
    }
    calls := [Call("ListMemories", [Str(""), Str("")])];
    var listed := client.memories("", "");
    if listed.Failure? {
      return Failure(listed.error), calls;
    }
    var found := CollectRecall(listed.value, term, limit);
    r := Success(RecallValue(client, term, found));
  }

  /** The report format of export_project: markdown unless another is named. */
  function ExportFormat(args: map<string, Value>): string {
    if StringArg(args, "format") == "" then "markdown" else StringArg(args, "format")
  }

  /** What export_project reports: the project is resolved, looked up again by its id, and its
    * tasks rendered as markdown. */
  function ExportResult(client: Client, config: Option<string>, args: map<string, Value>): Result<Value, string> {
    match ProjectIdFor(client.projects, config, StringArg(args, "project"))
    case Failure(e) => Failure(e)
    case Success(pid) =>
      match client.projects
      case Failure(e) => Failure(e)
      case Success(ps) =>
        match FirstWithId(ps, pid)
        case None => Failure("project not found")
        case Some(k) =>
          match client.listTasks(pid, "")
          case Failure(e) => Failure(e)
          case Success(ts) =>
            Success(Object(map[
              "project" := Str(ps[k].name),
              "format" := Str(ExportFormat(args)),
              "markdown" := Str(ExportMarkdown(ps[k].name, ps[k].description, ts))]))
  }

  /** The loop of export_project looking for the project with the resolved id. */
  method FindProject(ps: seq<Project>, id: string) returns (found: Option<nat>)
    ensures found == FirstWithId(ps, id)
  {
    found := None;
    var i := 0;
    while i < |ps|
      invariant 0 <= i <= |ps|
      invariant forall j :: 0 <= j < i ==> ps[j].id != id
    {
      if ps[i].id == id {
        assert FirstWithId(ps, id) == Some(i);
        found := Some(i);
        return;
      }
      i := i + 1;
    }
  }

  predicate ExportProjectAnswers(client: Client, config: Option<string>, args: map<string, Value>,
    r: Result<Value, string>, calls: seq<Call>)
  {
    r == ExportResult(client, config, args)
  }

  method ExportProjectTool(client: Client, config: Option<string>, args: map<string, Value>)
    returns (r: Result<Value, string>, calls: seq<Call>)
    ensures ExportProjectAnswers(client, config, args, r, calls)
  {
    var format := StringArg(args, "format");
    if format == "" {
      format := "markdown";
    }
    var pid;
    pid, calls := ResolveProjectID(client, config, StringArg(args, "project"));
    if pid.Failure? {
      return Failure(pid.error), calls;
    }
    calls := calls + [ListProjectsCall];
    if client.projects.Failure? {
      return Failure(client.projects.error), calls;
    }
    var ps := client.projects.value;
    var found := FindProject(ps, pid.value);
    if found.None? {
      return Failure("project not found"), calls;
    }
    var project := ps[found.value];
    calls := calls + [Call("ListTasks", [Str(pid.value), Str("")])];
    var tasks := client.listTasks(pid.value, "");
    if tasks.Failure? {
      return Failure(tasks.error), calls;
    }
    var md := BuildExport(project.name, project.description, tasks.value);
    r := Success(Object(map["project" := Str(project.name), "format" := Str(format), "markdown" := Str(md)]));
  }

  /** A UUID is passed through resolution as written, but export_project then compares it with
    * the canonical (lower-case) ids the client lists: a project named by its id in upper case
    * is not found. */
  lemma ExportMissesNonCanonicalId(client: Client, config: Option<string>, args: map<string, Value>)
    requires client.projects.Success?
    requires forall p :: p in client.projects.value ==> GoUuid.IsCanonical(p.id)
    requires GoUuid.IsUuid(TrimSpace(StringArg(args, "project")))
    requires !GoUuid.IsCanonical(TrimSpace(StringArg(args, "project")))
    ensures ExportResult(client, config, args) == Failure("project not found")
  {
    var ps := client.projects.value;
    var pid := TrimSpace(StringArg(args, "project"));
    assert ProjectIdFor(client.projects, config, StringArg(args, "project")) == Success(pid);
    forall j | 0 <= j < |ps|
      ensures ps[j].id != pid
    {
      assert ps[j] in client.projects.value;
    }
  }

  /** The counts in an export report add up to its total. */
  lemma ExportCountsAddUp(ts: seq<Task>)
    ensures CountStatus(ts, "COMPLETED") + CountStatus(ts, "IN_PROGRESS") + CountPending(ts) == |ts|
  {
    StatusCountsPartition(ts);
  }

  // ----- context tools -----

  /** list_context_packs: the filters trimmed, the limit passed on, always from offset 0. */
  predicate ListContextPacksAnswers(client: Client, args: map<string, Value>,
    r: Result<Value, string>, calls: seq<Call>)
  {
    && (calls == [Call("ListContextPacks", [Str(TrimmedArg(args, "type")), Str(TrimmedArg(args, "status")),
        Str(TrimmedArg(args, "query")), Int(ToInt(ArgOrNil(args, "limit"))), Int(0)])])
    && (r == client.send(calls[0]))
  }

  method ListContextPacksTool(client: Client, args: map<string, Value>)
    returns (r: Result<Value, string>, calls: seq<Call>)
    ensures ListContextPacksAnswers(client, args, r, calls)
  {
    r, calls := Ask(client, Call("ListContextPacks", [Str(TrimmedArg(args, "type")), Str(TrimmedArg(args, "status")),
      Str(TrimmedArg(args, "query")), Int(ToInt(ArgOrNil(args, "limit"))), Int(0)]));
  }

  /** The type a new context pack gets: "custom" when none is given. */
  function PackType(args: map<string, Value>): string {
    if TrimmedArg(args, "type") == "" then "custom" else TrimmedArg(args, "type")
  }

  /** The tags a new context pack gets: the trimmed strings of an array argument, else none. */
  function PackTags(args: map<string, Value>): seq<string> {
    if "tags" in args && args["tags"].List? then StringItems(args["tags"].items) else []
  }

  /** create_context_pack: a name is required; the type defaults to "custom". */
  predicate CreateContextPackAnswers(client: Client, args: map<string, Value>,
    r: Result<Value, string>, calls: seq<Call>)
  {
    && (TrimmedArg(args, "name") == "" ==> Refused("name is required", r, calls))
    && (TrimmedArg(args, "name") != "" ==>
        calls == [Call("CreateContextPack", [Str(TrimmedArg(args, "name")), Str(PackType(args)),
          Str(TrimmedArg(args, "description")), Str(TrimmedArg(args, "status")), StringsValue(PackTags(args))])]
        && r == client.send(calls[0]))
  }

  method CreateContextPackTool(client: Client, args: map<string, Value>)
    returns (r: Result<Value, string>, calls: seq<Call>)
    ensures CreateContextPackAnswers(client, args, r, calls)
  {
    var name := TrimmedArg(args, "name");
    var packType := TrimmedArg(args, "type");
    if name == "" {
      return Failure("name is required"), [];
    }
    if packType == "" {
      packType := "custom";
    }
    var tags := CollectTags(ArgOrNil(args, "tags"));
    r, calls := Ask(client, Call("CreateContextPack", [Str(name), Str(packType), Str(TrimmedArg(args, "description")),
      Str(TrimmedArg(args, "status")), StringsValue(tags)]));
  }

  /** activate_context_pack: the pack the client activates, wrapped as {"ok": true, "pack": …}. */
  predicate ActivateContextPackAnswers(client: Client, args: map<string, Value>,
    r: Result<Value, string>, calls: seq<Call>)
  {
    && (TrimmedArg(args, "packId") == "" ==> Refused("packId is required", r, calls))
    && (TrimmedArg(args, "packId") != "" ==>
        calls == [Call("SetActiveContextPack", [Str(TrimmedArg(args, "packId"))])]
        && match client.send(calls[0])
          case Failure(e) => r == Failure(e)
          case Success(pack) => r == Success(Object(map["ok" := Bool(true), "pack" := pack])))
  }

  method ActivateContextPackTool(client: Client, args: map<string, Value>)
    returns (r: Result<Value, string>, calls: seq<Call>)
    ensures ActivateContextPackAnswers(client, args, r, calls)
  {
    var id := TrimmedArg(args, "packId");
    if id == "" {
      return Failure("packId is required"), [];
    }
    calls := [Call("SetActiveContextPack", [Str(id)])];
    var res := client.send(calls[0]);
    if res.Failure? {
      return Failure(res.error), calls;
    }
    r := Success(Object(map["ok" := Bool(true), "pack" := res.value]));
  }

  // ----- decision tools -----

  /** list_decisions: status and area trimmed, the limit passed on. */
  predicate ListDecisionsAnswers(client: Client, args: map<string, Value>,
    r: Result<Value, string>, calls: seq<Call>)
  {
    && (calls == [Call("ListDecisions", [Str(TrimmedArg(args, "status")), Str(TrimmedArg(args, "area")), Int(ToInt(ArgOrNil(args, "limit")))])])
    && (r == client.send(calls[0]))
  }

  method ListDecisionsTool(client: Client, args: map<string, Value>)
    returns (r: Result<Value, string>, calls: seq<Call>)
    ensures ListDecisionsAnswers(client, args, r, calls)
  {
    r, calls := Ask(client, Call("ListDecisions", [Str(TrimmedArg(args, "status")), Str(TrimmedArg(args, "area")),
      Int(ToInt(ArgOrNil(args, "limit")))]));
  }

  /** create_decision: a title is required; the other five fields are trimmed and optional. */
  predicate CreateDecisionAnswers(client: Client, args: map<string, Value>,
    r: Result<Value, string>, calls: seq<Call>)
  {
    && (TrimmedArg(args, "title") == "" ==> Refused("title is required", r, calls))
    && (TrimmedArg(args, "title") != "" ==>
        calls == [Call("CreateDecision", [Str(TrimmedArg(args, "title")), Str(TrimmedArg(args, "description")),
          Str(TrimmedArg(args, "status")), Str(TrimmedArg(args, "area")), Str(TrimmedArg(args, "context")),
          Str(TrimmedArg(args, "consequences"))])]
        && r == client.send(calls[0]))
  }

  method CreateDecisionTool(client: Client, args: map<string, Value>)
    returns (r: Result<Value, string>, calls: seq<Call>)
    ensures CreateDecisionAnswers(client, args, r, calls)
  {
    var title := TrimmedArg(args, "title");
    if title == "" {
      return Failure("title is required"), [];
    }
    r, calls := Ask(client, Call("CreateDecision", [Str(title), Str(TrimmedArg(args, "description")),
      Str(TrimmedArg(args, "status")), Str(TrimmedArg(args, "area")), Str(TrimmedArg(args, "context")),
      Str(TrimmedArg(args, "consequences"))]));
  }

  // ----- the dispatcher -----

  /** What the task tool `t` answers and sends: the outcome of the handler its case calls. */
  predicate TaskToolAnswers(client: Client, config: Option<string>, t: TaskTool, args: map<string, Value>,
    r: Result<Value, string>, calls: seq<Call>)
  {
    match t
    case CreateTask => CreateTaskAnswers(client, config, args, r, calls)
    case ListTasks => ListTasksAnswers(client, config, args, r, calls)
    case SearchTasks => SearchTasksAnswers(client, config, args, r, calls)
    case GetNextTasks => NextTasksAnswers(client, config, args, r, calls)
    case GetTask => GetTaskAnswers(client, args, r, calls)
    case StartTask => AcknowledgeAnswers(client, args, "StartTask", r, calls)
    case CompleteTask => AcknowledgeAnswers(client, args, "CompleteTask", r, calls)
    case StopTask => AcknowledgeAnswers(client, args, "StopTask", r, calls)
    case GetActiveTask => AskAnswers(client, Call("GetActiveTask", []), r, calls)
    case DeleteTask => DeleteAnswers(client, args, "taskId", "taskId is required", "DeleteTask", r, calls)
    case UpdateTaskStatus => UpdateTaskStatusAnswers(client, args, r, calls)
    case UpdateProgress => UpdateProgressAnswers(client, args, r, calls)
    case AddTaskNote => PairAnswers(client, args, "taskId", "note", "taskId and note are required", "CreateAnnotation", r, calls)
    case CreateSubtask =>
      PairAnswers(client, args, "parentTaskId", "description", "parentTaskId and description are required", "CreateSubtask", r, calls)
    case BulkStartTasks => BulkStatusAnswers(client, args, "IN_PROGRESS", r, calls)
    case BulkCompleteTasks => BulkStatusAnswers(client, args, "COMPLETED", r, calls)
  }

  /** What the project tool `t` answers, sends and saves; only set_active_project saves. */
  predicate ProjectToolAnswers(client: Client, t: ProjectTool, args: map<string, Value>,
    r: Result<Value, string>, calls: seq<Call>, saved: Option<string>)
  {
    match t
    case ListProjects => ListProjectsAnswers(client, r, calls) && saved == None
    case CreateProject => CreateNamedAnswers(client, args, "CreateProject", r, calls) && saved == None
    case SetActiveProject => SetActiveProjectAnswers(client, args, r, calls, saved)
    case GetProject => LookupAnswers(client, args, "projectId", "projectId is required", "GetProject", r, calls) && saved == None
    case UpdateProject =>
      UpdateAnswers(client, args, "projectId", "projectId is required", "UpdateProject", {"name"}, {"description"}, false, r, calls)
      && saved == None
    case DeleteProject => DeleteAnswers(client, args, "projectId", "projectId is required", "DeleteProject", r, calls) && saved == None
  }

  predicate MemoryToolAnswers(client: Client, config: Option<string>, t: MemoryTool, args: map<string, Value>,
    r: Result<Value, string>, calls: seq<Call>)
  {
    match t
    case AddMemory => AddMemoryAnswers(client, config, args, r, calls)
    case ListMemories => ListMemoriesAnswers(client, config, args, r, calls)
    case GetMemory => LookupAnswers(client, args, "memoryId", "memoryId is required", "GetMemory", r, calls)
    case UpdateMemory =>
      UpdateAnswers(client, args, "memoryId", "memoryId is required", "UpdateMemory", {"content"}, {}, true, r, calls)
    case DeleteMemory => DeleteAnswers(client, args, "memoryId", "memoryId is required", "DeleteMemory", r, calls)
    case GetTaskMemories => LookupAnswers(client, args, "taskId", "taskId is required", "ListTaskMemories", r, calls)
    case MemoryTasks => LookupAnswers(client, args, "memoryId", "memoryId is required", "ListMemoryTasks", r, calls)
    case CreateMemoryTaskLink => MemoryLinkAnswers(client, args, r, calls)
  }

  predicate ReportToolAnswers(client: Client, config: Option<string>, t: ReportTool, args: map<string, Value>,
    r: Result<Value, string>, calls: seq<Call>)
  {
    match t
    case GetStats => StatsAnswers(client, r, calls)
    case GetHistory => HistoryAnswers(client, args, r, calls)
    case AnalyzeTaskRisks => LookupAnswers(client, args, "taskId", "taskId is required", "AIRisks", r, calls)
    case AnalyzeTaskDependencies => LookupAnswers(client, args, "taskId", "taskId is required", "AIDependencies", r, calls)
    case DuplicateTask => DuplicateTaskAnswers(client, args, r, calls)
    case MoveTasksToProject => MoveTasksAnswers(client, config, args, r, calls)
    case Timeline => TimelineAnswers(client, config, args, r, calls)
    case Recall => RecallAnswers(client, args, r, calls)
    case ExportProject => ExportProjectAnswers(client, config, args, r, calls)
  }

  predicate ContextToolAnswers(client: Client, t: ContextTool, args: map<string, Value>,
    r: Result<Value, string>, calls: seq<Call>)
  {
    match t
    case ListContexts => AskAnswers(client, Call("ListContexts", []), r, calls)
    case CreateContext => CreateNamedAnswers(client, args, "CreateContext", r, calls)
    case SetActiveContext => LookupAnswers(client, args, "name", "name is required", "UseContext", r, calls)
    case ListContextPacks => ListContextPacksAnswers(client, args, r, calls)
    case GetContextPack => LookupAnswers(client, args, "packId", "packId is required", "GetContextPack", r, calls)
    case CreateContextPack => CreateContextPackAnswers(client, args, r, calls)
    case UpdateContextPack =>
      UpdateAnswers(client, args, "packId", "packId is required", "UpdateContextPack",
        {"name", "type", "status"}, {"description"}, true, r, calls)
    case DeleteContextPack => DeleteAnswers(client, args, "packId", "packId is required", "DeleteContextPack", r, calls)
    case ActivateContextPack => ActivateContextPackAnswers(client, args, r, calls)
    case GetActiveContextPack => AskAnswers(client, Call("GetActiveContextPack", []), r, calls)
  }

  predicate OrganizationToolAnswers(client: Client, t: OrganizationTool, args: map<string, Value>,
    r: Result<Value, string>, calls: seq<Call>)
  {
    match t
    case ListOrganizations => AskAnswers(client, Call("ListOrganizations", []), r, calls)
    case GetOrganization => LookupAnswers(client, args, "orgId", "orgId is required", "GetOrganization", r, calls)
    case CreateOrganization => CreateNamedAnswers(client, args, "CreateOrganization", r, calls)
  }

  predicate DecisionToolAnswers(client: Client, t: DecisionTool, args: map<string, Value>,
    r: Result<Value, string>, calls: seq<Call>)
  {
    match t
    case ListDecisions => ListDecisionsAnswers(client, args, r, calls)
    case GetDecision => LookupAnswers(client, args, "decisionId", "decisionId is required", "GetDecision", r, calls)
    case CreateDecision => CreateDecisionAnswers(client, args, r, calls)
    case UpdateDecision =>
      UpdateAnswers(client, args, "decisionId", "decisionId is required", "UpdateDecision",
        {"title", "status", "area"}, {"description", "context", "consequences"}, false, r, calls)
    case DeleteDecision => DeleteAnswers(client, args, "decisionId", "decisionId is required", "DeleteDecision", r, calls)
  }

  /** What the tool `tool` answers, sends and saves: its section's outcome, and no save outside
    * the project tools. */
  predicate ToolAnswers(client: Client, config: Option<string>, tool: Tool, args: map<string, Value>,
    r: Result<Value, string>, calls: seq<Call>, saved: Option<string>)
  {
    match tool
    case Tasks(t) => TaskToolAnswers(client, config, t, args, r, calls) && saved == None
    case Projects(t) => ProjectToolAnswers(client, t, args, r, calls, saved)
    case Memories(t) => MemoryToolAnswers(client, config, t, args, r, calls) && saved == None
    case Reports(t) => ReportToolAnswers(client, config, t, args, r, calls) && saved == None
    case Contexts(t) => ContextToolAnswers(client, t, args, r, calls) && saved == None
    case Organizations(t) => OrganizationToolAnswers(client, t, args, r, calls) && saved == None
    case Decisions(t) => DecisionToolAnswers(client, t, args, r, calls) && saved == None
  }

  /** The task tools that read: create_task through get_task. */
  predicate IsTaskQuery(t: TaskTool) {
    t.CreateTask? || t.ListTasks? || t.SearchTasks? || t.GetNextTasks? || t.GetTask?
  }

  method RunTaskTool(client: Client, config: Option<string>, t: TaskTool, args: map<string, Value>)
    returns (r: Result<Value, string>, calls: seq<Call>)
    ensures TaskToolAnswers(client, config, t, args, r, calls)
  {
    if IsTaskQuery(t) {
      r, calls := RunTaskQuery(client, config, t, args);
    } else {
      r, calls := RunTaskChange(client, t, args);
    }
  }

  method RunTaskQuery(client: Client, config: Option<string>, t: TaskTool, args: map<string, Value>)
    returns (r: Result<Value, string>, calls: seq<Call>)
    requires IsTaskQuery(t)
    ensures TaskToolAnswers(client, config, t, args, r, calls)
  {
    match t {
      case CreateTask => r, calls := CreateTaskTool(client, config, args);
      case ListTasks => r, calls := ListTasksTool(client, config, args);
      case SearchTasks => r, calls := SearchTasksTool(client, config, args);
      case GetNextTasks => r, calls := NextTasksTool(client, config, args);
      case GetTask => r, calls := GetTaskTool(client, args);
    }
  }

  /** The task tools that act on tasks, which never consult the configuration. */
  method RunTaskChange(client: Client, t: TaskTool, args: map<string, Value>)
    returns (r: Result<Value, string>, calls: seq<Call>)
    requires !IsTaskQuery(t)
    ensures forall config :: TaskToolAnswers(client, config, t, args, r, calls)
  {
    match t {
      case StartTask => r, calls := Acknowledge(client, args, "StartTask");
      case CompleteTask => r, calls := Acknowledge(client, args, "CompleteTask");
      case StopTask => r, calls := Acknowledge(client, args, "StopTask");
      case GetActiveTask => r, calls := Ask(client, Call("GetActiveTask", []));
      case DeleteTask => r, calls := Delete(client, args, "taskId", "taskId is required", "DeleteTask");
      case UpdateTaskStatus => r, calls := UpdateTaskStatusTool(client, args);
      case UpdateProgress => r, calls := UpdateProgressTool(client, args);
      case AddTaskNote => r, calls := Pair(client, args, "taskId", "note", "taskId and note are required", "CreateAnnotation");
      case CreateSubtask =>
        r, calls := Pair(client, args, "parentTaskId", "description", "parentTaskId and description are required", "CreateSubtask");
      case BulkStartTasks => r, calls := BulkStatusTool(client, args, "IN_PROGRESS");
      case BulkCompleteTasks => r, calls := BulkStatusTool(client, args, "COMPLETED");
    }
  }

  method RunProjectTool(client: Client, t: ProjectTool, args: map<string, Value>)
    returns (r: Result<Value, string>, calls: seq<Call>, saved: Option<string>)
    ensures ProjectToolAnswers(client, t, args, r, calls, saved)
    ensures saved.Some? ==>
      t == SetActiveProject && r.Success? && r.value.Object?
      && "project_id" in r.value.fields && r.value.fields["project_id"] == Str(saved.value)
  {
    saved := None;
    match t {
      case ListProjects => r, calls := ListProjectsTool(client);
      case CreateProject => r, calls := CreateNamed(client, args, "CreateProject");
      case SetActiveProject => r, calls, saved := SetActiveProjectTool(client, args);
      case GetProject => r, calls := Lookup(client, args, "projectId", "projectId is required", "GetProject");
      case UpdateProject =>
        r, calls := Update(client, args, "projectId", "projectId is required", "UpdateProject", {"name"}, {"description"}, false);
      case DeleteProject => r, calls := Delete(client, args, "projectId", "projectId is required", "DeleteProject");
    }
  }

  method RunMemoryTool(client: Client, config: Option<string>, t: MemoryTool, args: map<string, Value>)
    returns (r: Result<Value, string>, calls: seq<Call>)
    ensures MemoryToolAnswers(client, config, t, args, r, calls)
  {
    match t {
      case AddMemory => r, calls := AddMemoryTool(client, config, args);
      case ListMemories => r, calls := ListMemoriesTool(client, config, args);
      case GetMemory => r, calls := Lookup(client, args, "memoryId", "memoryId is required", "GetMemory");
      case UpdateMemory =>
        r, calls := Update(client, args, "memoryId", "memoryId is required", "UpdateMemory", {"content"}, {}, true);
      case DeleteMemory => r, calls := Delete(client, args, "memoryId", "memoryId is required", "DeleteMemory");
      case GetTaskMemories => r, calls := Lookup(client, args, "taskId", "taskId is required", "ListTaskMemories");
      case MemoryTasks => r, calls := Lookup(client, args, "memoryId", "memoryId is required", "ListMemoryTasks");
      case CreateMemoryTaskLink => r, calls := MemoryLinkTool(client, args);
    }
  }

  method RunReportTool(client: Client, config: Option<string>, t: ReportTool, args: map<string, Value>)
    returns (r: Result<Value, string>, calls: seq<Call>)
    ensures ReportToolAnswers(client, config, t, args, r, calls)
  {
    match t {
      case GetStats => r, calls := StatsTool(client);
      case GetHistory => r, calls := HistoryTool(client, args);
      case AnalyzeTaskRisks => r, calls := Lookup(client, args, "taskId", "taskId is required", "AIRisks");
      case AnalyzeTaskDependencies => r, calls := Lookup(client, args, "taskId", "taskId is required", "AIDependencies");
      case DuplicateTask => r, calls := DuplicateTaskTool(client, args);
      case MoveTasksToProject => r, calls := MoveTasksTool(client, config, args);
      case Timeline => r, calls := TimelineTool(client, config, args);
      case Recall => r, calls := RecallTool(client, args);
      case ExportProject => r, calls := ExportProjectTool(client, config, args);
    }
  }

  method RunContextTool(client: Client, t: ContextTool, args: map<string, Value>)
    returns (r: Result<Value, string>, calls: seq<Call>)
    ensures ContextToolAnswers(client, t, args, r, calls)
  {
    match t {
      case ListContexts => r, calls := Ask(client, Call("ListContexts", []));
      case CreateContext => r, calls := CreateNamed(client, args, "CreateContext");
      case SetActiveContext => r, calls := Lookup(client, args, "name", "name is required", "UseContext");
      case ListContextPacks => r, calls := ListContextPacksTool(client, args);
      case GetContextPack => r, calls := Lookup(client, args, "packId", "packId is required", "GetContextPack");
      case CreateContextPack => r, calls := CreateContextPackTool(client, args);
      case UpdateContextPack =>
        r, calls := Update(client, args, "packId", "packId is required", "UpdateContextPack",
          {"name", "type", "status"}, {"description"}, true);
      case DeleteContextPack => r, calls := Delete(client, args, "packId", "packId is required", "DeleteContextPack");
      case ActivateContextPack => r, calls := ActivateContextPackTool(client, args);
      case GetActiveContextPack => r, calls := Ask(client, Call("GetActiveContextPack", []));
    }
  }

  method RunOrganizationTool(client: Client, t: OrganizationTool, args: map<string, Value>)
    returns (r: Result<Value, string>, calls: seq<Call>)
    ensures OrganizationToolAnswers(client, t, args, r, calls)
  {
    match t {
      case ListOrganizations => r, calls := Ask(client, Call("ListOrganizations", []));
      case GetOrganization => r, calls := Lookup(client, args, "orgId", "orgId is required", "GetOrganization");
      case CreateOrganization => r, calls := CreateNamed(client, args, "CreateOrganization");
    }
  }

  method RunDecisionTool(client: Client, t: DecisionTool, args: map<string, Value>)
    returns (r: Result<Value, string>, calls: seq<Call>)
    ensures DecisionToolAnswers(client, t, args, r, calls)
  {
    match t {
      case ListDecisions => r, calls := ListDecisionsTool(client, args);
      case GetDecision => r, calls := Lookup(client, args, "decisionId", "decisionId is required", "GetDecision");
      case CreateDecision => r, calls := CreateDecisionTool(client, args);
      case UpdateDecision =>
        r, calls := Update(client, args, "decisionId", "decisionId is required", "UpdateDecision",
          {"title", "status", "area"}, {"description", "context", "consequences"}, false);
      case DeleteDecision => r, calls := Delete(client, args, "decisionId", "decisionId is required", "DeleteDecision");
    }
  }

  /** CallTool: the named tool's result or error, the requests it sent, and the active project
    * it saved to the configuration, if any. `config` is the active project id of the
    * configuration, None when it cannot be loaded. An unknown name sends nothing; a known
    * name runs the handler of its own case, with that handler's outcome, requests and save;
    * only set_active_project saves, and what it saves is the project id it reports. */
  method CallTool(client: Client, config: Option<string>, name: string, args: map<string, Value>)
    returns (r: Result<Value, string>, calls: seq<Call>, saved: Option<string>)
    ensures ToolOf(name).None? ==> Refused("tool not implemented", r, calls) && saved == None
    ensures ToolOf(name).Some? ==>
      ToolName(ToolOf(name).value) == name && ToolAnswers(client, config, ToolOf(name).value, args, r, calls, saved)
    ensures saved.Some? ==>
      ToolOf(name) == Some(Projects(SetActiveProject)) && r.Success? && r.value.Object?
      && "project_id" in r.value.fields && r.value.fields["project_id"] == Str(saved.value)
  {
    saved := None;
    var tool := ToolOf(name);
    if tool.None? {
      return Failure("tool not implemented"), [], saved;
    }
    match tool.value {
      case Tasks(t) => r, calls := RunTaskTool(client, config, t, args);
      case Projects(t) => r, calls, saved := RunProjectTool(client, t, args);
      case Memories(t) => r, calls := RunMemoryTool(client, config, t, args);
      case Reports(t) => r, calls := RunReportTool(client, config, t, args);
      case Contexts(t) => r, calls := RunContextTool(client, t, args);
      case Organizations(t) => r, calls := RunOrganizationTool(client, t, args);
      case Decisions(t) => r, calls := RunDecisionTool(client, t, args);
    }
  }
}
