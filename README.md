# josepshbrain-go (ramorie), modelled in Dafny

This project models the core of `josepshbrain-go`, a Go task and memory manager. It has two front ends over one
backend:

- **The MCP tool server** (`internal/mcp`). An AI agent talks to it over JSON-RPC 2.0 on
  standard input and output.
- **The `jbraincli` command-line client**, with its terminal interface.

What is modelled:

- **The server loop** (`McpServer`).
  - The session is two variables: the `initialized` flag and the negotiated protocol version.
  - Each input line is classified as blank, garbled, or a request.
  - Requests are routed by method name, with the server's fixed error codes.
  - A `tools/call` result is wrapped in an envelope; `wrapResultAsObject` is part of this.
  - The loop is a pure step function folded over the input lines (`Step`, `Run`). The
    imperative loop (`ServeStdio`, `ServeLine`, `HandleRequest`) is proved to compute that fold.
- **The tool dispatcher** (`McpTools`, `McpDispatch`).
  - It covers every tool of `CallTool`: the required-argument checks, `toInt`, and the
    priority scale.
  - It covers the urgency sort of `get_next_tasks`, the in-place memory filter, the early-stop
    loop of `recall`, and the counting loops of `move_tasks_to_project` and `export_project`.
  - It covers the two identifier resolvers, `resolveProjectID` and `resolveTaskIDList`.
  - The API client is a datatype of answer functions. Each tool returns its result together
    with the exact sequence of requests it sent.
- **The command-line helpers.**
  - Short-ID disambiguation comes in a task variant and a memory variant (`ShortIds`,
    `TaskCommands`, `MemoryCommands`).
  - Also modelled: greedy word wrapping, the progress bar, and the status rules of `task
    start/done/progress/modify`.
  - The project table's "one active project" rule is modelled (`ProjectCommands`).
  - So is the UUID-or-unique-prefix task resolution of the annotation commands
    (`AnnotationCommands`).
- **The error-message classifier** (`ApiErrors`), **the terminal interface's helpers**
  (`Tui`), and **the content limits** (`Limits`).
- **Supporting modules** model the Go library behaviour the code relies on:
  - `GoText`: `strings.TrimSpace`, `Fields`, `ToLower`/`ToUpper`, `Contains`, UTF-8 byte
    lengths and decimal printing.
  - `GoUuid`: the forms `uuid.Parse` accepts.
  - `GoJson`: JSON documents, the Go values `encoding/json` maps them to, and its
    case-insensitive matching of object keys to struct fields.
  - `Wrappers`: `Option` and `Result`.

Where the code and its documentation disagree, the model follows the code. The fallback of
`wrapResultAsObject` keeps the original value under `"data"`, not its serialised text.

## Model

| member | source | states |
|---|---|---|
| GoJson.FieldMember | internal/mcp/server.go:20-25 | A struct field takes the member whose key is its name. Failing that, it takes a member whose key equals the name after case folding. It is absent exactly when no key folds to the name. |
| GoJson.OnlyKeyNamesField | internal/mcp/server.go:20-25 | When one key alone folds to a field's name, the field takes that key's member, whatever its letter case. |
| McpServer.DecodeRequest | internal/mcp/server.go:20-25 | A document decodes into a request in two cases. It is null, giving the zero request. Or it is an object where every key naming `jsonrpc` or `method` (in any letter case) holds a string or null. `id` and `params` are the raw members their names select. |
| McpServer.FieldNamesIgnoreCase | internal/mcp/server.go:69-70 | `{"jsonrpc":"2.0","ID":1,"Method":"ping"}` decodes to the ping request with id 1. |
| McpServer.MistypedFieldRejected | internal/mcp/server.go:69-73 | `{"Method":5}` fails to decode, because "Method" names the string field `method`. |
| McpServer.RequestedVersion | internal/mcp/server.go:34-38 | A non-empty requested version is the string held by the member that the case-insensitive lookup selects for `protocolVersion` in object params. Undecodable params give "". |
| McpServer.VersionNameIgnoresCase | internal/mcp/server.go:77-80 | Params `{"ProtocolVersion":"2024-11-05"}` ask for version 2024-11-05. |
| McpServer.DecodeToolCall | internal/mcp/server.go:40-43 | Absent params fail to decode, and null gives an empty name with no arguments. An object decodes when the keys naming `name` hold strings or null and those naming `arguments` hold objects or null. Keys match in any letter case. The name is the selected string. The arguments are the selected object's members, or none. |
| McpServer.ToolNameIgnoresCase | internal/mcp/server.go:111-117 | Params `{"Name":"list_projects"}` call `list_projects` with no arguments. |
| McpServer.WrapResultAsObjectEncoding | internal/mcp/server.go:163-201 | On the wire the wrapped result is always an object. nil becomes `{"data": null}`. An array becomes `{"items", "count"}`, including a value whose JSON is an array. An object stays as it is. Anything else becomes `{"data": result}`. |
| McpServer.Emit | internal/mcp/server.go:151-159 | The written document always has `"jsonrpc": "2.0"`. A fault's `error` is `{"code", "message"}` from the fault. `error` appears only for faults and for results that cannot be encoded, and those results are replaced by the fixed -32603 line. `result` appears exactly for encodable results other than nil, holding the encoded result. `id` is the request's id, omitted when there is none or the line was replaced. |
| McpServer.ServeLine | internal/mcp/server.go:64-142 | The loop body computes `Step` on the two session variables. |
| McpServer.HandleRequest | internal/mcp/server.go:75-142 | The method switch computes `Dispatch` on the two session variables. |
| McpServer.ServeStdio | internal/mcp/server.go:50-149 | Without a client: the error "api client is required" and no output. Otherwise: no error, and the output is the written form of every response of `Run` over the input lines, in order. |
| McpServer.RunOneMore | internal/mcp/server.go:63-143 | A run over one more line is one more step from where the shorter run ended. |
| McpServer.BlankLineSkipped | internal/mcp/server.go:64-67 | A line that is blank after trimming gets no response and leaves the session unchanged. |
| McpServer.GarbledLineAnswered | internal/mcp/server.go:69-73 | A line that does not decode into a request gets one -32700 "Parse error" response without an id, and the session is unchanged. |
| McpServer.ToolsGatedBeforeInitialization | internal/mcp/server.go:98-108 | Before initialization, `tools/list` and `tools/call` get -32002 "Server not initialized" with the request's id, and the session is unchanged. |
| McpServer.RequestAnsweredWithItsId | internal/mcp/server.go:75-142 | A request gets a response exactly when it is not `notifications/initialized`. The response carries the request's id, even when that id is absent. |
| McpServer.PingAndUnknownMethods | internal/mcp/server.go:137-141 | `ping` answers `{}` and any method outside the switch answers -32601 "Method not found", whatever the session. |
| McpServer.VersionNegotiation | internal/mcp/server.go:76-93 | Only `initialize` can change the version. It takes the trimmed requested version when that is non-blank and otherwise keeps the current one. It never touches the flag. |
| McpServer.ToolCallSuccessEnvelope | internal/mcp/server.go:117-135 | A tool result gives `isError: false`, `structuredContent` equal to the wrapped result, and one text item holding that object's JSON text. |
| McpServer.ToolCallErrorEnvelope | internal/mcp/server.go:117-124 | A tool error gives a success reply with `isError: true` and the error text as its only content, and no `structuredContent`. |
| McpServer.DispatchShape | internal/mcp/server.go:75-142 | Every method except `notifications/initialized` is answered, with the request's id. Only that notification sets the flag. Only `initialize` with a non-blank version changes the version. |
| McpServer.StepInitialized | internal/mcp/server.go:95-96 | One line sets the flag exactly when it is `notifications/initialized`, and no line clears it. |
| McpServer.InitializedIffNotified | internal/mcp/server.go:60-96 | After any input the session is initialized exactly when it was before or some line was the notification. |
| McpServer.VersionStaysUsable | internal/mcp/server.go:61-80 | Starting from "2025-11-25", the negotiated version is never blank and never has surrounding white space, whatever the client sends. |
| McpServer.OneResponsePerAnsweredLine | internal/mcp/server.go:63-143 | The run writes exactly one response per non-blank line other than the notification. |
| McpServer.BackendUnusedBeforeInitialization | internal/mcp/server.go:98-108 | Until the notification arrives, the responses do not depend on the tool backend or on the tool catalogue. |
| GoJson.MarshalUnmarshal | internal/mcp/server.go:182-195 | Decoding a document into an `interface{}` and encoding it again gives the same document. |
| GoJson.UnmarshalMarshal | internal/mcp/server.go:177-186 | Encoding a decoded value and decoding again gives the same value. |
| McpTools.ToIntReadsDecimal | internal/mcp/tools.go:1363-1366 | A string holding any int64 in decimal converts to that number. |
| McpTools.ToIntOfWholeNumber | internal/mcp/tools.go:1357-1358 | A JSON number that is whole converts to itself. |
| McpTools.ToIntWithoutDigits | internal/mcp/tools.go:1363-1368 | A string without digits converts to 0. |
| McpTools.ScanInt | internal/mcp/tools.go:1364-1365 | `%d` skips spaces other than newlines. It reads an optional sign and the longest digit run, and fails on a missing digit or a value outside int64. |
| McpTools.TruncateReal | internal/mcp/tools.go:1357-1358 | A float64 converts by truncation toward zero. |
| McpTools.NormalizePriority | internal/mcp/tools.go:1338-1353 | The result is always "H", "M" or "L". |
| McpTools.RankOfNormalized | internal/mcp/tools.go:1261-1353 | The normalized priority has the same rank as the input, except that an unrecognised input (rank 0) becomes medium (rank 2). So the rank is at least 1. |
| McpTools.NormalizeIdempotent | internal/mcp/tools.go:1338-1353 | Normalizing a normalized priority changes nothing. |
| McpTools.PriorityRank | internal/mcp/tools.go:1261-1272 | The rank lies between 0 and 3. |
| McpTools.RankOfLetters | internal/mcp/tools.go:1261-1272 | H ranks 3, M ranks 2, L ranks 1. |
| McpTools.TrimSpaceUpper | internal/mcp/tools.go:1262-1340 | Trimming and upper-casing commute, so both helpers read a priority the same way. |
| McpTools.TruncateToLimit | internal/mcp/tools.go:350-353 | When 0 < limit < length, the result is the first `limit` elements. Otherwise the list is unchanged. |
| McpTools.SortPermutes | internal/mcp/tools.go:418-425 | The urgency sort only reorders: the result is a permutation of its input. |
| McpTools.SortByUrgency | internal/mcp/tools.go:418-425 | The sorted list is in urgency order: higher rank first, then earlier creation. |
| McpTools.NextTasksAreMostUrgent | internal/mcp/tools.go:390-430 | `get_next_tasks` returns fetched tasks, as many as asked for (5 when the count is not positive) or all of them, in urgency order. No task left out is more urgent than a returned one. |
| McpTools.FilterKeepsMentions | internal/mcp/tools.go:651-660 | Every memory whose lower-cased content contains the lower-cased term is kept. |
| McpTools.FilterWithinInput | internal/mcp/tools.go:651-660 | Only memories that were given are kept. |
| McpTools.FilterAppend | internal/mcp/tools.go:653-659 | Filtering a concatenation filters the parts, so the filter keeps the input order. |
| McpTools.FilterInPlace | internal/mcp/tools.go:653-659 | The kept memories are written to the front of the same array in order. The slots behind them keep their old contents, and the new length is the number kept. |
| McpTools.RecallMatchesBounded | internal/mcp/tools.go:910-922 | Recall reports only matches, in order. It reports at most `limit`, or one when the limit is below one. It stops short of the limit only when no matches remain. |
| McpTools.CollectRecall | internal/mcp/tools.go:910-922 | The early-stop loop returns exactly the recall's matches. |
| McpTools.FindActive | internal/mcp/tools.go:1313-1317 | The loop finds the first active project. |
| McpTools.FindDesignated | internal/mcp/tools.go:1329-1333 | The loop finds the first project whose name equals the identifier or whose ID starts with it. |
| McpTools.ResolveProjectID | internal/mcp/tools.go:1302-1336 | A blank identifier gives the configured active ID when there is one, else the first active project, else "no active project". A UUID is returned as it is. Anything else gives the first project it designates, else "project not found". Client errors pass through. |
| McpTools.ResolvedProjectIsDesignated | internal/mcp/tools.go:1325-1335 | A resolved name or ID prefix is the ID of the first listed project it designates. |
| McpTools.ResolveIgnoresSurroundingSpace | internal/mcp/tools.go:1303 | White space around the identifier does not change the resolution. |
| McpTools.ResolveTaskIDList | internal/mcp/tools.go:1274-1300 | A non-array gives "taskIds must be an array" and an empty array "taskIds cannot be empty". Blank and non-string entries are skipped, and each other entry is looked up. The first failing lookup's error is the verdict. If every entry is skipped, the result is "no valid task ids". |
| McpTools.TaskIdsOneEach | internal/mcp/tools.go:1283-1295 | A resolved list holds one full ID per non-blank entry, in order, each the ID the lookup reports. So it is never longer than the input. |
| McpTools.TaskLookupsAfterFailure | internal/mcp/tools.go:1290-1293 | After a failed lookup no further request is sent. |
| McpTools.CollectTags | internal/mcp/tools.go:1086-1094 | The tags are the string entries of the array, trimmed and in order, and nothing for a non-array. |
| McpTools.CountByStatus | internal/mcp/tools.go:984-993 | The counting loop's three counts are the numbers of completed, in-progress and other tasks. |
| McpTools.StatusCountsPartition | internal/mcp/tools.go:980-993 | The three counts add up to the number of tasks. |
| McpTools.BuildExport | internal/mcp/tools.go:972-1011 | The builder produces the markdown report: title, optional description, statistics, and one line per task with its status mark, title and priority. |
| McpDispatch.CallTool | internal/mcp/tools.go:314-1259 | An unknown name gives "tool not implemented" and sends nothing. A known name runs the handler of its own case, and the outcome, requests and save are that handler's. Only `set_active_project` saves to the configuration, and it saves the project ID it reports. |
| McpDispatch.RunTaskTool | internal/mcp/tools.go:316-549 | Each task tool's outcome and requests are those of the handler its case calls, with that case's arguments. |
| McpDispatch.RunMemoryTool | internal/mcp/tools.go:623-741 | Each memory tool's outcome and requests are those of the handler its case calls. |
| McpDispatch.RunReportTool | internal/mcp/tools.go:743-1017 | Each report tool's outcome and requests are those of the handler its case calls. |
| McpDispatch.RunContextTool | internal/mcp/tools.go:1019-1154 | Each context tool's outcome and requests are those of the handler its case calls. |
| McpDispatch.RunOrganizationTool | internal/mcp/tools.go:1156-1175 | Each organization tool's outcome and requests are those of the handler its case calls. |
| McpDispatch.RunDecisionTool | internal/mcp/tools.go:1177-1257 | Each decision tool's outcome and requests are those of the handler its case calls. |
| McpDispatch.ToolOf | internal/mcp/tools.go:315-1257 | A name selects only the tool called by that name. |
| McpDispatch.ToolOfRoundTrip | internal/mcp/tools.go:314-1259 | Every tool's own name reaches that tool's case, so no tool the server implements is answered with "tool not implemented". |
| McpDispatch.ToolNamesDistinct | internal/mcp/tools.go:314-1259 | No two tools share a name: the 57 cases of the switch are told apart by their names. |
| McpDispatch.TaskToolOf | internal/mcp/tools.go:316-549 | The task section of the switch selects a task tool only by its own name. |
| McpDispatch.TaskToolRoundTrip | internal/mcp/tools.go:316-549 | Each task tool's name selects that task tool. |
| McpDispatch.ProjectToolRoundTrip | internal/mcp/tools.go:551-621 | Each project tool's name selects that project tool. |
| McpDispatch.MemoryToolRoundTrip | internal/mcp/tools.go:623-741 | Each memory tool's name selects that memory tool. |
| McpDispatch.ReportToolRoundTrip | internal/mcp/tools.go:743-1017 | Each report tool's name selects that report tool. |
| McpDispatch.ContextToolRoundTrip | internal/mcp/tools.go:1019-1154 | Each context tool's name selects that context tool. |
| McpDispatch.OrganizationToolRoundTrip | internal/mcp/tools.go:1156-1175 | Each organization tool's name selects that organization tool. |
| McpDispatch.DecisionToolRoundTrip | internal/mcp/tools.go:1177-1257 | Each decision tool's name selects that decision tool. |
| McpDispatch.Ask | internal/mcp/tools.go:551-552 | A fixed request is sent once and its answer is passed on. |
| McpDispatch.Lookup | internal/mcp/tools.go:589-595 | A blank identifier gives that tool's "... is required" and sends nothing. Otherwise one request is sent with the trimmed identifier. |
| McpDispatch.Acknowledge | internal/mcp/tools.go:440-471 | `start_task`, `complete_task` and `stop_task` require a task ID, send one request and answer `{"ok": true}` on success. |
| McpDispatch.Delete | internal/mcp/tools.go:476-485 | The delete tools require their identifier and answer `{"ok": true, "deleted": id}` on success. |
| McpDispatch.Pair | internal/mcp/tools.go:509-527 | `add_task_note` and `create_subtask` require both arguments and send them trimmed in one request. |
| McpDispatch.CreateNamed | internal/mcp/tools.go:554-561 | The create tools require a name and send it with the optional description, both trimmed. |
| McpDispatch.UpdatesSendNamedFields | internal/mcp/tools.go:597-610 | An update map holds exactly the fields that were given, trimmed. |
| McpDispatch.Update | internal/mcp/tools.go:675-694 | The update tools require their identifier and send one request with the update map. |
| McpDispatch.OptionalProject | internal/mcp/tools.go:337-345 | A blank project filter sends nothing and gives "". Otherwise the project is resolved. |
| McpDispatch.CreateTaskTool | internal/mcp/tools.go:316-333 | A description is required. The priority is normalized, the project resolved, and the created task returned. |
| McpDispatch.ListTasksTool | internal/mcp/tools.go:335-354 | Tasks are listed by trimmed status, optionally for one resolved project, and cut to a positive limit. |
| McpDispatch.SearchTasksTool | internal/mcp/tools.go:356-388 | A query is required. The project, status and tag filters are optional, and the result is cut to a positive limit. |
| McpDispatch.NextTasksTool | internal/mcp/tools.go:390-430 | The TODO tasks are fetched, optionally by project and tag, and answered with `NextTasks`. |
| McpDispatch.GetTaskTool | internal/mcp/tools.go:432-438 | A task ID is required, and the task the client reports is returned. |
| McpDispatch.UpdateTaskStatusTool | internal/mcp/tools.go:487-495 | Both `taskId` and `status` are required. |
| McpDispatch.UpdateProgressTool | internal/mcp/tools.go:497-507 | A task ID is required. Progress outside 0..100 is refused before any request. |
| McpDispatch.BulkStatusTool | internal/mcp/tools.go:529-549 | The listed tasks are resolved and all moved to one status in one request. The reported count is the number of IDs. |
| McpDispatch.BulkCountIsEntryCount | internal/mcp/tools.go:529-549 | The bulk count equals the number of non-blank entries, and it is positive. |
| McpDispatch.ListProjectsTool | internal/mcp/tools.go:551-552 | The projects the client lists, or its error. |
| McpDispatch.SetActiveProjectTool | internal/mcp/tools.go:563-587 | A name is required. The first project it designates is activated, and its ID is saved and reported. Otherwise the tool fails with "project not found". |
| McpDispatch.ActivatedProjectIsResolved | internal/mcp/tools.go:563-587 | After activation, a blank identifier resolves to the saved project, and so does the given name unless that name is a UUID. |
| McpDispatch.AddMemoryTool | internal/mcp/tools.go:623-634 | Content is required, and the memory goes to the resolved project. |
| McpDispatch.ListMemoriesTool | internal/mcp/tools.go:636-665 | Memories are listed, filtered in place by a trimmed term, and cut to a positive limit. |
| McpDispatch.MemoryLinkTool | internal/mcp/tools.go:723-741 | Both IDs are required, and the link response is decoded. |
| McpDispatch.StatsTool | internal/mcp/tools.go:743-752 | One GET of `/reports/stats`, decoded, or "invalid stats response". |
| McpDispatch.HistoryEndpoint | internal/mcp/tools.go:754-771 | A day count of 0 asks for 7 days and a positive count for itself. A negative count leaves the parameter out. |
| McpDispatch.HistoryTool | internal/mcp/tools.go:754-771 | One GET of the history endpoint, decoded. |
| McpDispatch.TimelineTool | internal/mcp/tools.go:868-891 | The last request is the timeline GET, and its answer is decoded. |
| McpDispatch.TimelineIgnoresUnresolved | internal/mcp/tools.go:876-882 | A project that does not resolve is left out of the request, not refused. |
| McpDispatch.DuplicateTitle | internal/mcp/tools.go:800-806 | The copy's title is the new description when one is given, and otherwise the original title with a suffix. |
| McpDispatch.CopyAnnotations | internal/mcp/tools.go:821-828 | One `CreateAnnotation` request per original note, in order. |
| McpDispatch.DuplicateTaskTool | internal/mcp/tools.go:789-831 | A task ID is required. The copy goes to the same project and the notes are copied. |
| McpDispatch.MovedCount | internal/mcp/tools.go:853-859 | The moved count is at most the number of tasks. It equals that number exactly when the client accepts every move. |
| McpDispatch.MoveEach | internal/mcp/tools.go:853-859 | One update per task, in order, counting those the client accepts. |
| McpDispatch.MoveTasksTool | internal/mcp/tools.go:833-866 | A target project is required. The IDs are resolved and each task is moved. |
| McpDispatch.RecallTool | internal/mcp/tools.go:893-928 | A term is required. The limit defaults to 10 when 0. The result holds the term, the count and the early-stopped matches, and the count equals the number of results. |
| McpDispatch.FindProject | internal/mcp/tools.go:952-960 | The loop finds the first project with the resolved ID. |
| McpDispatch.ExportProjectTool | internal/mcp/tools.go:930-1017 | The result is the export verdict: the project, the format (default "markdown") and the markdown report, or the first error. |
| McpDispatch.ExportMissesNonCanonicalId | internal/mcp/tools.go:937-964 | A project named by a UUID that is not in canonical form is reported as "project not found", because the comparison is on exact text. |
| McpDispatch.ExportCountsAddUp | internal/mcp/tools.go:980-999 | The report's counts add up to its total. |
| McpDispatch.ListContextPacksTool | internal/mcp/tools.go:1044-1060 | The filters are trimmed and the limit passed on, always from offset 0. |
| McpDispatch.CreateContextPackTool | internal/mcp/tools.go:1070-1095 | A name is required, and the type defaults to "custom". |
| McpDispatch.ActivateContextPackTool | internal/mcp/tools.go:1140-1150 | A pack ID is required. The activated pack is answered as `{"ok": true, "pack": ...}`. |
| McpDispatch.ListDecisionsTool | internal/mcp/tools.go:1177-1185 | Status and area are trimmed and the limit passed on. |
| McpDispatch.CreateDecisionTool | internal/mcp/tools.go:1195-1214 | A title is required. The other fields are trimmed and optional. |
| McpDispatch.RunProjectTool | internal/mcp/tools.go:551-621 | Each project tool's outcome and requests are those of the handler its case calls. Only `set_active_project` saves, and what it saves is the reported project ID. |
| ShortIds.GroupByPrefix | internal/cli/commands/task.go:603-607 | The first pass maps each eight-character key that occurs to the IDs with that key, in input order. |
| ShortIds.GroupOfMembers | internal/cli/commands/task.go:603-607 | A group holds exactly the listed IDs with its key. |
| ShortIds.GroupOfCount | internal/cli/commands/memory.go:435-439 | A group holds each ID with its key as often as it is listed. |
| TaskCommands.UniqueLenFrom | internal/cli/commands/task.go:615-629 | The search settles on the first length from 8 at which no longer, different ID of the group shares the prefix, or on the whole ID. |
| TaskCommands.IsUniqueAt | internal/cli/commands/task.go:618-624 | The inner loop decides whether any other, longer group member shares the candidate. |
| TaskCommands.UniqueLength | internal/cli/commands/task.go:615-629 | The length loop settles on `UniqueLenFrom` from 8. |
| TaskCommands.TaskShortId | internal/cli/commands/task.go:598-636 | Every short ID is a prefix of its ID, at least eight characters long. |
| TaskCommands.GenerateTaskShortIds | internal/cli/commands/task.go:598-636 | Every listed ID gets an entry, and each entry is its short ID. |
| TaskCommands.ShortIdAlone | internal/cli/commands/task.go:611-612 | The only member of a group is shown with the group's key. |
| TaskCommands.ShortIdInCollision | internal/cli/commands/task.go:613-631 | A member of a larger group is shown with the prefix the search settles on. |
| TaskCommands.UniqueKeyKeepsEight | internal/cli/commands/task.go:603-612 | An ID whose first eight characters no other listed ID shares keeps exactly those eight, even when the same ID is listed twice. |
| TaskCommands.DistinctTaskShortIds | internal/cli/commands/task.go:614-631 | Distinct IDs of equal length get distinct short IDs. |
| TaskCommands.CrossLengthCollision | internal/cli/commands/task.go:616-620 | IDs of different lengths can share a short ID ("abcdefghX" and "abcdefghXY" both show "abcdefghX"). |
| TaskCommands.TaskPriorityIcon | internal/cli/commands/task.go:638-648 | The priority lookup is total and always yields a non-empty icon. |
| TaskCommands.TaskPriorityIconDistinguishes | internal/cli/commands/task.go:638-648 | The fallback icon shows exactly for priorities other than H, M and L, and those three have distinct icons. |
| TaskCommands.TaskStatusIcon | internal/cli/commands/task.go:650-661 | The status lookup is total and always yields a non-empty icon. |
| TaskCommands.TaskStatusIconDistinguishes | internal/cli/commands/task.go:650-661 | The fallback icon shows exactly for statuses other than the four known ones, and each of those has its own icon. |
| TaskCommands.TaskIconsMisencoded | internal/cli/commands/task.go:638-661 | For every priority and status, the list prints a different text from the terminal interface's emoji. |
| TaskCommands.FilledCells | internal/cli/commands/task.go:671 | The dark cells are `progress * width / 100` truncated toward zero, for any progress. From 0 to 100 they are never more than the width. |
| TaskCommands.ProgressBar | internal/cli/commands/task.go:663-674 | The bar fails (strings.Repeat panics) exactly when the progress is neither 0 nor 100 and the filled count falls below 0 or above the width. |
| TaskCommands.ProgressBarIsCells | internal/cli/commands/task.go:663-674 | At 100 the bar is the done mark. Otherwise a drawn bar is exactly `width` cells, dark up to the filled share and then light. It is followed by " N%", sign included, unless the progress is 0. |
| TaskCommands.ProgressBarPanics | internal/cli/commands/task.go:663-674 | The bar panics exactly when `progress * width` is at most -100 or at least `100 * (width + 1)`. Every progress from 0 to 100 is drawn. |
| TaskCommands.ListedBarRange | internal/cli/commands/task.go:450 | At width 8 (the list) a stored progress from -12 to 112 is drawn and any other panics. At width 10 (the detail view, line 550) the range is -9 to 109. |
| TaskCommands.FilledCellsMonotone | internal/cli/commands/task.go:671 | More progress never shows fewer dark cells, negative progress included. |
| TaskCommands.AtoiOfIntToString | internal/cli/commands/task.go:371 | `strconv.Atoi` reads back every int64 that `Itoa` prints. |
| TaskCommands.Atoi | internal/cli/commands/task.go:371-372 | An accepted input is an optional sign and at least one digit, making the whole string. Its value is within int64. |
| TaskCommands.ParseProgress | internal/cli/commands/task.go:371-374 | A percentage is accepted exactly when Atoi reads it and it lies in 0..100. |
| TaskCommands.StatusAfterProgressRules | internal/cli/commands/task.go:378-383 | 100 means COMPLETED. A task stays TODO exactly when it was TODO and the progress is 0. Applying the rule twice changes nothing, and a completed task stays completed. |
| TaskCommands.TaskRecord.Start | internal/cli/commands/task.go:212 | The status becomes IN_PROGRESS and the progress is kept. |
| TaskCommands.TaskRecord.Done | internal/cli/commands/task.go:269-270 | COMPLETED at 100 percent. |
| TaskCommands.TaskRecord.UpdateProgress | internal/cli/commands/task.go:371-383 | A bad percentage changes nothing. Otherwise the progress is set and the status follows the rule. |
| TaskCommands.Replaced | internal/cli/commands/task.go:789-800 | A field changes exactly when the new value is non-empty and different, and then to that value. |
| TaskCommands.TaskRecord.Modify | internal/cli/commands/task.go:788-805 | Each of the three fields is replaced by that rule. `modified`, which decides the save, holds exactly when something changed. |
| MemoryCommands.FirstFreeFrom | internal/cli/commands/memory.go:448-461 | The search finds the first length from 9 to 35 whose prefix no other group member starts with, or none. |
| MemoryCommands.IsFreeAt | internal/cli/commands/memory.go:450-456 | The inner loop decides whether another group member starts with the candidate. |
| MemoryCommands.FreeLength | internal/cli/commands/memory.go:448-461 | The length loop settles on `FirstFreeFrom` from 9. |
| MemoryCommands.MemoryShortId | internal/cli/commands/memory.go:430-466 | A shown short ID is a prefix of its ID, 8 to 35 characters long. |
| MemoryCommands.GenerateMemoryShortIds | internal/cli/commands/memory.go:430-466 | The entries are exactly the listed IDs that have a short ID, each mapped to it. |
| MemoryCommands.MemoryShortIdAlone | internal/cli/commands/memory.go:443-444 | The only member of a group is shown with the group's key. |
| MemoryCommands.MemoryUniqueKeyKeepsEight | internal/cli/commands/memory.go:435-444 | An ID whose first eight characters no other listed ID shares keeps exactly those eight. |
| MemoryCommands.MemoryShortIdMissingIff | internal/cli/commands/memory.go:446-461 | An ID goes without an entry exactly when another listed ID shares its first 35 characters. |
| MemoryCommands.DistinctMemoryShortIds | internal/cli/commands/memory.go:446-461 | Two different IDs that are both shown are shown differently. |
| MemoryCommands.Wrapped | internal/cli/commands/memory.go:468-476 | Text of at most `lineWidth` bytes is returned as it is. Longer text of only white space gives "". |
| MemoryCommands.WrapString | internal/cli/commands/memory.go:468-488 | The builder loop produces the greedy layout. |
| MemoryCommands.ChunksKeepWords | internal/cli/commands/memory.go:473-486 | The lines hold the words of `strings.Fields`, all of them, in order. |
| MemoryCommands.ChunksFitGreedily | internal/cli/commands/memory.go:478-485 | Every line of two or more words fits in `lineWidth` bytes. A line ends only when the next word would not fit. |
| MemoryCommands.MemoryRecord.Modify | internal/cli/commands/memory.go:532-542 | The content is replaced only when the new content is non-empty and different. `modified` holds exactly when it changed. |
| ProjectCommands.Initialized | internal/cli/commands/project.go:43-65 | An existing name changes nothing. Otherwise the table gains the project "Project: name" as the only active one, and no other field of any row changes. |
| ProjectCommands.Activated | internal/cli/commands/project.go:134-147 | An unknown name changes nothing. Otherwise the first project with the name is the only active one, and no other field changes. |
| ProjectCommands.Deleted | internal/cli/commands/project.go:228-252 | The first project with the name is removed only when the user confirmed. Otherwise the table is unchanged. |
| ProjectCommands.Deactivated | internal/cli/commands/project.go:52 | No row stays active and nothing else changes. |
| ProjectCommands.FirstNamed | internal/cli/commands/project.go:136 | `First` finds the first row with the name, and None exactly when there is none. |
| ProjectCommands.CommandsKeepOneActive | internal/cli/commands/project.go:51-147 | `init`, `use` and `delete` each keep "at most one active project". |
| ProjectCommands.DeleteActiveLeavesNone | internal/cli/commands/project.go:256-259 | Deleting the active project leaves no project active. |
| ProjectCommands.InitKeepsNamesUnique | internal/cli/commands/project.go:43-49 | `init` keeps project names unique. |
| ProjectCommands.ProjectStore.Init | internal/cli/commands/project.go:40-65 | The table becomes `Initialized`. `created` holds exactly when the name was new. |
| ProjectCommands.ProjectStore.Activate | internal/cli/commands/project.go:134-152 | The table becomes `Activated`. `found` holds exactly when the name exists. |
| ProjectCommands.ProjectStore.Delete | internal/cli/commands/project.go:225-252 | The table becomes `Deleted`. `deleted` holds exactly when the name exists and the user confirmed. |
| AnnotationCommands.ById | internal/cli/commands/annotation.go:56 | The direct lookup finds a task with that ID, and None exactly when there is none. |
| AnnotationCommands.PrefixMatches | internal/cli/commands/annotation.go:60 | The matches are exactly the tasks whose ID starts with the prefix. They are distinct when the IDs are. |
| AnnotationCommands.ResolveByUuid | internal/cli/commands/annotation.go:55-56 | A UUID resolves exactly when a task has its canonical ID, and then to that task. Otherwise the error is "task not found: record not found". |
| AnnotationCommands.ResolveByPrefix | internal/cli/commands/annotation.go:58-70 | Any other argument gives "task not found with prefix" exactly when nothing matches, and "multiple tasks found ..." exactly when two tasks match. Otherwise it resolves to the one matching task. |
| AnnotationCommands.CreateAnnotation | internal/cli/commands/annotation.go:72-82 | An annotation with the resolved task's ID and the given content exists exactly when resolution succeeds. Otherwise the resolution's error is returned. |
| AnnotationCommands.ListTaskAnnotations | internal/cli/commands/annotation.go:105-130 | The same resolution, then exactly the annotations of the resolved task. |
| AnnotationCommands.CreatedIsListed | internal/cli/commands/annotation.go:84-127 | An annotation just created is listed for the same argument, and nothing else listed is new. |
| AnnotationCommands.AnnotationStore.Create | internal/cli/commands/annotation.go:76-86 | The row is appended only when the task resolves. Otherwise the table is unchanged. |
| AnnotationCommands.AnnotationStore.List | internal/cli/commands/annotation.go:95-130 | Lists the table as it stands. |
| ApiErrors.Classify | internal/errors/api_errors.go:16-74 | The category is the first test, in source order, that the text passes. |
| ApiErrors.ParseAPIError | internal/errors/api_errors.go:8-78 | nil gives "Unknown error". Otherwise the message is that of the first category passed, or "❌ " followed by the original text. |
| ApiErrors.RateLimitErrorsGetRateLimitMessage | internal/errors/api_errors.go:81-87 | An error `IsRateLimitError` accepts always gets the rate-limit message. |
| ApiErrors.TooLargeErrorsAgree | internal/errors/api_errors.go:99-105 | An error `IsContentTooLargeError` accepts gets the rate-limit, locked or too-large message. |
| ApiErrors.AuthMessageIsAuthError | internal/errors/api_errors.go:42-43 | An error reported as an authentication failure is one `IsAuthError` accepts. |
| ApiErrors.AuthErrorWithoutAuthMessage | internal/errors/api_errors.go:90-96 | The converse fails: "api key" satisfies `IsAuthError` but passes no test. |
| ApiErrors.RateLimitMessageWithoutRateLimitError | internal/errors/api_errors.go:17-18 | "too many requests" gets the rate-limit message without satisfying `IsRateLimitError`. |
| ApiErrors.NoKeywordIsOther | internal/errors/api_errors.go:76-77 | Text that holds no keyword falls through to the default message. |
| Tui.TruncateString | internal/tui/app.go:119-127 | Up to `max` bytes the string is kept. Longer strings are cut to exactly `max` bytes, ending in "..." when `max` > 3. |
| Tui.TruncateIdempotent | internal/tui/app.go:119-127 | Truncating twice to the same width changes nothing more. |
| Tui.StatusIconDistinguishes | internal/tui/app.go:93-105 | "❓" shows exactly for unknown statuses, and each known status has its own icon. |
| Tui.PriorityIconDistinguishes | internal/tui/app.go:107-117 | "⚪" shows exactly for unknown priorities, and each known priority has its own icon. |
| Limits.EstimateTokens | internal/constants/limits.go:20-23 | The estimate is the byte length divided by 4, rounded down. |
| Limits.IsWithinMemoryLimit | internal/constants/limits.go:25-28 | Within the limit exactly when at most 3,000,000 bytes, and then at most 750,000 tokens are estimated. |
| Limits.Quo10 | internal/constants/limits.go:57 | Go's `/ 10`: quotient truncated toward zero. |
| Limits.Rem10 | internal/constants/limits.go:57 | Go's `% 10`: the remainder has the sign of the dividend. |
| Limits.FormatInt | internal/constants/limits.go:56-58 | Two characters, which for 0..99 are the tens digit and the units digit. |
| Limits.FormatNumber | internal/constants/limits.go:38-47 | Below 1000 it is `formatInt`: two characters, the digits for 0..99. |
| Limits.FormatNumberMisprints | internal/constants/limits.go:46-58 | 150 prints "?0" and -5 prints "0+". |
| Limits.FormatCount | internal/constants/limits.go:56-58 | The corrected format: the count's decimal digits, at least two, with a sign for negatives. |
| Limits.FormatCountAgrees | internal/constants/limits.go:56-58 | On 0..99 the corrected format prints what `formatInt` prints. |
| GoText.TrimSpace | internal/mcp/server.go:64 | The result is the slice of the input left after removing all-space text at both ends. It is empty exactly for all-space input, and otherwise neither starts nor ends with space. |
| GoText.TrimSpaceIdempotent | internal/mcp/server.go:79-80 | Trimming twice changes nothing more. |
| GoText.Fields | internal/cli/commands/memory.go:473 | The fields are non-empty words without spaces, and there are none exactly for all-space text. |
| GoText.FieldsOfLeadingWord | internal/cli/commands/memory.go:473 | A field is a whole run of non-space characters. After leading space, a word that ends at space or at the end of the text is the first field, followed by the fields of the rest. A single word is its own only field. |
| GoText.FieldsKeepInk | internal/cli/commands/memory.go:473 | The fields, laid end to end, are the text with its white space removed. |
| GoText.ContainsIffOccurs | internal/mcp/tools.go:655 | `Contains` holds exactly when the needle occurs at some position. |
| GoUuid.Parse | internal/cli/commands/annotation.go:55 | Exactly four forms are accepted, and each gives a canonical dashed lower-case UUID. A dashed string gives itself lower-cased. Any two ASCII characters around a dashed string give the inner part. A "urn:uuid:" prefix in any case gives the rest. 32 hex digits gain their dashes. |
| GoUuid.ParseIdempotent | internal/mcp/tools.go:1321-1323 | The canonical form parses to itself. |
| GoUuid.WrapperCharactersUnchecked | internal/cli/commands/annotation.go:55 | The 38-character form accepts any two characters around the dashed form, not only braces. |

## Left out

- **Standard input and output.** The scanner, its 8 MiB line cap, the buffered writer, flushing
  and the read-error exit are not modelled. Input is a sequence of lines and output a sequence
  of documents.
- **JSON text.** Parsing a line into a document and rendering a document as text are
  parameters of the server environment.
- **The -32603 "Internal error" fallback of `writeResponse`.** It is modelled only as `Emit`'s
  error branch for results that cannot be encoded.
- **Repeated keys that name one struct field.** A decoded object is a map without key order.
  When several keys fold to one field name, `GoJson.FieldMember` takes the exact key if present
  and otherwise the least key in code-point order. Go's `encoding/json` assigns them in document
  order, so the last one wins.
- **The tool dispatcher of the server.** `McpServer` takes the tool call as the environment
  function `callTool`, and its lemmas hold for any such function. That `callTool` is
  `McpDispatch.CallTool` with one client state per call is not stated, because a function
  cannot call a method. The two are related only through `ToolAnswers`, which states what
  `CallTool` answers.
- **64-bit overflow in the progress bar.** `progress * width` is computed without wrap-around.
  Only a stored progress beyond 2^60 would differ.
- **The API client.** It is a datatype of answer functions, one answer per request. Network
  behaviour and backend state are not modelled.
- **`config.LoadConfig` and `SaveConfig`.** The configured active project ID is an input, and
  the saved ID an output.
- **The `ToolDefinitions` catalogue** (internal/mcp/tools.go:21-312). It is static data and is
  passed to the server as a parameter.
- **Floating point.**
  - `toInt` of a non-whole float64 is truncated through a real-number model.
  - `GetContentStats`' percentage is not modelled.
  - `FormatNumber` from 1000 on (`formatFloat`, `formatIntWithDecimal`) is not modelled;
    `Limits.FormatNumber` requires a count below 1000.
- **nil versus empty slices.** These are distinguished only where the JSON encoding shows it
  (`StringsValue`).
- **Case mapping.** It covers ASCII plus the non-ASCII letters whose mapping lands in ASCII.
  Other Unicode case pairs are not mapped, so non-ASCII search terms are approximate.
- **`sort.Slice` instability.** The model picks one order the comparator allows, and the proved
  properties hold for any such order.
- **GORM.**
  - `LIKE` wildcards inside an argument are not modelled; the query is plain prefix matching.
  - Soft-deleted rows are left out of the tables.
  - Database errors and `updated_at` stamps are not modelled.
  - The `created_at DESC` order of `GetByTaskID` is modelled as table order.
  - The lookup by UUID (`GetByID`) always finds the first row with the canonical ID.
  - `First` orders by primary key; `ProjectCommands.FirstNamed` takes the first row in table
    order, which is the same order only when rows were inserted in key order.
- **Interactive prompts.** The interactive selections of start, done, progress and modify are
  not modelled. The delete confirmation is the `confirmed` parameter, false when the prompt
  fails.
- **Display.** The renderers, tabwriter output, terminal width, the tview application in
  `internal/tui/app.go` and command wiring are not modelled.
- **Fatal exits.** `task create` and the commands' `log.Fatalf` exits are not modelled.
- **Byte strings.** `truncateString` works on bytes; other strings are `seq<char>`, with byte
  lengths computed as UTF-8 (`ByteLen`).
- **Memory IDs** are assumed to be 36 characters long and task IDs at least 8, as
  `UUID.String()` guarantees; shorter IDs would make the source panic.
- **Schema `required` lists.** The catalogue's lists differ from the checks `CallTool` makes;
  only the checks are modelled.

## Findings

| source | as written | input that shows it | evidently intended | confidence | as-written member | corrected member |
|---|---|---|---|---|---|---|
| internal/constants/limits.go:56-58 | `formatInt` adds `i/10` to '0' as a rune. This is meant for 0..99, but `FormatNumber` passes every count up to 999 and negative counts too. | `FormatNumber(150)` gives "?0"; `FormatNumber(-5)` gives "0+" | The count's decimal digits, padded to two, with a sign for negatives | not executed | Limits.FormatNumberMisprints | Limits.FormatCount |
| internal/cli/commands/task.go:638-661 | The icon tables hold each emoji's UTF-8 bytes read back as Mac Roman text, so the list prints strings like U+F8FF followed by "üî¥". | priority "H" shows U+F8FF followed by "üî¥" rather than 🔴 | The emoji the terminal interface prints for the same lookups | not executed | TaskCommands.TaskIconsMisencoded | Tui.PriorityIcon |
