/** The stdio JSON-RPC 2.0 server of the MCP integration (internal/mcp/server.go).
  * Each input line is trimmed; blank lines are skipped; every other line is decoded as a
  * request and answered by at most one response line. The session keeps two facts: whether
  * the client has sent `notifications/initialized`, and the negotiated protocol version.
  *
  * What the server cannot see is passed in as an `Environment`: the JSON text parser, the
  * JSON text renderer, the tool catalogue, and the tool dispatcher. The dispatcher is told the
  * position of the line it answers, so the backend it stands for may answer differently from
  * one call to the next. */
module McpServer {
  import opened Wrappers
  import opened GoText
  import opened GoJson

  const DefaultProtocolVersion: string := "2025-11-25"

  const ParseErrorCode: int := -32700
  const InvalidParamsCode: int := -32602
  const MethodNotFoundCode: int := -32601
  const NotInitializedCode: int := -32002
  const InternalErrorCode: int := -32603

  datatype Session = Session(initialized: bool, protocolVersion: string)

  const InitialSession: Session := Session(false, DefaultProtocolVersion)

  datatype Environment = Environment(
    parse: string -> Option<Json>,
    render: Json -> string,
    toolDefinitions: Value,
    callTool: (nat, string, map<string, Value>) -> Result<Value, string>)

  /** jsonRPCRequest after decoding: `id` and `params` are kept raw, absent when missing. */
  datatype Request = Request(jsonrpc: string, id: Option<Json>, methodName: string, params: Option<Json>)

  datatype RpcError = RpcError(code: int, message: string)

  datatype Body = Reply(result: Value) | Fault(error: RpcError)

  datatype Response = Response(id: Option<Json>, body: Body)

  const NotInitialized: RpcError := RpcError(NotInitializedCode, "Server not initialized")

  // ----- decoding -----

  /** Every key naming the field `name` holds what a Go `string` field accepts: a string, or
    * null (which leaves "" in place). Any other member is a decoding error. */
  predicate StringField(m: map<string, Json>, name: string) {
    forall k :: k in FieldKeys(m, name) ==> m[k].JString? || m[k].JNull?
  }

  /** Every key naming the field `name` holds what a Go map field accepts: an object or null. */
  predicate ObjectField(m: map<string, Json>, name: string) {
    forall k :: k in FieldKeys(m, name) ==> m[k].JObject? || m[k].JNull?
  }

  /** The string a Go `string` field is left holding. */
  function StringOf(member: Option<Json>): string {
    if member.Some? && member.value.JString? then member.value.s else ""
  }

  /** json.Unmarshal of a document into jsonRPCRequest. Null leaves the zero request; an
    * object decodes when every key naming a string field holds a string or null; any other
    * document, or a member of the wrong type, is an error. Keys name fields whatever their
    * letter case; `id` and `params` (json.RawMessage) are kept raw, absent when no key names
    * them. */
  function DecodeRequest(doc: Json): (r: Option<Request>)
    ensures r.Some? <==>
      doc.JNull? || (doc.JObject? && StringField(doc.members, "jsonrpc") && StringField(doc.members, "method"))
    ensures r.Some? && doc.JObject? ==>
      r.value.id == FieldMember(doc.members, "id") && r.value.params == FieldMember(doc.members, "params")
      && r.value.methodName == StringOf(FieldMember(doc.members, "method"))
    ensures r.Some? && doc.JNull? ==> r.value == Request("", None, "", None)
  {
    match doc
    case JNull => Some(Request("", None, "", None))
    case JObject(m) =>
      if StringField(m, "jsonrpc") && StringField(m, "method") then
        Some(Request(StringOf(FieldMember(m, "jsonrpc")), FieldMember(m, "id"), StringOf(FieldMember(m, "method")),
          FieldMember(m, "params")))
      else None
    case _ => None
  }

  /** The `protocolVersion` an initialize request asks for; "" whenever decoding yields none
    * (missing params, a non-object, a non-string member), since the decoding error is ignored. */
  function RequestedVersion(params: Option<Json>): (v: string)
    ensures v != "" ==>
      (params.Some? && params.value.JObject?
       && FieldMember(params.value.members, "protocolVersion") == Some(JString(v)))
  {
    match params
    case Some(JObject(m)) => StringOf(FieldMember(m, "protocolVersion"))
    case _ => ""
  }

  /** json.Unmarshal of the params into toolCallParams: the tool name and its arguments.
    * Missing params are an error; null params give the empty call; an object decodes when the
    * keys naming `name` hold strings or null and those naming `arguments` objects or null. */
  function DecodeToolCall(params: Option<Json>): (r: Option<(string, map<string, Value>)>)
    ensures r.Some? <==>
      (params.Some? &&
       (params.value.JNull?
        || (params.value.JObject? && StringField(params.value.members, "name") && ObjectField(params.value.members, "arguments"))))
    ensures params == Some(JNull) ==> r == Some(("", map[]))
    ensures r.Some? && params.value.JObject? ==> r.value.0 == StringOf(FieldMember(params.value.members, "name"))
    ensures r.Some? && params.value.JObject? ==>
      match FieldMember(params.value.members, "arguments")
      case Some(JObject(a)) => Object(r.value.1) == Unmarshal(JObject(a))
      case _ => r.value.1 == map[]
  {
    match params
    case None => None
    case Some(JNull) => Some(("", map[]))
    case Some(JObject(m)) =>
      if StringField(m, "name") && ObjectField(m, "arguments") then
        var args := match FieldMember(m, "arguments")
          case Some(JObject(a)) => Unmarshal(JObject(a)).fields
          case _ => map[];
        Some((StringOf(FieldMember(m, "name")), args))
      else None
    case Some(_) => None
  }

  /** Two keys of one length that agree code point by code point once folded name the same
    * fields. */
  lemma SameFold(a: string, b: string)
    requires |a| == |b| && forall i :: 0 <= i < |a| ==> UpperChar(LowerChar(a[i])) == UpperChar(LowerChar(b[i]))
    ensures FoldName(a) == FoldName(b)
  {
  }

  /** A key that alone names a field and holds a string decodes into that field. */
  lemma OnlyKeyHoldsString(m: map<string, Json>, name: string, k: string)
    requires FieldKeys(m, name) == {k} && m[k].JString?
    ensures StringField(m, name) && StringOf(FieldMember(m, name)) == m[k].s
  {
    OnlyKeyNamesField(m, name, k);
  }

  /** The keys of {"jsonrpc": "2.0", "ID": 1, "Method": "ping"} naming each request field. */
  lemma CapitalizedRequestKeys(m: map<string, Json>)
    requires m == map["jsonrpc" := JString("2.0"), "ID" := JNumber(1.0), "Method" := JString("ping")]
    ensures FieldKeys(m, "jsonrpc") == {"jsonrpc"} && FieldKeys(m, "id") == {"ID"}
    ensures FieldKeys(m, "method") == {"Method"} && FieldKeys(m, "params") == {}
  {
    SameFold("ID", "id");
    SameFold("Method", "method");
    assert FoldName("Method")[0] == 'M' && FoldName("params")[0] == 'P';
  }

  /** Keys name the request's fields whatever their letter case: a request spelled with "ID" and
    * "Method" is the request spelled with "id" and "method". */
  lemma FieldNamesIgnoreCase()
    ensures DecodeRequest(JObject(map["jsonrpc" := JString("2.0"), "ID" := JNumber(1.0), "Method" := JString("ping")]))
      == Some(Request("2.0", Some(JNumber(1.0)), "ping", None))
  {
    var m := map["jsonrpc" := JString("2.0"), "ID" := JNumber(1.0), "Method" := JString("ping")];
    CapitalizedRequestKeys(m);
    OnlyKeyHoldsString(m, "jsonrpc", "jsonrpc");
    OnlyKeyHoldsString(m, "method", "Method");
    OnlyKeyNamesField(m, "id", "ID");
  }

  /** ... and a key "Method" holding a number is a decoding error. */
  lemma MistypedFieldRejected()
    ensures DecodeRequest(JObject(map["Method" := JNumber(5.0)])).None?
  {
    var bad := map["Method" := JNumber(5.0)];
    SameFold("Method", "method");
    assert "Method" in FieldKeys(bad, "method");
  }

  /** The same holds for the params: "ProtocolVersion" asks for a version. */
  lemma VersionNameIgnoresCase()
    ensures RequestedVersion(Some(JObject(map["ProtocolVersion" := JString("2024-11-05")]))) == "2024-11-05"
  {
    var init := map["ProtocolVersion" := JString("2024-11-05")];
    SameFold("ProtocolVersion", "protocolVersion");
    assert FieldKeys(init, "protocolVersion") == {"ProtocolVersion"};
    OnlyKeyNamesField(init, "protocolVersion", "ProtocolVersion");
  }

  /** ... and "Name" names the tool to call. */
  lemma ToolNameIgnoresCase()
    ensures DecodeToolCall(Some(JObject(map["Name" := JString("list_projects")]))) == Some(("list_projects", map[]))
  {
    var call := map["Name" := JString("list_projects")];
    SameFold("Name", "name");
    assert FieldKeys(call, "name") == {"Name"};
    assert FieldKeys(call, "arguments") == {};
    OnlyKeyHoldsString(call, "name", "Name");
  }

  // ----- results -----

  function InitializeResult(version: string): Value {
    Object(map[
      "protocolVersion" := Str(version),
      "capabilities" := Object(map["tools" := Object(map[])]),
      "serverInfo" := Object(map["name" := Str("ramorie"), "version" := Str("0.1.0")])])
  }

  /** A textContent struct: encoded as {"type": "text", "text": ...}. */
  function TextContent(text: string): Value {
    Record(Some(JObject(map["type" := JString("text"), "text" := JString(text)])))
  }

  /** wrapResultAsObject: a tool result as the fields of an object. Values of any other Go
    * type are encoded and, when the document is an array or an object, decoded again as
    * []interface{} or map[string]interface{}; a bool, number or string encodes to neither. */
  function WrapResultAsObject(result: Value): map<string, Value> {
    match result
    case Nil => map["data" := Nil]
    case List(items) => map["items" := result, "count" := Int(|items|)]
    case Object(fields) => fields
    case Record(encoding) =>
      (match encoding
       case Some(JArray(items)) => map["items" := Unmarshal(JArray(items)), "count" := Int(|items|)]
       case Some(JObject(members)) => map k | k in members :: Unmarshal(members[k])
       case _ => map["data" := result])
    case _ => map["data" := result]
  }

  /** {"data": v} encodes exactly when v does. */
  lemma DataEncoding(v: Value)
    ensures Marshal(Object(map["data" := v])) ==
      if Marshal(v).Some? then Some(JObject(map["data" := Marshal(v).value])) else None
  {
    var m := map["data" := v];
    if Marshal(v).Some? {
      assert Marshal(Object(m)).value.members == map["data" := Marshal(v).value];
    } else {
      assert !Marshal(m["data"]).Some?;
    }
  }

  /** {"items": v, "count": n} encodes exactly when v does. */
  lemma ItemsEncoding(v: Value, n: nat)
    ensures Marshal(Object(map["items" := v, "count" := Int(n)])) ==
      if Marshal(v).Some? then Some(JObject(map["items" := Marshal(v).value, "count" := JNumber(n as real)])) else None
  {
    var m := map["items" := v, "count" := Int(n)];
    assert Marshal(m["count"]) == Some(JNumber(n as real));
    if Marshal(v).Some? {
      assert Marshal(Object(m)).value.members == map["items" := Marshal(v).value, "count" := JNumber(n as real)];
    } else {
      assert !Marshal(m["items"]).Some?;
    }
  }

  /** On the wire, the wrapped result is an object: the result's own document when that is an
    * object, {"items", "count"} around an array, and {"data"} around anything else; and it can
    * be encoded exactly when the result can. */
  lemma WrapResultAsObjectEncoding(result: Value)
    ensures Marshal(Object(WrapResultAsObject(result))) ==
      match Marshal(result)
      case None => None
      case Some(JArray(items)) => Some(JObject(map["items" := JArray(items), "count" := JNumber(|items| as real)]))
      case Some(JObject(members)) => Some(JObject(members))
      case Some(j) => Some(JObject(map["data" := j]))
  {
    match result
    case List(items) =>
      ItemsEncoding(result, |items|);
    case Object(fields) =>
    case Record(encoding) =>
      match encoding {
        case None =>
          DataEncoding(result);
        case Some(JArray(items)) =>
          MarshalUnmarshal(JArray(items));
          ItemsEncoding(Unmarshal(JArray(items)), |items|);
        case Some(JObject(members)) =>
          MarshalUnmarshal(JObject(members));
          assert Object(WrapResultAsObject(result)) == Unmarshal(JObject(members));
        case Some(j) =>
          DataEncoding(result);
      }
    case _ =>
      DataEncoding(result);
  }


  /** The `result` of a tools/call response: the error's message with isError set, or the
    * wrapped result both as structured content and as its JSON text. */
  function ToolCallPayload(env: Environment, outcome: Result<Value, string>): Value {
    match outcome
    case Failure(message) =>
      Object(map["isError" := Bool(true), "content" := List([TextContent(message)])])
    case Success(result) =>
      var wrapped := WrapResultAsObject(result);
      var text := match Marshal(Object(wrapped)) case Some(j) => env.render(j) case None => "";
      Object(map[
        "isError" := Bool(false),
        "structuredContent" := Object(wrapped),
        "content" := List([TextContent(text)])])
  }

  // ----- one line -----

  datatype Line = Blank | Garbled | Call(req: Request)

  /** What a raw input line is: blank after trimming, not a request, or a request. */
  function Classify(env: Environment, line: string): Line {
    var t := TrimSpace(line);
    if t == "" then Blank
    else match env.parse(t)
      case None => Garbled
      case Some(doc) => match DecodeRequest(doc)
        case None => Garbled
        case Some(req) => Call(req)
  }

  predicate IsInitializedNotification(env: Environment, line: string) {
    var c := Classify(env, line);
    c.Call? && c.req.methodName == "notifications/initialized"
  }

  /** A request line answered by the method switch. */
  function Dispatch(s: Session, env: Environment, k: nat, req: Request): (Session, Option<Response>) {
    if req.methodName == "initialize" then
      var requested := TrimSpace(RequestedVersion(req.params));
      var version := if requested != "" then requested else s.protocolVersion;
      (s.(protocolVersion := version), Some(Response(req.id, Reply(InitializeResult(version)))))
    else if req.methodName == "notifications/initialized" then
      (s.(initialized := true), None)
    else if req.methodName == "tools/list" then
      if !s.initialized then (s, Some(Response(req.id, Fault(NotInitialized))))
      else (s, Some(Response(req.id, Reply(Object(map["tools" := env.toolDefinitions])))))
    else if req.methodName == "tools/call" then
      if !s.initialized then (s, Some(Response(req.id, Fault(NotInitialized))))
      else
        (match DecodeToolCall(req.params)
         case None => (s, Some(Response(req.id, Fault(RpcError(InvalidParamsCode, "Invalid params")))))
         case Some(call) => (s, Some(Response(req.id, Reply(ToolCallPayload(env, env.callTool(k, call.0, call.1)))))))
    else if req.methodName == "ping" then
      (s, Some(Response(req.id, Reply(Object(map[])))))
    else
      (s, Some(Response(req.id, Fault(RpcError(MethodNotFoundCode, "Method not found")))))
  }

  /** The `k`-th input line read in session `s`: the next session and the response, if any. */
  function Step(s: Session, env: Environment, k: nat, line: string): (Session, Option<Response>) {
    match Classify(env, line)
    case Blank => (s, None)
    case Garbled => (s, Some(Response(None, Fault(RpcError(ParseErrorCode, "Parse error")))))
    case Call(req) => Dispatch(s, env, k, req)
  }

  function OptionToSeq<T>(o: Option<T>): seq<T> {
    if o.Some? then [o.value] else []
  }

  /** The session after `lines` and the responses written, in order. */
  function Run(s: Session, env: Environment, lines: seq<string>): (Session, seq<Response>)
    decreases |lines|
  {
    if lines == [] then (s, [])
    else
      var before := Run(s, env, lines[..|lines| - 1]);
      var after := Step(before.0, env, |lines| - 1, lines[|lines| - 1]);
      (after.0, before.1 + OptionToSeq(after.1))
  }

  // ----- the written line -----

  const InternalErrorLine: Json :=
    JObject(map["jsonrpc" := JString("2.0"),
                "error" := JObject(map["code" := JNumber(InternalErrorCode as real), "message" := JString("Internal error")])])

  /** writeResponse: the document written for a response. `id` is left out when the request had
    * none; `result` when it is nil; a response that cannot be encoded is replaced by the
    * fixed -32603 line. */
  function Emit(r: Response): (doc: Json)
    ensures doc.JObject? && "jsonrpc" in doc.members && doc.members["jsonrpc"] == JString("2.0")
    ensures "error" in doc.members <==> r.body.Fault? || Marshal(r.body.result).None?
    ensures r.body.Fault? ==>
      (doc.members["error"] == JObject(map["code" := JNumber(r.body.error.code as real), "message" := JString(r.body.error.message)]))
    ensures r.body.Reply? && Marshal(r.body.result).None? ==> doc == InternalErrorLine
    ensures "result" in doc.members <==> r.body.Reply? && Marshal(r.body.result).Some? && !r.body.result.Nil?
    ensures "result" in doc.members ==> Marshal(r.body.result) == Some(doc.members["result"])
    ensures "id" in doc.members <==> r.id.Some? && (r.body.Fault? || Marshal(r.body.result).Some?)
    ensures "id" in doc.members ==> doc.members["id"] == r.id.value
  {
    var head := if r.id.Some? then map["jsonrpc" := JString("2.0"), "id" := r.id.value] else map["jsonrpc" := JString("2.0")];
    match r.body
    case Fault(e) =>
      JObject(head["error" := JObject(map["code" := JNumber(e.code as real), "message" := JString(e.message)])])
    case Reply(v) =>
      match Marshal(v)
      case None => InternalErrorLine
      case Some(j) => if v.Nil? then JObject(head) else JObject(head["result" := j])
  }

  function Wire(rs: seq<Response>): (out: seq<Json>)
    ensures |out| == |rs| && forall i :: 0 <= i < |rs| ==> out[i] == Emit(rs[i])
  {
    seq(|rs|, i requires 0 <= i < |rs| => Emit(rs[i]))
  }

  // ----- the loop -----

  /** Running one more line takes one more step from where the shorter run ended. */
  lemma RunOneMore(s: Session, env: Environment, input: seq<string>, i: nat)
    requires i < |input|
    ensures var before := Run(s, env, input[..i]);
      var after := Step(before.0, env, i, input[i]);
      Run(s, env, input[..i + 1]) == (after.0, before.1 + OptionToSeq(after.1))
  {
    assert input[..i + 1][..i] == input[..i] && input[..i + 1][i] == input[i];
  }

  /** Writing the responses of a longer run writes one more line, or none. */
  lemma WireOneMore(done: seq<Response>, reply: Option<Response>)
    ensures Wire(done + OptionToSeq(reply)) == Wire(done) + (if reply.Some? then [Emit(reply.value)] else [])
  {
    if reply.None? {
      assert done + OptionToSeq(reply) == done;
    }
  }

  /** The loop body for one line of input. */
  method ServeLine(initialized: bool, protocolVersion: string, env: Environment, i: nat, input: string)
    returns (initialized': bool, protocolVersion': string, reply: Option<Response>)
    ensures (Session(initialized', protocolVersion'), reply) == Step(Session(initialized, protocolVersion), env, i, input)
  {
    initialized', protocolVersion', reply := initialized, protocolVersion, None;
    var line := TrimSpace(input);
    if line != "" {
      var doc := env.parse(line);
      var decoded := if doc.Some? then DecodeRequest(doc.value) else None;
      if decoded.None? {
        reply := Some(Response(None, Fault(RpcError(ParseErrorCode, "Parse error"))));
      } else {
        initialized', protocolVersion', reply := HandleRequest(initialized, protocolVersion, env, i, decoded.value);
      }
    }
  }

  /** ServeStdio over the lines of standard input: without a client it fails at once; with one
    * it writes the encoded responses of `Run` from the initial session. */
  method ServeStdio(hasClient: bool, env: Environment, input: seq<string>) returns (err: Option<string>, output: seq<Json>)
    ensures !hasClient ==> err == Some("api client is required") && output == []
    ensures hasClient ==> err == None && output == Wire(Run(InitialSession, env, input).1)
  {
    if !hasClient {
      return Some("api client is required"), [];
    }
    var initialized := false;
    var protocolVersion := DefaultProtocolVersion;
    err, output := None, [];
    var i := 0;
    while i < |input|
      invariant 0 <= i <= |input|
      invariant Run(InitialSession, env, input[..i]).0 == Session(initialized, protocolVersion)
      invariant output == Wire(Run(InitialSession, env, input[..i]).1)
    {
      ghost var done := Run(InitialSession, env, input[..i]).1;
      var reply;
      initialized, protocolVersion, reply := ServeLine(initialized, protocolVersion, env, i, input[i]);
      RunOneMore(InitialSession, env, input, i);
      WireOneMore(done, reply);
      if reply.Some? {
        output := output + [Emit(reply.value)];
      }
      i := i + 1;
    }
    assert input[..i] == input;
  }

  /** The method switch of the loop body, on the loop's two session variables. */
  method HandleRequest(initialized: bool, protocolVersion: string, env: Environment, k: nat, req: Request)
    returns (initialized': bool, protocolVersion': string, reply: Option<Response>)
    ensures (Session(initialized', protocolVersion'), reply) == Dispatch(Session(initialized, protocolVersion), env, k, req)
  {
    initialized', protocolVersion', reply := initialized, protocolVersion, None;
    if req.methodName == "initialize" {
      var requested := TrimSpace(RequestedVersion(req.params));
      if requested != "" {
        protocolVersion' := requested;
      }
      reply := Some(Response(req.id, Reply(InitializeResult(protocolVersion'))));
    } else if req.methodName == "notifications/initialized" {
      initialized' := true;
    } else if req.methodName == "tools/list" {
      if !initialized {
        reply := Some(Response(req.id, Fault(NotInitialized)));
      } else {
        reply := Some(Response(req.id, Reply(Object(map["tools" := env.toolDefinitions]))));
      }
    } else if req.methodName == "tools/call" {
      if !initialized {
        reply := Some(Response(req.id, Fault(NotInitialized)));
      } else {
        var call := DecodeToolCall(req.params);
        if call.None? {
          reply := Some(Response(req.id, Fault(RpcError(InvalidParamsCode, "Invalid params"))));
        } else {
          var outcome := env.callTool(k, call.value.0, call.value.1);
          reply := Some(Response(req.id, Reply(ToolCallPayload(env, outcome))));
        }
      }
    } else if req.methodName == "ping" {
      reply := Some(Response(req.id, Reply(Object(map[]))));
    } else {
      reply := Some(Response(req.id, Fault(RpcError(MethodNotFoundCode, "Method not found"))));
    }
  }

  // ----- properties -----

  /** A blank line is skipped: no response, no change to the session. */
  lemma BlankLineSkipped(s: Session, env: Environment, k: nat, line: string)
    requires AllSpace(line)
    ensures Step(s, env, k, line) == (s, None)
  {
  }

  /** A line that is not a request gets one -32700 response without an id, and changes nothing. */
  lemma GarbledLineAnswered(s: Session, env: Environment, k: nat, line: string)
    requires !AllSpace(line)
    requires env.parse(TrimSpace(line)).None? || DecodeRequest(env.parse(TrimSpace(line)).value).None?
    ensures Step(s, env, k, line) == (s, Some(Response(None, Fault(RpcError(ParseErrorCode, "Parse error")))))
  {
  }

  /** Until the client has sent notifications/initialized, tools/list and tools/call are
    * refused with -32002, echoing the request's id. */
  lemma ToolsGatedBeforeInitialization(s: Session, env: Environment, k: nat, line: string)
    requires !s.initialized
    requires Classify(env, line).Call?
    requires Classify(env, line).req.methodName in {"tools/list", "tools/call"}
    ensures Step(s, env, k, line) == (s, Some(Response(Classify(env, line).req.id, Fault(NotInitialized))))
  {
  }

  /** Every request other than the notification is answered once, with the request's own id. */
  lemma RequestAnsweredWithItsId(s: Session, env: Environment, k: nat, line: string)
    requires Classify(env, line).Call?
    ensures Step(s, env, k, line).1.Some? <==> !IsInitializedNotification(env, line)
    ensures Step(s, env, k, line).1.Some? ==> Step(s, env, k, line).1.value.id == Classify(env, line).req.id
  {
    if Classify(env, line).Call? {
      DispatchShape(s, env, k, Classify(env, line).req);
    }
  }

  /** ping answers {} and a method outside the switch answers -32601, whatever the session. */
  lemma PingAndUnknownMethods(s: Session, env: Environment, k: nat, line: string)
    requires Classify(env, line).Call?
    ensures var req := Classify(env, line).req;
      req.methodName == "ping" ==> Step(s, env, k, line) == (s, Some(Response(req.id, Reply(Object(map[])))))
    ensures var req := Classify(env, line).req;
      req.methodName !in {"initialize", "notifications/initialized", "tools/list", "tools/call", "ping"} ==>
        Step(s, env, k, line) == (s, Some(Response(req.id, Fault(RpcError(MethodNotFoundCode, "Method not found")))))
  {
  }

  /** Only initialize can change the protocol version: to the trimmed version it asks for,
    * when that is not blank. */
  lemma VersionNegotiation(s: Session, env: Environment, k: nat, line: string)
    ensures var c := Classify(env, line);
      Step(s, env, k, line).0.protocolVersion ==
        if c.Call? && c.req.methodName == "initialize" && TrimSpace(RequestedVersion(c.req.params)) != ""
        then TrimSpace(RequestedVersion(c.req.params)) else s.protocolVersion
  {
    if Classify(env, line).Call? {
      DispatchShape(s, env, k, Classify(env, line).req);
    }
  }

  /** A tools/call that the backend answers with a result gets isError false, an object as
    * structured content (the result's own document if that is an object), and that object's
    * JSON text as its one text content. */
  lemma ToolCallSuccessEnvelope(s: Session, env: Environment, k: nat, line: string, name: string,
                                args: map<string, Value>, result: Value, doc: Json)
    requires s.initialized
    requires Classify(env, line).Call? && Classify(env, line).req.methodName == "tools/call"
    requires DecodeToolCall(Classify(env, line).req.params) == Some((name, args))
    requires env.callTool(k, name, args) == Success(result)
    requires Marshal(result) == Some(doc)
    ensures var r := Step(s, env, k, line).1;
      r.Some? && r.value.body.Reply? && r.value.body.result.Object?
      && var payload := r.value.body.result.fields;
      payload["isError"] == Bool(false)
      && Marshal(payload["structuredContent"]).Some?
      && var content := Marshal(payload["structuredContent"]).value;
      content.JObject?
      && (doc.JObject? ==> content == doc)
      && payload["content"] == List([TextContent(env.render(content))])
  {
    var req := Classify(env, line).req;
    assert Step(s, env, k, line).1 == Some(Response(req.id, Reply(ToolCallPayload(env, Success(result)))));
    WrapResultAsObjectEncoding(result);
  }

  /** A tools/call the backend refuses gets isError true and the error message as its text. */
  lemma ToolCallErrorEnvelope(s: Session, env: Environment, k: nat, line: string, name: string,
                              args: map<string, Value>, message: string)
    requires s.initialized
    requires Classify(env, line).Call? && Classify(env, line).req.methodName == "tools/call"
    requires DecodeToolCall(Classify(env, line).req.params) == Some((name, args))
    requires env.callTool(k, name, args) == Failure(message)
    ensures Step(s, env, k, line).1 == Some(Response(Classify(env, line).req.id,
      Reply(Object(map["isError" := Bool(true), "content" := List([TextContent(message)])]))))
  {
  }

  /** What the method switch does to the session and whether it answers, for every method. */
  lemma DispatchShape(s: Session, env: Environment, k: nat, req: Request)
    ensures var (s', reply) := Dispatch(s, env, k, req);
      (reply.Some? <==> req.methodName != "notifications/initialized")
      && (reply.Some? ==> reply.value.id == req.id)
      && s'.initialized == (s.initialized || req.methodName == "notifications/initialized")
      && s'.protocolVersion ==
        if req.methodName == "initialize" && TrimSpace(RequestedVersion(req.params)) != ""
        then TrimSpace(RequestedVersion(req.params)) else s.protocolVersion
  {
  }

  /** One line sets the initialized flag exactly when it is the notification, and never clears it. */
  lemma StepInitialized(s: Session, env: Environment, k: nat, line: string)
    ensures Step(s, env, k, line).0.initialized == (s.initialized || IsInitializedNotification(env, line))
  {
    if Classify(env, line).Call? {
      DispatchShape(s, env, k, Classify(env, line).req);
    }
  }

  /** The last line of a run sets the flag exactly when it is the notification. */
  lemma RunInitialized(s: Session, env: Environment, lines: seq<string>)
    requires lines != []
    ensures Run(s, env, lines).0.initialized ==
      (Run(s, env, lines[..|lines| - 1]).0.initialized || IsInitializedNotification(env, lines[|lines| - 1]))
  {
    StepInitialized(Run(s, env, lines[..|lines| - 1]).0, env, |lines| - 1, lines[|lines| - 1]);
  }

  /** Some line satisfies `p`, scanning from the last line back. */
  predicate AnyLine(p: string -> bool, lines: seq<string>)
    decreases |lines|
  {
    lines != [] && (AnyLine(p, lines[..|lines| - 1]) || p(lines[|lines| - 1]))
  }

  lemma {:induction false} AnyLineIff(p: string -> bool, lines: seq<string>)
    ensures AnyLine(p, lines) <==> exists i :: 0 <= i < |lines| && p(lines[i])
    decreases |lines|
  {
    if lines != [] {
      var prefix := lines[..|lines| - 1];
      AnyLineIff(p, prefix);
      if exists i :: 0 <= i < |prefix| && p(prefix[i]) {
        var i :| 0 <= i < |prefix| && p(prefix[i]);
        assert lines[i] == prefix[i];
      }
      if exists i :: 0 <= i < |lines| && p(lines[i]) {
        var i :| 0 <= i < |lines| && p(lines[i]);
        if i < |prefix| {
          assert prefix[i] == lines[i];
        }
      }
    }
  }

  predicate Notified(env: Environment, lines: seq<string>) {
    AnyLine(line => IsInitializedNotification(env, line), lines)
  }

  lemma {:induction false} InitializedAfterNotified(s: Session, env: Environment, lines: seq<string>)
    ensures Run(s, env, lines).0.initialized == (s.initialized || Notified(env, lines))
    decreases |lines|
  {
    if lines != [] {
      InitializedAfterNotified(s, env, lines[..|lines| - 1]);
      RunInitialized(s, env, lines);
    }
  }

  /** The session is initialized after some lines exactly when it was before or one of the
    * lines is the initialized notification: the flag is never cleared. */
  lemma InitializedIffNotified(s: Session, env: Environment, lines: seq<string>)
    ensures Run(s, env, lines).0.initialized <==>
      s.initialized || exists i :: 0 <= i < |lines| && IsInitializedNotification(env, lines[i])
  {
    InitializedAfterNotified(s, env, lines);
    AnyLineIff(line => IsInitializedNotification(env, line), lines);
  }

  /** A usable protocol version: not blank and without surrounding white space. */
  predicate UsableVersion(v: string) {
    v != "" && TrimSpace(v) == v
  }

  /** One line keeps the version usable. */
  lemma StepKeepsVersionUsable(s: Session, env: Environment, k: nat, line: string)
    requires UsableVersion(s.protocolVersion)
    ensures UsableVersion(Step(s, env, k, line).0.protocolVersion)
  {
    VersionNegotiation(s, env, k, line);
    var c := Classify(env, line);
    if c.Call? && c.req.methodName == "initialize" {
      TrimSpaceIdempotent(RequestedVersion(c.req.params));
    }
  }

  /** The negotiated version stays usable, whatever the client sends. */
  lemma {:induction false} VersionStaysUsable(s: Session, env: Environment, lines: seq<string>)
    requires UsableVersion(s.protocolVersion)
    ensures UsableVersion(Run(s, env, lines).0.protocolVersion)
    decreases |lines|
  {
    if lines != [] {
      VersionStaysUsable(s, env, lines[..|lines| - 1]);
      StepKeepsVersionUsable(Run(s, env, lines[..|lines| - 1]).0, env, |lines| - 1, lines[|lines| - 1]);
    }
  }

  /** The lines that get a response: every non-blank line except the initialized notification. */
  predicate Answered(env: Environment, line: string) {
    Classify(env, line) != Blank && !IsInitializedNotification(env, line)
  }

  function CountAnswered(env: Environment, lines: seq<string>): nat {
    if lines == [] then 0
    else CountAnswered(env, lines[..|lines| - 1]) + (if Answered(env, lines[|lines| - 1]) then 1 else 0)
  }

  /** A line gets a response exactly when it is answered. */
  lemma StepAnswers(s: Session, env: Environment, k: nat, line: string)
    ensures Step(s, env, k, line).1.Some? <==> Answered(env, line)
  {
    if Classify(env, line).Call? {
      DispatchShape(s, env, k, Classify(env, line).req);
    }
  }

  /** One response per answered line, and none for the others. */
  lemma {:induction false} OneResponsePerAnsweredLine(s: Session, env: Environment, lines: seq<string>)
    ensures |Run(s, env, lines).1| == CountAnswered(env, lines)
    decreases |lines|
  {
    if lines != [] {
      OneResponsePerAnsweredLine(s, env, lines[..|lines| - 1]);
      StepAnswers(Run(s, env, lines[..|lines| - 1]).0, env, |lines| - 1, lines[|lines| - 1]);
    }
  }

  /** A line other than the notification, before initialization, does not consult the backend. */
  lemma StepBackendUnused(s: Session, env: Environment, k: nat, line: string,
    otherTools: (nat, string, map<string, Value>) -> Result<Value, string>, otherDefinitions: Value)
    requires !s.initialized && !IsInitializedNotification(env, line)
    ensures Step(s, env.(callTool := otherTools, toolDefinitions := otherDefinitions), k, line) == Step(s, env, k, line)
  {
    assert Classify(env.(callTool := otherTools, toolDefinitions := otherDefinitions), line) == Classify(env, line);
  }

  /** Before initialization the backend is never consulted: the responses do not depend on the
    * tool dispatcher or the tool catalogue. */
  lemma {:induction false} BackendUnusedBeforeInitialization(
    s: Session, env: Environment, lines: seq<string>,
    otherTools: (nat, string, map<string, Value>) -> Result<Value, string>, otherDefinitions: Value)
    requires !s.initialized
    requires forall i :: 0 <= i < |lines| ==> !IsInitializedNotification(env, lines[i])
    ensures Run(s, env.(callTool := otherTools, toolDefinitions := otherDefinitions), lines) == Run(s, env, lines)
    decreases |lines|
  {
    if lines != [] {
      var prefix := lines[..|lines| - 1];
      BackendUnusedBeforeInitialization(s, env, prefix, otherTools, otherDefinitions);
      InitializedIffNotified(s, env, prefix);
      assert forall i :: 0 <= i < |prefix| ==> prefix[i] == lines[i];
      StepBackendUnused(Run(s, env, prefix).0, env, |lines| - 1, lines[|lines| - 1], otherTools, otherDefinitions);
    }
  }
}
