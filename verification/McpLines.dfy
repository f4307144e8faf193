/** The lines that the protocol distinguishes, written out as JSON, and what the relay reads them as. */
module McpLines {
  import opened Common
  import opened Mcp

  function IdValue(id: Id): Value {
    match id
    case IntId(n) => Int(n)
    case StrId(s) => Str(s)
  }

  lemma IdRoundTrip(id: Id)
    ensures RequestId(IdValue(id)) == Some(id)
  {
  }

  /** The requests of a client. `arguments` of a tool call may be left out. */
  datatype Asking =
    | AskInitialize(params: map<string, Value>)
    | AskPing
    | AskTools
    | AskTool(name: string, arguments: Option<map<string, Value>>)

  function ToolParams(name: string, arguments: Option<map<string, Value>>): map<string, Value> {
    if arguments.None? then map["name" := Str(name)] else map["name" := Str(name), "arguments" := Obj(arguments.value)]
  }

  function Line(name: string, params: Option<map<string, Value>>): map<string, Value> {
    if params.None? then map["jsonrpc" := Str("2.0"), "method" := Str(name)]
    else map["jsonrpc" := Str("2.0"), "method" := Str(name), "params" := Obj(params.value)]
  }

  function RequestLine(id: Id, a: Asking): Value {
    var fields :=
      match a
      case AskInitialize(params) => Line("initialize", Some(params))
      case AskPing => Line("ping", None)
      case AskTools => Line("tools/list", None)
      case AskTool(name, arguments) => Line("tools/call", Some(ToolParams(name, arguments)));
    Obj(fields["id" := IdValue(id)])
  }

  /** A request is read as what it asks for: a close, a release with or without arguments, or a call to pass on. */
  lemma RequestsAreRead(id: Id, a: Asking)
    ensures Envelope(RequestLine(id, a)) == Some(Request(id,
      match a
      case AskInitialize(params) => Initialize(Some(Obj(params)))
      case AskPing => Ping
      case AskTools => ListTools
      case AskTool(name, arguments) =>
        if name == "browser_close" then Close
        else if name == "browser_release" then Release(arguments.None? || arguments == Some(map[]))
        else Other))
  {
    IdRoundTrip(id);
    if a.AskTool? { ToolIsRead(a.name, a.arguments); }
  }

  lemma ToolIsRead(name: string, arguments: Option<map<string, Value>>)
    ensures ClassifyCall("tools/call", Some(Obj(ToolParams(name, arguments)))) ==
      if name == "browser_close" then Close
      else if name == "browser_release" then Release(arguments.None? || arguments == Some(map[]))
      else Other
  {
    var params := ToolParams(name, arguments);
    assert Get(Obj(params), "name") == Str(name);
    assert ReleaseWellFormed(params) <==> arguments.None? || arguments == Some(map[]);
  }

  /** A release that names a target besides is refused. */
  lemma ReleaseTakesNoTarget(id: Id, key: string, v: Value)
    requires key !in {"name", "arguments", "_meta"}
    ensures var line := Obj(Line("tools/call", Some(ToolParams("browser_release", None)[key := v]))["id" := IdValue(id)]);
      Envelope(line) == Some(Request(id, Release(false)))
  {
    IdRoundTrip(id);
    var params := ToolParams("browser_release", None)[key := v];
    assert Get(Obj(params), "name") == Str("browser_release");
    assert key in params && !ReleaseWellFormed(params);
  }

  /** The notifications of a client; a cancellation names its request. */
  datatype Telling = TellInitialized | TellCancelled(id: Id) | TellOther(name: string)

  function NoticeLine(t: Telling): Value {
    match t
    case TellInitialized => Obj(Line("notifications/initialized", None))
    case TellCancelled(id) => Obj(Line("notifications/cancelled", Some(map["requestId" := IdValue(id)])))
    case TellOther(name) => Obj(Line(name, None))
  }

  lemma NoticesAreRead(t: Telling)
    requires t.TellOther? ==> t.name !in {"notifications/initialized", "notifications/cancelled"}
    ensures Envelope(NoticeLine(t)) == Some(Notification(
      match t
      case TellInitialized => Initialized
      case TellCancelled(id) => Cancelled(Some(id))
      case TellOther(_) => Plain))
  {
    if t.TellCancelled? { IdRoundTrip(t.id); }
  }

  /** A reply: a result or an error. */
  function ReplyLine(id: Id, result: Option<Value>): Value {
    if result.Some? then Obj(map["jsonrpc" := Str("2.0"), "id" := IdValue(id), "result" := result.value])
    else Obj(map["jsonrpc" := Str("2.0"), "id" := IdValue(id), "error" := Obj(map[])])
  }

  function CloseResult(content: Option<seq<Value>>, isError: Option<bool>): Value {
    var fields := if content.Some? then map["content" := Arr(content.value)] else map[];
    Obj(if isError.Some? then fields["isError" := Bool(isError.value)] else fields)
  }

  /** The browser is closed exactly when the result has content and does not say that it is an error. */
  lemma CloseResultsAreRead(id: Id, content: Option<seq<Value>>, isError: Option<bool>)
    ensures var m := Envelope(ReplyLine(id, Some(CloseResult(content, isError))));
      && m.Some? && m.value.Response? && m.value.ident == Some(id) && m.value.body.Success?
      && (m.value.body.closed <==> content.Some? && isError != Some(true))
    ensures Envelope(ReplyLine(id, None)) == Some(Response(Some(id), Failure))
  {
    IdRoundTrip(id);
  }

  /** The identity that a backend negotiates is the three members of its result that name it. */
  lemma IdentitiesAreRead(id: Id, version: string, capabilities: map<string, Value>, server: Value)
    ensures var result := Obj(map["protocolVersion" := Str(version), "capabilities" := Obj(capabilities), "serverInfo" := server]);
      var m := Envelope(ReplyLine(id, Some(result)));
      m.Some? && m.value.Response? && m.value.body.Success? && m.value.body.identity == Some(Identity(version, capabilities, server))
  {
    IdRoundTrip(id);
  }
}
