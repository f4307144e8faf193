/** JSON values, JSON-RPC 2.0 envelopes, and the parts of MCP that the browser relay looks at. */
module Mcp {
  import opened Common

  type Byte = bv8

  type Bytes = seq<Byte>

  datatype Value =
    | Null
    | Bool(b: bool)
    | Int(n: int)
    | Float(x: real)
    | Str(s: string)
    | Arr(items: seq<Value>)
    | Obj(fields: map<string, Value>)

  /** The only request identities the relay accepts: integers and strings. */
  datatype Id = IntId(n: int) | StrId(s: string)

  /** What a request asks for, as far as the relay distinguishes requests. */
  datatype Call =
    | Initialize(params: Option<Value>)
    | Ping
    | ListTools
    | Close
    | Release(wellFormed: bool)
    | Other

  /** `Cancelled(None)` is a cancellation whose target cannot be read. */
  datatype Notice = Cancelled(target: Option<Id>) | Initialized | Plain

  datatype Identity = Identity(version: string, capabilities: map<string, Value>, server: Value)

  /** A reply body: what it would mean as an initialize, tools/list or browser_close reply. */
  datatype Body =
    | Failure
    | Success(identity: Option<Identity>, inventory: Option<Value>, closed: bool)

  /** A JSON-RPC 2.0 message: section 4 (request), 4.1 (notification) and 5 (response). */
  datatype Message =
    | Request(id: Id, call: Call)
    | Notification(notice: Notice)
    | Response(ident: Option<Id>, body: Body)

  /** A decoded message together with the bytes of its line. */
  datatype Frame = Frame(message: Message, raw: Bytes)

  /** The messages that the relay writes itself. */
  datatype Local =
    | ErrorReply(id: Id, code: int, text: string)
    | PingReply(id: Id)
    | ReleaseReply(id: Id)
    | ToolsReply(id: Id, inventory: Value)
    | PrivateInitialize(id: Id, params: Value)

  function Field(v: Value, key: string): Option<Value> {
    if v.Obj? && key in v.fields then Some(v.fields[key]) else None
  }

  /** Python's `get` without a default: a missing member reads as null. */
  function Get(v: Value, key: string): Value {
    var f := Field(v, key);
    if f.Some? then f.value else Null
  }

  function RequestId(v: Value): Option<Id> {
    match v
    case Int(n) => Some(IntId(n))
    case Str(s) => Some(StrId(s))
    case _ => None
  }

  /** `browser_release` takes no target and no arguments. */
  predicate ReleaseWellFormed(params: map<string, Value>) {
    && params.Keys <= {"name", "arguments", "_meta"}
    && ("arguments" in params ==> params["arguments"] == Obj(map[]))
    && ("_meta" in params ==> params["_meta"].Obj?)
  }

  function ClassifyCall(name: string, params: Option<Value>): Call {
    if name == "initialize" then Initialize(if params == Some(Null) then None else params)
    else if name == "ping" then Ping
    else if name == "tools/list" then ListTools
    else if name == "tools/call" && params.Some? && params.value.Obj? then
      var tool := Get(params.value, "name");
      if tool == Str("browser_release") then Release(ReleaseWellFormed(params.value.fields))
      else if tool == Str("browser_close") then Close
      else Other
    else Other
  }

  function ClassifyNotice(name: string, params: Option<Value>): Notice {
    if name == "notifications/cancelled" then
      if params.None? || !params.value.Obj? then Cancelled(None)
      else Cancelled(RequestId(Get(params.value, "requestId")))
    else if name == "notifications/initialized" then Initialized
    else Plain
  }

  function Negotiated(result: Value): Option<Identity> {
    var version, capabilities := Get(result, "protocolVersion"), Get(result, "capabilities");
    if version.Str? && capabilities.Obj? then
      Some(Identity(version.s, capabilities.fields, Get(result, "serverInfo")))
    else None
  }

  const RELEASE_TOOL: Value := Obj(map[
    "name" := Str("browser_release"),
    "description" := Str("Permanently close only this browser MCP connection and its temporary resources. Export selected evidence first. Future browser use requires a fresh thread. browser_close instead keeps this connection reusable."),
    "inputSchema" := Obj(map["type" := Str("object"), "properties" := Obj(map[]), "additionalProperties" := Bool(false)])])

  predicate Advertises(tools: seq<Value>, name: string) {
    exists i :: 0 <= i < |tools| && Get(tools[i], "name") == Str(name)
  }

  /** A tool list of objects, none of which is the relay's own tool. */
  predicate Extensible(result: Value) {
    && Get(result, "tools").Arr?
    && (forall i :: 0 <= i < |Get(result, "tools").items| ==> Get(result, "tools").items[i].Obj?)
    && !Advertises(Get(result, "tools").items, "browser_release")
  }

  /** The tool list with the relay's own tool appended and nothing else changed; `None` is a protocol error. */
  function Inventory(result: Value): (r: Option<Value>)
    ensures r.Some? <==> Extensible(result)
    ensures r.Some? ==> Get(r.value, "tools") == Arr(Get(result, "tools").items + [RELEASE_TOOL])
    ensures r.Some? ==> forall key :: key != "tools" ==> Field(r.value, key) == Field(result, key)
  {
    var tools := Get(result, "tools");
    if !result.Obj? || !tools.Arr? || (exists i :: 0 <= i < |tools.items| && !tools.items[i].Obj?)
       || Advertises(tools.items, "browser_release") then None
    else Some(Obj(result.fields["tools" := Arr(tools.items + [RELEASE_TOOL])]))
  }

  /** A `browser_close` result that lets the generation be retired. */
  predicate CloseSucceeded(result: Value) {
    && Get(result, "content").Arr?
    && (Field(result, "isError").None? || Field(result, "isError") == Some(Bool(false)))
  }

  /** The framer's envelope check and classification: `None` is a protocol error. */
  function Envelope(v: Value): Option<Message> {
    if Get(v, "jsonrpc") != Str("2.0") then None
    else
      var name, id := Field(v, "method"), Field(v, "id");
      var result, error := Field(v, "result"), Field(v, "error");
      if name.Some? then
        if !name.value.Str? then None
        else if id.None? then Some(Notification(ClassifyNotice(name.value.s, Field(v, "params"))))
        else if RequestId(id.value).None? then None
        else Some(Request(RequestId(id.value).value, ClassifyCall(name.value.s, Field(v, "params"))))
      else if id.None? || result.Some? == error.Some? then None
      else if error.Some? then Some(Response(RequestId(id.value), Failure))
      else Some(Response(RequestId(id.value),
                         Success(Negotiated(result.value), Inventory(result.value), CloseSucceeded(result.value))))
  }

  /** Decoding of one line and encoding of one relay message. JSON text itself is abstract. */
  datatype Codec = Codec(decode: Bytes -> Option<Message>, encode: Local -> Bytes)

  function Protocol(parse: Bytes -> Option<Value>, encode: Local -> Bytes): Codec {
    Codec(raw => var v := parse(raw); if v.None? then None else Envelope(v.value), encode)
  }
}
