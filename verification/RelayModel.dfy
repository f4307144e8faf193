/**
 The browser relay as a state machine on values: one function per handler of `Relay`,
 each returning the state it leaves, whether or not it raised.
 The component `history` records what a run has done; no handler branches on it.
 */
module RelayModel {
  import opened Common
  import opened Mcp
  import opened Frames

  const MAX_RELAY_BYTES: nat := 128 * 1024 * 1024
  const MAX_PENDING_REQUESTS: nat := 256

  // ----- what a run has done so far

  /** One line queued for a backend generation. `Forwarded` carries the request's ticket. */
  datatype Sent =
    | Private(raw: Bytes)
    | Replay(raw: Bytes)
    | Callback(raw: Bytes)
    | Notified(raw: Bytes)
    | Forwarded(ticket: nat, raw: Bytes)

  /** An accepted client request, as it was received. */
  datatype Asked = Asked(id: Id, raw: Bytes)

  /** One line queued for the client: the answer to a request, or something passed on. */
  datatype Line = Answer(ticket: nat, raw: Bytes) | Pass(raw: Bytes)

  /** The request, by its ticket, and the backend line, by its number, that a saved identity comes from. */
  datatype Lesson = Lesson(ticket: int, line: int)

  /** How a generation was restarted: its private identity, and the handshake to restore. */
  datatype Saved = Saved(id: Id, params: Option<Value>, identity: Option<Identity>, lesson: Lesson)

  /**
   What came from the backends: `heard` are all lines handled so far; `private` the numbers of those that replied
   to a private initialize, each with the number of its restart; `matched[k]` the number of the one that ended the
   handshake of generation k + 1, which was restarted as `restarts[k]` says; `lesson` is where the identity comes from.
   What came from the client: `said` are all its lines handled so far, `asOf[k]` of them when generation k + 1 was greeted.
   */
  datatype Trail = Trail(heard: seq<Frame>, private: map<int, int>, matched: seq<int>, restarts: seq<Saved>, lesson: Lesson,
                         said: seq<Frame>, asOf: seq<nat>)

  /**
   Every accepted client request gets the next ticket: its position in `accepted`.
   `open` are the tickets without an answer, `dropped` those answered as cancelled before
   execution; `outbox` are all lines queued for the client, each answer with its ticket.
   Every deferred line gets the next number: its position in `arrivals`.
   `waiting` are the numbers of the lines in `deferred`, `left` those drained, in order.
   `sent` are all lines queued for backends; generation k begins at `starts[k]`, and a restarted
   generation k + 1 was sent the saved `initialized` line at `greeted[k]`.
   `written` and `delivered` are the bytes that left the two queues; `replied` the tickets
   that a backend has replied to.
   */
  datatype History = History(
    accepted: seq<Asked>, open: map<Id, nat>, dropped: set<nat>, outbox: seq<Line>, delivered: Bytes,
    arrivals: seq<Frame>, waiting: seq<nat>, left: seq<nat>,
    sent: seq<Sent>, starts: seq<nat>, greeted: seq<nat>, written: Bytes, replied: set<nat>,
    trail: Trail)
  {
    function Accept(id: Id, raw: Bytes): History {
      if id in open then this
      else this.(accepted := accepted + [Asked(id, raw)], open := open[id := |accepted|])
    }

    function Queue(line: Line): History {
      this.(outbox := outbox + [line])
    }

    function Close(id: Id): History {
      this.(open := open - {id})
    }

    function Drop(id: Id): History {
      this.(dropped := dropped + {Ticket(id)})
    }

    function Ticket(id: Id): nat {
      if id in open then open[id] else 0
    }

    function Start(saved: Saved): History {
      this.(starts := starts + [|sent|], trail := trail.(restarts := trail.restarts + [saved]))
    }

    function Hear(f: Frame): History {
      this.(trail := trail.(heard := trail.heard + [f]))
    }

    function Note(f: Frame): History {
      this.(trail := trail.(said := trail.said + [f]))
    }

    /** The last line heard is the reply to the private initialize. */
    function Confide(): History {
      this.(trail := trail.(private := trail.private[|trail.heard| - 1 := |trail.restarts| - 1]))
    }

    /** The last line heard answers this request with an identity. */
    function Learn(id: Id): History {
      this.(trail := trail.(lesson := Lesson(Ticket(id), |trail.heard| - 1)))
    }

    function Greet(): History {
      this.(greeted := greeted + [|sent|], trail := trail.(matched := trail.matched + [|trail.heard| - 1], asOf := trail.asOf + [|trail.said|]))
    }
  }

  // ----- the relay's own state

  datatype Closing = Closing(id: Id, raw: Bytes, response: Option<Bytes>, cancelled: bool)

  datatype State = State(
    requests: map<Id, Call>, inflight: map<Id, Call>, callbacks: set<Id>,
    deferred: seq<Frame>, closing: Option<Closing>,
    initialize: Option<Value>, identity: Option<Identity>, initialized: Option<Bytes>,
    privateId: Option<Id>, releasing: bool, releaseId: Option<Id>, live: bool,
    toClient: Bytes, toBackend: Bytes, clientBuffer: Bytes, backendBuffer: Bytes,
    history: History)

  /** A handler either returns or raises; either way it leaves a state. */
  datatype Outcome = Running(s: State) | Raised(s: State) {
    predicate IsFailure() { Raised? }
    function PropagateFailure(): Outcome requires Raised? { this }
    function Extract(): State { s }
  }

  /** The relay starts with a live first generation that it did not have to restore. */
  function Init(): State {
    State(map[], map[], {}, [], None, None, None, None, None, false, None, true, [], [], [], [],
          History([], map[], {}, [], [], [], [], [], [], [0], [], [], {}, Trail([], map[], [], [], Lesson(0, 0), [], [])))
  }

  /** What the outside world decides during a step that touches the backend process. */
  datatype World = World(unread: bool, closes: bool, starts: bool, token: string)

  function PrivateIdOf(w: World): Id {
    StrId("schemii-private-" + w.token)
  }

  // ----- budgets and queues

  function RawBytes(frames: seq<Frame>): nat {
    if frames == [] then 0 else |frames[0].raw| + RawBytes(frames[1..])
  }

  function ClosingBytes(c: Option<Closing>): nat {
    if c.None? then 0 else |c.value.raw| + if c.value.response.Some? then |c.value.response.value| else 0
  }

  function Buffered(s: State): nat {
    |s.toClient| + |s.toBackend| + |s.clientBuffer| + |s.backendBuffer| + RawBytes(s.deferred) + ClosingBytes(s.closing)
  }

  predicate WithinBudget(s: State) {
    Buffered(s) <= MAX_RELAY_BYTES && |s.requests| + |s.callbacks| <= MAX_PENDING_REQUESTS
  }

  function CheckBudget(s: State): Outcome {
    if WithinBudget(s) then Running(s) else Raised(s)
  }

  function PutClient(s: State, line: Line): State {
    s.(toClient := s.toClient + line.raw, history := s.history.Queue(line))
  }

  function PutBackend(s: State, sent: Sent): State {
    s.(toBackend := s.toBackend + sent.raw, history := s.history.(sent := s.history.sent + [sent]))
  }

  function QueueClient(s: State, line: Line): Outcome {
    CheckBudget(PutClient(s, line))
  }

  function QueueBackend(s: State, sent: Sent): Outcome {
    CheckBudget(PutBackend(s, sent))
  }

  /** Queue the reply to a request and close its ticket. */
  function Reply(s: State, id: Id, raw: Bytes): Outcome {
    QueueClient(s.(history := s.history.Close(id)), Answer(s.history.Ticket(id), raw))
  }

  function Fail(c: Codec, s: State, id: Id, text: string, code: int): Outcome {
    Reply(s, id, c.encode(ErrorReply(id, code, text)))
  }

  function Accept(s: State, id: Id, raw: Bytes): State {
    s.(history := s.history.Accept(id, raw))
  }

  function Defer(s: State, f: Frame): State {
    var h := s.history;
    s.(deferred := s.deferred + [f],
       history := h.(arrivals := h.arrivals + [f], waiting := h.waiting + [|h.arrivals|]))
  }

  function Forward(s: State, id: Id, call: Call, raw: Bytes): Outcome {
    QueueBackend(s.(inflight := s.inflight[id := call]), Forwarded(s.history.Ticket(id), raw))
  }

  // ----- Relay.client

  function FindDeferred(frames: seq<Frame>, id: Id): (i: nat)
    ensures i <= |frames|
    ensures i < |frames| ==> frames[i].message.Request? && frames[i].message.id == id
    ensures forall j :: 0 <= j < i ==> !(frames[j].message.Request? && frames[j].message.id == id)
  {
    if frames == [] then 0
    else if frames[0].message.Request? && frames[0].message.id == id then 0
    else 1 + FindDeferred(frames[1..], id)
  }

  function Without<T>(s: seq<T>, i: nat): seq<T>
    requires i < |s|
  {
    s[..i] + s[i + 1..]
  }

  function RemoveDeferred(s: State, i: nat, id: Id): State
    requires i < |s.deferred|
  {
    var h := s.history.Drop(id);
    var waiting := if i < |h.waiting| then Without(h.waiting, i) else h.waiting;
    s.(deferred := Without(s.deferred, i), requests := s.requests - {id}, history := h.(waiting := waiting))
  }

  /** Take a cancelled line out of the deferred queue and answer it. */
  function DropDeferred(c: Codec, s: State, i: nat, id: Id): Outcome
    requires i < |s.deferred|
  {
    Fail(c, RemoveDeferred(s, i, id), id, "MCP request cancelled before execution.", -32800)
  }

  /** A cancellation reaches a held close before anything else happens to it. */
  function MarkClosing(s: State, id: Id): State {
    if s.closing.Some? && s.closing.value.id == id then
      s.(closing := Some(s.closing.value.(cancelled := true)))
    else s
  }

  predicate Suspended(s: State) {
    !s.live || s.privateId.Some?
  }

  function PassNotice(s: State, f: Frame): Outcome {
    if Suspended(s) then Running(Defer(s, f)) else QueueBackend(s, Notified(f.raw))
  }

  function ClientNotice(c: Codec, s: State, f: Frame, n: Notice): Outcome {
    match n
    case Plain => PassNotice(s, f)
    case Initialized =>
      var s1 := s.(initialized := Some(f.raw));
      if Suspended(s1) then Running(s1) else QueueBackend(s1, Notified(f.raw))
    case Cancelled(None) => Raised(s)
    case Cancelled(Some(id)) =>
      var s1 := MarkClosing(s, id);
      var i := FindDeferred(s1.deferred, id);
      if i < |s1.deferred| then DropDeferred(c, s1, i, id) else PassNotice(s1, f)
  }

  /** Nothing pending on either side, and the backend connection fully restorable. */
  predicate Quiescent(s: State, unread: bool) {
    && s.identity.Some? && s.initialized.Some?
    && s.requests == map[] && s.inflight == map[] && s.callbacks == {}
    && s.closing.None? && s.privateId.None? && s.deferred == []
    && s.toClient == [] && s.toBackend == [] && s.backendBuffer == []
    && !(s.live && unread)
  }

  function CloseBackend(s: State): State {
    s.(live := false)
  }

  function Releasing(s: State, id: Id): State {
    CloseBackend(s.(releasing := true, releaseId := Some(id)))
  }

  function ReleaseRequest(c: Codec, s: State, id: Id, wellFormed: bool, w: World): Outcome {
    if !wellFormed then Fail(c, s, id, "browser_release accepts no target or arguments.", -32602)
    else if !Quiescent(s, w.unread) then
      Fail(c, s, id, "Browser connection is busy; release was not performed.", -32603)
    else PerformRelease(c, Releasing(s, id), id, w.closes)
  }

  function PerformRelease(c: Codec, s: State, id: Id, closes: bool): Outcome {
    if closes then Reply(s, id, c.encode(ReleaseReply(id)))
    else Raised(Fail(c, s, id, "Owned browser resources could not be released.", -32603).s)
  }

  /** Hold, close or forward a request that has been admitted. */
  function Dispatch(s: State, f: Frame, id: Id, call: Call): Outcome {
    if s.closing.Some? || Suspended(s) then Running(Defer(s, f))
    else if call.Close? then Running(s.(closing := Some(Closing(id, f.raw, None, false))))
    else
      Forward(if call.Initialize? then s.(initialize := call.params) else s, id, call, f.raw)
  }

  function Admit(s: State, id: Id, call: Call, raw: Bytes): State {
    Accept(s, id, raw).(requests := s.requests[id := call])
  }

  function ClientRequest(c: Codec, s: State, f: Frame, id: Id, call: Call, w: World): Outcome {
    if id in s.requests then Raised(s)
    else if call.Release? then ReleaseRequest(c, Accept(s, id, f.raw), id, call.wellFormed, w)
    else if !s.live && call.Ping? then Reply(Accept(s, id, f.raw), id, c.encode(PingReply(id)))
    else AdmitRequest(Admit(s, id, call, f.raw), f, id, call)
  }

  function AdmitRequest(s: State, f: Frame, id: Id, call: Call): Outcome {
    var s1 :- CheckBudget(s);
    Dispatch(s1, f, id, call)
  }

  function ClientReleased(c: Codec, s: State, f: Frame): Outcome {
    var m := f.message;
    if m.Request? && s.releaseId != Some(m.id) then
      Fail(c, Accept(s, m.id, f.raw), m.id, "Browser connection is permanently released; use a fresh thread.", -32603)
    else Running(s)
  }

  function ClientCallback(s: State, f: Frame, ident: Option<Id>): Outcome {
    if ident.None? || ident.value !in s.callbacks then Raised(s)
    else QueueBackend(s.(callbacks := s.callbacks - {ident.value}), Callback(f.raw))
  }

  function Client(c: Codec, s: State, f: Frame, w: World): Outcome {
    if s.releasing then ClientReleased(c, s, f)
    else match f.message
      case Response(ident, _) => ClientCallback(s, f, ident)
      case Notification(n) => ClientNotice(c, s, f, n)
      case Request(id, call) => ClientRequest(c, s, f, id, call, w)
  }

  /** A line that has just been read from the client, as opposed to one that was deferred. */
  function Listen(c: Codec, s: State, f: Frame, w: World): Outcome {
    Client(c, s.(history := s.history.Note(f)), f, w)
  }

  // ----- Relay.server

  /** The reply to the private initialize, which never goes any further. */
  function PrivateReply(s: State, body: Body): Outcome {
    ConfidedReply(s.(history := s.history.Confide()), body)
  }

  function ConfidedReply(s: State, body: Body): Outcome {
    if body.Failure? || body.identity.None? || body.identity != s.identity then Raised(s)
    else
      if s.initialized.None? then Running(s.(privateId := None))
      else QueueBackend(s.(privateId := None, history := s.history.Greet()), Replay(s.initialized.value))
  }

  /** A reply leaves the backend: no longer in flight, but not yet answered. */
  function TakeReply(s: State, id: Id): State {
    s.(inflight := s.inflight - {id},
       history := s.history.(replied := s.history.replied + {s.history.Ticket(id)}))
  }

  /** Pass a reply on, unless it is the success that a held close is waiting for. */
  function Deliver(s: State, id: Id, closed: bool, raw: Bytes): Outcome {
    if s.closing.Some? && s.closing.value.id == id && closed && !s.closing.value.cancelled then
      Running(s.(closing := Some(s.closing.value.(response := Some(raw)))))
    else
      var closing := if s.closing.Some? && s.closing.value.id == id then None else s.closing;
      Reply(s.(closing := closing, requests := s.requests - {id}), id, raw)
  }

  function ServerReply(c: Codec, s: State, id: Id, body: Body, raw: Bytes): Outcome {
    if s.privateId == Some(id) then PrivateReply(s, body)
    else if id !in s.inflight then Raised(s)
    else Interpret(c, TakeReply(s, id), id, s.inflight[id], body, raw)
  }

  /** What a reply means depends on the request that it answers. */
  function Interpret(c: Codec, s: State, id: Id, call: Call, body: Body, raw: Bytes): Outcome {
    match body
    case Failure => Deliver(s, id, false, raw)
    case Success(identity, inventory, closed) =>
      if call.Initialize? then
        if identity.None? then Raised(s)
        else Deliver(s.(identity := identity, history := s.history.Learn(id)), id, closed, raw)
      else if call.ListTools? then
        if inventory.None? then Raised(s)
        else Deliver(s, id, closed, c.encode(ToolsReply(id, inventory.value)))
      else Deliver(s, id, closed, raw)
  }

  function Server(c: Codec, s: State, f: Frame): Outcome {
    Serve(c, s.(history := s.history.Hear(f)), f)
  }

  function Serve(c: Codec, s: State, f: Frame): Outcome {
    match f.message
    case Notification(_) => QueueClient(s, Pass(f.raw))
    case Request(id, _) =>
      if id in s.callbacks then Raised(s)
      else QueueClient(s.(callbacks := s.callbacks + {id}), Pass(f.raw))
    case Response(None, _) => Raised(s)
    case Response(Some(id), body) => ServerReply(c, s, id, body, f.raw)
  }

  // ----- Relay.progress

  predicate Drained(s: State) {
    s.inflight == map[] && s.callbacks == {} && s.toBackend == [] && s.backendBuffer == []
  }

  /** The held close is over: its request is no longer pending. */
  function EndClosing(s: State, id: Id): State {
    s.(closing := None, requests := s.requests - {id})
  }

  function EndCancelled(c: Codec, s: State, id: Id): Outcome {
    Fail(c, EndClosing(s, id).(history := s.history.Drop(id)), id, "MCP request cancelled before execution.", -32800)
  }

  function FinishClosing(c: Codec, s: State, held: Closing, w: World): Outcome {
    if held.response.Some? then
      if held.cancelled then Reply(EndClosing(s, held.id), held.id, held.response.value)
      else if w.closes then Reply(EndClosing(CloseBackend(s), held.id), held.id, held.response.value)
      else
        Raised(Fail(c, EndClosing(CloseBackend(s), held.id), held.id,
                    "Owned browser resources could not be released.", -32603).s)
    else if held.cancelled then EndCancelled(c, s, held.id)
    else Forward(s, held.id, Close, held.raw)
  }

  /** Start the next generation and greet it privately. */
  function Restart(c: Codec, s: State, w: World): Outcome {
    if s.initialize.None? || s.identity.None? || s.initialized.None? || !w.starts then Raised(s)
    else
      var id := PrivateIdOf(w);
      QueueBackend(NextGeneration(s, id), Private(c.encode(PrivateInitialize(id, s.initialize.value))))
  }

  function NextGeneration(s: State, id: Id): State {
    s.(live := true, backendBuffer := [], privateId := Some(id), history := s.history.Start(Saved(id, s.initialize, s.identity, s.history.trail.lesson)))
  }

  predicate HasRequest(frames: seq<Frame>) {
    exists i :: 0 <= i < |frames| && frames[i].message.Request?
  }

  /** One line leaves the deferred queue; a request among them is admitted afresh. */
  function Undefer(s: State): State
    requires s.deferred != []
  {
    var f, h := s.deferred[0], s.history;
    var h1 := if h.waiting == [] then h else h.(left := h.left + [h.waiting[0]], waiting := h.waiting[1..]);
    s.(deferred := s.deferred[1..], history := h1,
       requests := if f.message.Request? then s.requests - {f.message.id} else s.requests)
  }

  /** No release request is ever deferred, and a drain starts on a live, greeted generation. */
  predicate Drainable(s: State) {
    && !s.releasing && !Suspended(s)
    && forall i :: 0 <= i < |s.deferred| ==> !IsRelease(s.deferred[i].message)
  }

  predicate IsRelease(m: Message) {
    m.Request? && m.call.Release?
  }

  function Drain(c: Codec, s: State, w: World): Outcome
    requires Drainable(s)
    decreases |s.deferred|
  {
    if s.deferred == [] || s.closing.Some? then Running(s)
    else
      DrainShrinks(c, s, w);
      var s1 :- Client(c, Undefer(s), s.deferred[0], w);
      Drain(c, s1, w)
  }

  function Resume(c: Codec, s: State, w: World): Outcome
    requires forall i :: 0 <= i < |s.deferred| ==> !IsRelease(s.deferred[i].message)
  {
    if s.releasing || s.closing.Some? || s.privateId.Some? || s.deferred == [] then Running(s)
    else if s.live then Drain(c, s, w)
    else if s.toClient != [] || !HasRequest(s.deferred) then Running(s)
    else Restart(c, s, w)
  }

  function Progress(c: Codec, s: State, w: World): Outcome
    requires forall i :: 0 <= i < |s.deferred| ==> !IsRelease(s.deferred[i].message)
  {
    if s.releasing then Running(s)
    else if s.closing.Some? && Drained(s) then
      var held := s.closing.value;
      var s1 :- FinishClosing(c, s, held, w);
      if held.response.Some? && held.cancelled then Running(s1) else Resume(c, s1, w)
    else Resume(c, s, w)
  }

  // ----- a run of the relay

  /** One thing that the select loop of `run` can do. `Fault` is any failure from outside. */
  datatype Event =
    | ReadClient(data: Bytes)
    | ReadBackend(data: Bytes)
    | TakeClient(w: World)
    | TakeBackend
    | Work(w: World)
    | WriteClient(n: nat)
    | WriteBackend(n: nat)
    | Fault

  /** The backend's pipes exist only while it lives; the private identity is the one the loop settles on. */
  predicate Enabled(s: State, e: Event) {
    match e
    case ReadBackend(_) => s.live
    case TakeBackend => s.live
    case WriteClient(n) => n <= |s.toClient|
    case WriteBackend(n) => s.live && n <= |s.toBackend|
    case Work(w) =>
      && PrivateIdOf(w) !in s.requests && PrivateIdOf(w) !in s.callbacks
      && forall i :: 0 <= i < |s.deferred| ==> !IsRelease(s.deferred[i].message)
    case _ => true
  }

  function Handle(c: Codec, s: State, fromClient: bool, f: Frame, w: World): Outcome {
    var s1 :- if fromClient then Listen(c, s, f, w) else Server(c, s, f);
    CheckBudget(s1)
  }

  function Take(c: Codec, s: State, fromClient: bool, w: World): Outcome {
    match TakeLine(c.decode, if fromClient then s.clientBuffer else s.backendBuffer)
    case Incomplete =>
      var b := if fromClient then s.clientBuffer else s.backendBuffer;
      if |b| > MAX_MESSAGE_BYTES then Raised(s) else Running(s)
    case Bad(rest) => Raised(if fromClient then s.(clientBuffer := rest) else s.(backendBuffer := rest))
    case Taken(f, rest) =>
      Handle(c, if fromClient then s.(clientBuffer := rest) else s.(backendBuffer := rest), fromClient, f, w)
  }

  function Step(c: Codec, s: State, e: Event): Outcome
    requires Enabled(s, e)
  {
    match e
    case ReadClient(data) => Running(s.(clientBuffer := s.clientBuffer + data))
    case ReadBackend(data) => Running(s.(backendBuffer := s.backendBuffer + data))
    case TakeClient(w) => Take(c, s, true, w)
    case TakeBackend => Take(c, s, false, World(false, false, false, ""))
    case Work(w) =>
      var s1 :- Progress(c, s, w);
      CheckBudget(s1)
    case WriteClient(n) =>
      Running(s.(toClient := s.toClient[n..],
                 history := s.history.(delivered := s.history.delivered + s.toClient[..n])))
    case WriteBackend(n) =>
      Running(s.(toBackend := s.toBackend[n..],
                 history := s.history.(written := s.history.written + s.toBackend[..n])))
    case Fault => Raised(s)
  }

  /** A run stops at the first event that raises or cannot happen. */
  function Run(c: Codec, s: State, events: seq<Event>): Outcome
    decreases |events|
  {
    if events == [] || !Enabled(s, events[0]) then Running(s)
    else
      var s1 :- Step(c, s, events[0]);
      Run(c, s1, events[1..])
  }

  // ----- the failure branch of `run`

  /** Answer the pending requests in the given order; a budget error inside ends the loop early. */
  function FailAll(c: Codec, s: State, order: seq<Id>): Outcome
    decreases |order|
  {
    if order == [] then Running(s)
    else
      var s1 :- Fail(c, s, order[0], "Browser transport failed; the request was not replayed.", -32603);
      FailAll(c, s1, order[1..])
  }

  /** During a drain the handler cannot put a line back, so the loop ends. */
  lemma DrainShrinks(c: Codec, s: State, w: World)
    requires Drainable(s) && s.deferred != [] && s.closing.None?
    ensures var o := Client(c, Undefer(s), s.deferred[0], w);
            |o.s.deferred| < |s.deferred| && Drainable(o.s)
  {
    var f, s1 := s.deferred[0], Undefer(s);
    match f.message
    case Response(ident, _) =>
    case Request(id, call) =>
      assert !IsRelease(f.message);
      DispatchShrinks(s1, f, id, call);
    case Notification(n) =>
      NoticeShrinks(c, s1, f, n);
  }

  lemma DispatchShrinks(s: State, f: Frame, id: Id, call: Call)
    requires Drainable(s) && s.closing.None?
    ensures var o := Dispatch(Admit(s, id, call, f.raw), f, id, call);
            o.s.deferred == s.deferred && Drainable(o.s)
  {
  }

  lemma NoticeShrinks(c: Codec, s: State, f: Frame, n: Notice)
    requires Drainable(s) && s.closing.None?
    ensures var o := ClientNotice(c, s, f, n);
            |o.s.deferred| <= |s.deferred| && Drainable(o.s)
  {
    if n.Cancelled? && n.target.Some? && FindDeferred(s.deferred, n.target.value) < |s.deferred| {
      DropShrinks(c, s, FindDeferred(s.deferred, n.target.value), n.target.value);
    }
  }

  lemma DropShrinks(c: Codec, s: State, i: nat, id: Id)
    requires Drainable(s) && i < |s.deferred|
    ensures |DropDeferred(c, s, i, id).s.deferred| < |s.deferred| && Drainable(DropDeferred(c, s, i, id).s)
  {
  }
}
