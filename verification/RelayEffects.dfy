/** What becomes of each line that is read, in every run: where it is queued, what waits, and what is refused. */
module RelayEffects {
  import opened Common
  import opened Mcp
  import opened Frames
  import opened RelayModel
  import opened RelayInvariants
  import opened RelaySteps
  import opened RelayHandlers
  import opened RelayRuns
  import opened RelayTrail
  import opened RelayAccounts
  import opened RelayCloses

  /** A backend lives and its handshake is complete. */
  predicate Talking(s: State) {
    s.live && s.privateId.None?
  }

  /** Queued for the backend: these lines, and nothing else changes on either wire. */
  predicate Sends(s: State, s1: State, lines: seq<Sent>) {
    s1.history.sent == s.history.sent + lines && s1.history.outbox == s.history.outbox
  }

  /** Queued for the client: these lines, and nothing else changes on either wire. */
  predicate Shows(s: State, s1: State, lines: seq<Line>) {
    s1.history.outbox == s.history.outbox + lines && s1.history.sent == s.history.sent
  }

  // ----- lines of the client's

  lemma ReadClientLine(c: Codec, s: State, f: Frame, rest: Bytes, w: World)
    requires TakeLine(c.decode, s.clientBuffer) == Taken(f, rest)
    ensures Step(c, s, TakeClient(w)).s == Listen(c, s.(clientBuffer := rest), f, w).s
    ensures Listen(c, s.(clientBuffer := rest), f, w).Raised? ==> Step(c, s, TakeClient(w)).Raised?
  {
  }

  /**
   In every run that is not released, a notification of the client's is passed on byte for byte to a backend that is
   ready for it. Otherwise it waits at the end of the queue; an `initialized` line, which is saved, need not wait.
   */
  lemma NotificationsArePassedOn(c: Codec, events: seq<Event>, f: Frame, rest: Bytes, w: World)
    requires Run(c, Init(), events).Running?
    requires var s := Run(c, Init(), events).s;
      && TakeLine(c.decode, s.clientBuffer) == Taken(f, rest) && !s.releasing
      && f.message.Notification? && !f.message.notice.Cancelled?
    ensures var s := Run(c, Init(), events).s; var s1 := Step(c, s, TakeClient(w)).s; var saves := f.message.notice.Initialized?;
      && Sends(s, s1, if Talking(s) then [Notified(f.raw)] else [])
      && s1.deferred == s.deferred + (if Talking(s) || saves then [] else [f])
      && s1.initialized == if saves then Some(f.raw) else s.initialized
  {
    var s := Run(c, Init(), events).s;
    ReadClientLine(c, s, f, rest, w);
    NoticeEffect(c, s.(clientBuffer := rest), f, f.message.notice, w);
  }

  lemma NoticeEffect(c: Codec, s: State, f: Frame, n: Notice, w: World)
    requires !s.releasing && f.message == Notification(n) && !n.Cancelled?
    ensures var s1 := Listen(c, s, f, w).s;
      && Sends(s, s1, if Talking(s) then [Notified(f.raw)] else [])
      && s1.deferred == s.deferred + (if Talking(s) || n.Initialized? then [] else [f])
      && s1.initialized == if n.Initialized? then Some(f.raw) else s.initialized
  {
    var s1 := s.(history := s.history.Note(f));
    assert Listen(c, s, f, w) == ClientNotice(c, s1, f, n);
  }

  /**
   In every run that is not released, a response of the client's answers an open callback: it is passed on byte for
   byte and the callback is closed. A response to anything else stops the relay and changes neither wire.
   */
  lemma CallbacksAreAnswered(c: Codec, events: seq<Event>, f: Frame, rest: Bytes, w: World)
    requires Run(c, Init(), events).Running?
    requires var s := Run(c, Init(), events).s;
      TakeLine(c.decode, s.clientBuffer) == Taken(f, rest) && !s.releasing && f.message.Response?
    ensures var s := Run(c, Init(), events).s; var o := Step(c, s, TakeClient(w)); var id := f.message.ident;
      if id.Some? && id.value in s.callbacks then
        Sends(s, o.s, [Callback(f.raw)]) && o.s.callbacks == s.callbacks - {id.value}
      else o.Raised? && Sends(s, o.s, []) && o.s.callbacks == s.callbacks
  {
    var s := Run(c, Init(), events).s;
    ReadClientLine(c, s, f, rest, w);
    CallbackEffect(c, s.(clientBuffer := rest), f, w);
  }

  lemma CallbackEffect(c: Codec, s: State, f: Frame, w: World)
    requires !s.releasing && f.message.Response?
    ensures var o, id := Listen(c, s, f, w), f.message.ident;
      if id.Some? && id.value in s.callbacks then
        Sends(s, o.s, [Callback(f.raw)]) && o.s.callbacks == s.callbacks - {id.value}
      else o.Raised? && Sends(s, o.s, []) && o.s.callbacks == s.callbacks
  {
    var s1 := s.(history := s.history.Note(f));
    assert Listen(c, s, f, w) == ClientCallback(s1, f, f.message.ident);
  }

  /** What the relay makes of a new request that is no release. */
  predicate Placed(c: Codec, s: State, o: Outcome, f: Frame, t: nat)
    requires f.message.Request?
  {
    var id, call, s1 := f.message.id, f.message.call, o.s;
    if !s.live && call.Ping? then Shows(s, s1, [Answer(t, c.encode(PingReply(id)))]) && s1.requests == s.requests && s1.deferred == s.deferred
    else if s.closing.Some? || !Talking(s) then
      Sends(s, s1, []) && s1.requests == s.requests[id := call] && (o.Running? ==> s1.deferred == s.deferred + [f])
    else if call.Close? then
      && Sends(s, s1, []) && s1.requests == s.requests[id := call]
      && (o.Running? ==> s1.closing == Some(Closing(id, f.raw, None, false)))
    else s1.requests == s.requests[id := call] && (o.Running? ==> Sends(s, s1, [Forwarded(t, f.raw)]) && id in s1.inflight)
  }

  /**
   In every run that is not released, a request whose identity is pending stops the relay. A new one gets the next
   ticket: without a backend a ping is answered at once; while a close is held or no backend is ready, the request
   waits at the end of the queue; a close is held; anything else is sent to the backend byte for byte.
   */
  lemma RequestsArePlaced(c: Codec, events: seq<Event>, f: Frame, rest: Bytes, w: World)
    requires Run(c, Init(), events).Running?
    requires var s := Run(c, Init(), events).s;
      TakeLine(c.decode, s.clientBuffer) == Taken(f, rest) && !s.releasing && f.message.Request? && !f.message.call.Release?
    ensures var s := Run(c, Init(), events).s; var o := Step(c, s, TakeClient(w));
      if f.message.id in s.requests then o.Raised? && Sends(s, o.s, []) && o.s.requests == s.requests
      else
        && o.s.history.accepted == s.history.accepted + [Asked(f.message.id, f.raw)]
        && Placed(c, s, o, f, |s.history.accepted|)
  {
    RunsReach(c, events);
    var s := Run(c, Init(), events).s;
    ReadClientLine(c, s, f, rest, w);
    InvIsReady(s);
    assert f.message.id in s.requests || Unknown(s, f.message.id);
    RequestEffect(c, s.(clientBuffer := rest), f, f.message.id, f.message.call, w);
  }

  lemma RequestEffect(c: Codec, s: State, f: Frame, id: Id, call: Call, w: World)
    requires !s.releasing && f.message == Request(id, call) && !call.Release? && (id in s.requests || id !in s.history.open)
    ensures var o := Listen(c, s, f, w);
      if id in s.requests then o.Raised? && Sends(s, o.s, []) && o.s.requests == s.requests
      else o.s.history.accepted == s.history.accepted + [Asked(id, f.raw)] && Placed(c, s, o, f, |s.history.accepted|)
  {
    var s1 := s.(history := s.history.Note(f));
    assert Listen(c, s, f, w) == ClientRequest(c, s1, f, id, call, w);
    if id !in s.requests && !(!s.live && call.Ping?) {
      AdmitEffect(s1, f, id, call);
    }
  }

  lemma AdmitEffect(s: State, f: Frame, id: Id, call: Call)
    requires f.message == Request(id, call) && id !in s.history.open
    ensures var o := AdmitRequest(Admit(s, id, call, f.raw), f, id, call); var s1 := o.s;
      && s1.history.accepted == s.history.accepted + [Asked(id, f.raw)] && s1.requests == s.requests[id := call]
      && s1.history.outbox == s.history.outbox
      && (o.Running? && (s.closing.Some? || !Talking(s)) ==> s1.deferred == s.deferred + [f])
      && (s.closing.Some? || !Talking(s) || call.Close? ==> s1.history.sent == s.history.sent)
      && (o.Running? && s.closing.None? && Talking(s) && call.Close? ==> s1.closing == Some(Closing(id, f.raw, None, false)))
      && (o.Running? && s.closing.None? && Talking(s) && !call.Close? ==>
            s1.history.sent == s.history.sent + [Forwarded(|s.history.accepted|, f.raw)] && id in s1.inflight)
  {
    var s0 := Admit(s, id, call, f.raw);
    assert s0.history.Ticket(id) == |s.history.accepted|;
    DispatchEffect(s0, f, id, call);
  }

  lemma DispatchEffect(s: State, f: Frame, id: Id, call: Call)
    ensures var s1 := Dispatch(s, f, id, call).s;
      && s1.history.accepted == s.history.accepted && s1.requests == s.requests && s1.history.outbox == s.history.outbox
      && (s.closing.Some? || !Talking(s) ==> s1.deferred == s.deferred + [f] && s1.history.sent == s.history.sent)
      && (s.closing.None? && Talking(s) && call.Close? ==>
            s1.closing == Some(Closing(id, f.raw, None, false)) && s1.history.sent == s.history.sent)
      && (s.closing.None? && Talking(s) && !call.Close? ==>
            s1.history.sent == s.history.sent + [Forwarded(s.history.Ticket(id), f.raw)] && id in s1.inflight)
  {
  }

  /**
   In every run that is not released, a cancellation that names a deferred request takes it out of the queue and
   answers it as cancelled; any other is passed on, or waits, and marks a held close of that name. One that names
   nothing stops the relay.
   */
  lemma CancellationsTakeEffect(c: Codec, events: seq<Event>, f: Frame, rest: Bytes, w: World)
    requires Run(c, Init(), events).Running?
    requires var s := Run(c, Init(), events).s;
      TakeLine(c.decode, s.clientBuffer) == Taken(f, rest) && !s.releasing && f.message.Notification? && f.message.notice.Cancelled?
    ensures var s := Run(c, Init(), events).s; var o := Step(c, s, TakeClient(w)); var target := f.message.notice.target;
      if target.None? then o.Raised? && Sends(s, o.s, [])
      else
        var i := FindDeferred(s.deferred, target.value);
        && (Holds(s.closing, target.value) ==> o.s.closing == Some(s.closing.value.(cancelled := true)))
        && (if i < |s.deferred| then
              && target.value in s.history.open && o.s.deferred == Without(s.deferred, i) && o.s.requests == s.requests - {target.value}
              && Shows(s, o.s, [Answer(s.history.open[target.value],
                                       c.encode(ErrorReply(target.value, -32800, "MCP request cancelled before execution.")))])
            else Sends(s, o.s, if Talking(s) then [Notified(f.raw)] else []) && o.s.deferred == s.deferred + if Talking(s) then [] else [f])
  {
    RunsReach(c, events);
    var s := Run(c, Init(), events).s;
    ReadClientLine(c, s, f, rest, w);
    if f.message.notice.target.Some? {
      var id := f.message.notice.target.value;
      var i := FindDeferred(s.deferred, id);
      if i < |s.deferred| { DeferredIsKnown(s, i, id); }
      CancelEffect(c, s.(clientBuffer := rest), f, id, w);
    }
  }

  lemma CancelEffect(c: Codec, s: State, f: Frame, id: Id, w: World)
    requires !s.releasing && f.message == Notification(Cancelled(Some(id)))
    requires FindDeferred(s.deferred, id) < |s.deferred| ==> id in s.history.open
    ensures var s1, i := Listen(c, s, f, w).s, FindDeferred(s.deferred, id);
      && (Holds(s.closing, id) ==> s1.closing == Some(s.closing.value.(cancelled := true)))
      && (if i < |s.deferred| then
            && s1.deferred == Without(s.deferred, i) && s1.requests == s.requests - {id}
            && Shows(s, s1, [Answer(s.history.open[id], c.encode(ErrorReply(id, -32800, "MCP request cancelled before execution.")))])
          else Sends(s, s1, if Talking(s) then [Notified(f.raw)] else []) && s1.deferred == s.deferred + if Talking(s) then [] else [f])
  {
    var s0, i := s.(history := s.history.Note(f)), FindDeferred(s.deferred, id);
    assert Listen(c, s, f, w) == ClientNotice(c, s0, f, Cancelled(Some(id)));
    CancelIs(c, s0, f, id);
    if i < |s.deferred| { DropEffect(c, MarkClosing(s0, id), i, id); } else { PassEffect(MarkClosing(s0, id), f); }
  }

  lemma DropEffect(c: Codec, s: State, i: nat, id: Id)
    requires i < |s.deferred| && id in s.history.open
    ensures var s1 := DropDeferred(c, s, i, id).s;
      && s1.deferred == Without(s.deferred, i) && s1.requests == s.requests - {id} && s1.closing == s.closing
      && Shows(s, s1, [Answer(s.history.open[id], c.encode(ErrorReply(id, -32800, "MCP request cancelled before execution.")))])
  {
  }

  lemma PassEffect(s: State, f: Frame)
    ensures var s1 := PassNotice(s, f).s;
      && Sends(s, s1, if Talking(s) then [Notified(f.raw)] else []) && s1.deferred == s.deferred + (if Talking(s) then [] else [f])
      && s1.closing == s.closing
  {
  }

  /** In every run that is released, a request other than the release itself is refused, and nothing else is answered. */
  lemma ReleasedRelayRefuses(c: Codec, events: seq<Event>, f: Frame, rest: Bytes, w: World)
    requires Run(c, Init(), events).Running?
    requires var s := Run(c, Init(), events).s; TakeLine(c.decode, s.clientBuffer) == Taken(f, rest) && s.releasing
    ensures var s := Run(c, Init(), events).s; var s1 := Step(c, s, TakeClient(w)).s;
      if f.message.Request? && s.releaseId != Some(f.message.id) then
        Shows(s, s1, [Answer(|s.history.accepted|,
                             c.encode(ErrorReply(f.message.id, -32603, "Browser connection is permanently released; use a fresh thread.")))])
      else Shows(s, s1, []) && s1.history.accepted == s.history.accepted
  {
    RunsReach(c, events);
    var s := Run(c, Init(), events).s;
    ReadClientLine(c, s, f, rest, w);
    InvIsReady(s);
    if f.message.Request? { assert Unknown(s, f.message.id); }
    RefusalEffect(c, s.(clientBuffer := rest), f, w);
  }

  lemma RefusalEffect(c: Codec, s: State, f: Frame, w: World)
    requires s.releasing && (f.message.Request? ==> f.message.id !in s.history.open)
    ensures var s1 := Listen(c, s, f, w).s;
      if f.message.Request? && s.releaseId != Some(f.message.id) then
        Shows(s, s1, [Answer(|s.history.accepted|,
                             c.encode(ErrorReply(f.message.id, -32603, "Browser connection is permanently released; use a fresh thread.")))])
      else Shows(s, s1, []) && s1.history.accepted == s.history.accepted
  {
    var s0 := s.(history := s.history.Note(f));
    assert Listen(c, s, f, w) == ClientReleased(c, s0, f);
    if f.message.Request? {
      AtOnceEffect(s0, f.message.id, f.raw,
                   c.encode(ErrorReply(f.message.id, -32603, "Browser connection is permanently released; use a fresh thread.")));
    }
  }

  lemma AtOnceEffect(s: State, id: Id, asked: Bytes, raw: Bytes)
    requires id !in s.history.open
    ensures Shows(s, Reply(Accept(s, id, asked), id, raw).s, [Answer(|s.history.accepted|, raw)])
  {
  }

  // ----- lines of a backend's

  lemma ReadBackendLine(c: Codec, s: State, f: Frame, rest: Bytes)
    requires s.live && TakeLine(c.decode, s.backendBuffer) == Taken(f, rest)
    ensures Step(c, s, TakeBackend).s == Server(c, s.(backendBuffer := rest), f).s
    ensures Server(c, s.(backendBuffer := rest), f).Raised? ==> Step(c, s, TakeBackend).Raised?
  {
  }

  /**
   In every run, a notification of a backend's is shown to the client byte for byte, and so is a request, which opens a
   callback; a request whose callback is open, and a response to nothing in flight, stop the relay and show nothing.
   */
  lemma BackendLinesAreShown(c: Codec, events: seq<Event>, f: Frame, rest: Bytes)
    requires Run(c, Init(), events).Running?
    requires var s := Run(c, Init(), events).s; s.live && TakeLine(c.decode, s.backendBuffer) == Taken(f, rest)
    ensures var s := Run(c, Init(), events).s; var o := Step(c, s, TakeBackend);
      match f.message
      case Notification(_) => Shows(s, o.s, [Pass(f.raw)]) && o.s.callbacks == s.callbacks
      case Request(id, _) =>
        if id in s.callbacks then o.Raised? && Shows(s, o.s, [])
        else Shows(s, o.s, [Pass(f.raw)]) && o.s.callbacks == s.callbacks + {id}
      case Response(ident, _) =>
        (ident.None? || (ident != s.privateId && ident.value !in s.inflight)) ==> o.Raised? && Shows(s, o.s, [])
  {
    var s := Run(c, Init(), events).s;
    ReadBackendLine(c, s, f, rest);
    ServerEffect(c, s.(backendBuffer := rest), f);
  }

  lemma ServerEffect(c: Codec, s: State, f: Frame)
    ensures var o := Server(c, s, f);
      match f.message
      case Notification(_) => Shows(s, o.s, [Pass(f.raw)]) && o.s.callbacks == s.callbacks
      case Request(id, _) =>
        if id in s.callbacks then o.Raised? && Shows(s, o.s, [])
        else Shows(s, o.s, [Pass(f.raw)]) && o.s.callbacks == s.callbacks + {id}
      case Response(ident, _) =>
        (ident.None? || (ident != s.privateId && ident.value !in s.inflight)) ==> o.Raised? && Shows(s, o.s, [])
  {
    var s1 := s.(history := s.history.Hear(f));
    assert Server(c, s, f) == Serve(c, s1, f);
  }

  /**
   In every run, the reply to a request in flight that is no held close is shown at once as its answer, with the
   backend's bytes or, for a tool list, the list that names the release tool; the request is pending no longer.
   An initialize or a tool list whose result cannot be read stops the relay and shows nothing.
   */
  lemma RepliesAreShown(c: Codec, events: seq<Event>, f: Frame, rest: Bytes, id: Id)
    requires Run(c, Init(), events).Running?
    requires var s := Run(c, Init(), events).s;
      && s.live && TakeLine(c.decode, s.backendBuffer) == Taken(f, rest) && id in s.inflight && !Holds(s.closing, id)
      && f.message.Response? && f.message.ident == Some(id)
    ensures var s := Run(c, Init(), events).s; var o := Step(c, s, TakeBackend); var call, body := s.inflight[id], f.message.body;
      && id in s.history.open && s.history.open[id] < |s.history.accepted| && CallOf(c, s.history.accepted[s.history.open[id]].raw) == Some(call)
      && (if body.Success? && ((call.Initialize? && body.identity.None?) || (call.ListTools? && body.inventory.None?)) then
            o.Raised? && Shows(s, o.s, [])
          else
            && Shows(s, o.s, [Answer(s.history.open[id], if call.ListTools? && body.Success? then c.encode(ToolsReply(id, body.inventory.value)) else f.raw)])
            && o.s.requests == s.requests - {id} && o.s.inflight == s.inflight - {id}
            && o.s.identity == if call.Initialize? && body.Success? then body.identity else s.identity)
  {
    RunsReach(c, events);
    var s := Run(c, Init(), events).s;
    ReadBackendLine(c, s, f, rest);
    InvIsReady(s);
    assert Known(s.history, id) && s.privateId.None?;
    assert Asks(c, s.history.accepted, s.history.open[id], s.inflight[id]);
    ReplyEffect(c, s.(backendBuffer := rest), f, id);
  }

  lemma ReplyEffect(c: Codec, s: State, f: Frame, id: Id)
    requires id in s.inflight && !Holds(s.closing, id) && s.privateId.None? && id in s.history.open
    requires f.message.Response? && f.message.ident == Some(id)
    ensures var o := Server(c, s, f); var call, body := s.inflight[id], f.message.body;
      if body.Success? && ((call.Initialize? && body.identity.None?) || (call.ListTools? && body.inventory.None?)) then
        o.Raised? && Shows(s, o.s, [])
      else
        && Shows(s, o.s, [Answer(s.history.open[id], if call.ListTools? && body.Success? then c.encode(ToolsReply(id, body.inventory.value)) else f.raw)])
        && o.s.requests == s.requests - {id} && o.s.inflight == s.inflight - {id}
        && o.s.identity == if call.Initialize? && body.Success? then body.identity else s.identity
  {
    var s1 := TakeReply(s.(history := s.history.Hear(f)), id);
    var call, body := s.inflight[id], f.message.body;
    assert Server(c, s, f) == Interpret(c, s1, id, call, body, f.raw);
    if body.Success? && call.Initialize? {
      if body.identity.Some? { DeliverEffect(s1.(identity := body.identity, history := s1.history.Learn(id)), id, body.closed, f.raw); }
    } else if body.Success? && call.ListTools? {
      if body.inventory.Some? { DeliverEffect(s1, id, body.closed, c.encode(ToolsReply(id, body.inventory.value))); }
    } else {
      DeliverEffect(s1, id, body.Success? && body.closed, f.raw);
    }
  }

  lemma DeliverEffect(s: State, id: Id, closed: bool, raw: Bytes)
    requires !Holds(s.closing, id) && id in s.history.open
    ensures var s1 := Deliver(s, id, closed, raw).s;
      && Shows(s, s1, [Answer(s.history.open[id], raw)]) && s1.requests == s.requests - {id}
      && s1.inflight == s.inflight && s1.identity == s.identity
  {
  }
}
