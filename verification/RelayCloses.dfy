/** How a `browser_close` is held, sent, answered and what it ends, in every run. */
module RelayCloses {
  import opened Common
  import opened Mcp
  import opened Frames
  import opened RelayModel
  import opened RelayInvariants
  import opened RelaySteps
  import opened RelayHandlers
  import opened RelayRuns
  import opened RelayTrail
  import opened RelayAccounts

  /** What a reachable state of a running relay is known to keep. */
  ghost predicate Reached(c: Codec, s: State) {
    Inv(s, Nobody) && Truthful(c, s)
  }

  lemma RunsReach(c: Codec, events: seq<Event>)
    requires Run(c, Init(), events).Running?
    ensures Reached(c, Run(c, Init(), events).s)
  {
    EveryRunIsGood(c, events);
    EveryRunIsHonest(c, events);
  }

  // ----- the reply to a close

  /** The reply of a backend that has closed its browser. */
  predicate Closed(body: Body) {
    body.Success? && body.closed
  }

  /** A close in flight was asked for as a close. */
  lemma InflightClose(c: Codec, s: State)
    requires Reached(c, s) && s.closing.Some? && s.closing.value.id in s.inflight
    ensures s.inflight[s.closing.value.id] == Close && s.privateId.None? && s.live
    ensures s.closing.value.id in s.history.open && s.closing.value.response.None?
  {
    InvIsReady(s);
    HeldIsGreeted(s);
    var id := s.closing.value.id;
    assert Asks(c, s.history.accepted, s.history.open[id], Close);
    assert Asks(c, s.history.accepted, s.history.open[id], s.inflight[id]);
  }

  lemma DeliverClose(s: State, id: Id, held: Closing, closed: bool, raw: Bytes)
    requires s.closing == Some(held) && held.id == id
    ensures var s1 := Deliver(s, id, closed, raw).s;
      if closed && !held.cancelled then s1 == s.(closing := Some(held.(response := Some(raw))))
      else s1 == Settled(s.(closing := None), id, raw)
  {
  }

  lemma ServeClose(c: Codec, s: State, f: Frame)
    requires s.closing.Some? && s.closing.value.id in s.inflight && s.inflight[s.closing.value.id] == Close && s.privateId.None?
    requires f.message.Response? && f.message.ident == Some(s.closing.value.id)
    ensures var held, s1 := s.closing.value, Server(c, s, f).s;
      var s0 := TakeReply(s.(history := s.history.Hear(f)), held.id);
      if Closed(f.message.body) && !held.cancelled then s1 == s0.(closing := Some(held.(response := Some(f.raw))))
      else s1 == Settled(s0.(closing := None), held.id, f.raw)
  {
    var held := s.closing.value;
    var s0 := TakeReply(s.(history := s.history.Hear(f)), held.id);
    assert Server(c, s, f) == Interpret(c, s0, held.id, Close, f.message.body, f.raw);
    DeliverClose(s0, held.id, held, Closed(f.message.body), f.raw);
  }

  /**
   In every run, when the reply to a close in flight is handled: if it says that the browser is closed and the close
   was not cancelled, nothing is queued for the client and the request stays pending; otherwise, and only then, the
   reply goes out at once as the answer, the hold ends, and the backend lives on.
   */
  lemma CloseReply(c: Codec, events: seq<Event>, f: Frame, rest: Bytes)
    requires Run(c, Init(), events).Running?
    requires var s := Run(c, Init(), events).s;
      && s.closing.Some? && s.closing.value.id in s.inflight && TakeLine(c.decode, s.backendBuffer) == Taken(f, rest)
      && f.message.Response? && f.message.ident == Some(s.closing.value.id)
    ensures var s := Run(c, Init(), events).s; var held := s.closing.value;
      && s.live && held.id in s.history.open
      && var s1 := Step(c, s, TakeBackend).s;
      && s1.live && s1.history.sent == s.history.sent
      && (if Closed(f.message.body) && !held.cancelled then
            && s1.history.outbox == s.history.outbox && s1.toClient == s.toClient && s1.requests == s.requests
            && s1.closing == Some(held.(response := Some(f.raw))) && s1.history.open == s.history.open
          else
            && s1.history.outbox == s.history.outbox + [Answer(s.history.open[held.id], f.raw)] && s1.closing.None?
            && s1.requests == s.requests - {held.id})
  {
    RunsReach(c, events);
    var s := Run(c, Init(), events).s;
    InflightClose(c, s);
    TakeClose(c, s, f, rest);
  }

  lemma TakeClose(c: Codec, s: State, f: Frame, rest: Bytes)
    requires s.closing.Some? && s.closing.value.id in s.inflight && s.inflight[s.closing.value.id] == Close && s.privateId.None?
    requires s.live && s.closing.value.id in s.history.open && TakeLine(c.decode, s.backendBuffer) == Taken(f, rest)
    requires f.message.Response? && f.message.ident == Some(s.closing.value.id)
    ensures var held, s1 := s.closing.value, Step(c, s, TakeBackend).s;
      && s1.live && s1.history.sent == s.history.sent
      && (if Closed(f.message.body) && !held.cancelled then
            && s1.history.outbox == s.history.outbox && s1.toClient == s.toClient && s1.requests == s.requests
            && s1.closing == Some(held.(response := Some(f.raw))) && s1.history.open == s.history.open
          else
            && s1.history.outbox == s.history.outbox + [Answer(s.history.open[held.id], f.raw)] && s1.closing.None?
            && s1.requests == s.requests - {held.id})
  {
    var s0 := s.(backendBuffer := rest);
    ServeClose(c, s0, f);
    assert Step(c, s, TakeBackend).s == Server(c, s0, f).s;
  }

  // ----- the hold lasts

  lemma HoldClient(c: Codec, s: State, f: Frame, w: World)
    requires Inv(s, Nobody) && s.closing.Some?
    ensures Aside(s, Listen(c, s, f, w).s)
  {
    var s1 := s.(history := s.history.Note(f));
    TrailKeeps(s, Nobody, s1.history.trail);
    HoldDeferred(c, s1, f, w);
    AsideChains(s, s1, Client(c, s1, f, w).s);
  }

  lemma HoldDeferred(c: Codec, s: State, f: Frame, w: World)
    requires Inv(s, Nobody) && s.closing.Some?
    ensures Aside(s, Client(c, s, f, w).s)
  {
    HeldOrDeferred(s);
    HeldIsGreeted(s);
    match f.message
    case Response(ident, _) => CallbackAside(s, f, ident);
    case Notification(n) => NoticeAside(c, s, f, n);
    case Request(id, call) =>
      if id !in s.requests { HoldRequest(c, s, f, id, call, w); }
  }

  lemma HoldRequest(c: Codec, s: State, f: Frame, id: Id, call: Call, w: World)
    requires s.closing.Some? && !Holds(s.closing, id) && id !in s.requests && s.live
    ensures Aside(s, ClientRequest(c, s, f, id, call, w).s)
  {
    if call.Release? {
      AnsweredAside(s, id, f.raw, c.encode(ErrorReply(id, -32602, "browser_release accepts no target or arguments.")));
      AnsweredAside(s, id, f.raw, c.encode(ErrorReply(id, -32603, "Browser connection is busy; release was not performed.")));
    } else {
      var s1 := Admit(s, id, call, f.raw);
      AdmitAside(s, id, call, f.raw);
      DispatchAside(s1, f, id, call);
      AsideChains(s, s1, Dispatch(s1, f, id, call).s);
    }
  }

  lemma HoldServer(c: Codec, s: State, f: Frame)
    requires s.closing.Some? && s.closing.value.id !in s.inflight && s.privateId.None?
    ensures Aside(s, Server(c, s, f).s)
  {
    var s1 := s.(history := s.history.Hear(f));
    match f.message
    case Notification(_) => assert Aside(s, PutClient(s1, Pass(f.raw)));
    case Request(id, _) =>
      if id !in s.callbacks { assert Aside(s, PutClient(s1.(callbacks := s1.callbacks + {id}), Pass(f.raw))); }
    case Response(None, _) =>
    case Response(Some(id), body) =>
      if id in s.inflight {
        HoldInterpret(c, s1, id, body, f.raw);
        AsideChains(s, s1, Interpret(c, TakeReply(s1, id), id, s1.inflight[id], body, f.raw).s);
      }
  }

  lemma HoldInterpret(c: Codec, s: State, id: Id, body: Body, raw: Bytes)
    requires id in s.inflight && !Holds(s.closing, id)
    ensures Aside(s, Interpret(c, TakeReply(s, id), id, s.inflight[id], body, raw).s)
  {
    var s1 := TakeReply(s, id);
    match body
    case Failure => HoldDeliver(s, s1, id, false, raw);
    case Success(identity, inventory, closed) =>
      if s.inflight[id].Initialize? {
        HoldDeliver(s, s1.(identity := identity, history := s1.history.Learn(id)), id, closed, raw);
      } else if s.inflight[id].ListTools? {
        if inventory.Some? { HoldDeliver(s, s1, id, closed, c.encode(ToolsReply(id, inventory.value))); }
      } else {
        HoldDeliver(s, s1, id, closed, raw);
      }
  }

  lemma HoldDeliver(s: State, s1: State, id: Id, closed: bool, raw: Bytes)
    requires ReplyTaken(s, s1, id) && !Holds(s.closing, id)
    ensures Aside(s, Deliver(s1, id, closed, raw).s)
  {
    DeliverShape(s1, id, closed, raw);
    SettledAside(s, s1, id, raw);
  }

  /** The event is not the work that a held close is waiting for. */
  predicate Waits(s: State, e: Event) {
    e.Work? ==> !Drained(s)
  }

  /** A held reply stays as it is, apart from a cancellation, until work finds the relay idle. */
  predicate StillHeld(s: State, s1: State, held: Closing) {
    && s1.closing.Some? && s1.closing.value == held.(cancelled := s1.closing.value.cancelled)
    && held.id in s.history.open && held.id in s1.history.open && s1.history.open[held.id] == s.history.open[held.id]
  }

  lemma HoldStep(c: Codec, s: State, e: Event, held: Closing)
    requires Inv(s, Nobody) && Enabled(s, e) && s.closing == Some(held) && held.response.Some? && Waits(s, e)
    ensures StillHeld(s, Step(c, s, e).s, held)
  {
    HeldIsGreeted(s);
    HeldNotInflight(s);
    match e
    case TakeClient(w) => HoldTake(c, s, true, w);
    case TakeBackend => HoldTake(c, s, false, World(false, false, false, ""));
    case Work(w) =>
    case _ =>
  }

  lemma HeldNotInflight(s: State)
    requires Inv(s, Nobody) && s.closing.Some? && s.closing.value.response.Some?
    ensures s.closing.value.id !in s.inflight
  {
  }

  lemma HoldTake(c: Codec, s: State, fromClient: bool, w: World)
    requires Inv(s, Nobody) && s.closing.Some? && s.closing.value.response.Some?
    ensures Aside(s, Take(c, s, fromClient, w).s)
  {
    var next := TakeLine(c.decode, if fromClient then s.clientBuffer else s.backendBuffer);
    if !next.Incomplete? {
      var s1 := if fromClient then s.(clientBuffer := next.rest) else s.(backendBuffer := next.rest);
      assert Aside(s, s1);
      if next.Taken? {
        BuffersKeep(s, next.rest, next.rest);
        HoldHandle(c, s1, fromClient, next.frame, w);
        AsideChains(s, s1, Handle(c, s1, fromClient, next.frame, w).s);
      }
    }
  }

  lemma HoldHandle(c: Codec, s: State, fromClient: bool, f: Frame, w: World)
    requires Inv(s, Nobody) && s.closing.Some? && s.closing.value.response.Some?
    ensures Aside(s, Handle(c, s, fromClient, f, w).s)
  {
    HeldIsGreeted(s);
    HeldNotInflight(s);
    if fromClient { HoldClient(c, s, f, w); } else { HoldServer(c, s, f); }
  }

  /** In the whole run, no work finds the relay idle. */
  predicate AlwaysWaits(c: Codec, s: State, events: seq<Event>)
    decreases |events|
  {
    events == [] || !Enabled(s, events[0]) ||
    (Waits(s, events[0]) && AlwaysWaits(c, Step(c, s, events[0]).s, events[1..]))
  }

  lemma {:induction false} HoldLasts(c: Codec, s: State, events: seq<Event>, held: Closing)
    requires Reached(c, s) && s.closing == Some(held) && held.response.Some?
    requires AlwaysWaits(c, s, events) && Run(c, s, events).Running?
    ensures var s1 := Run(c, s, events).s; Reached(c, s1) && StillHeld(s, s1, held)
    decreases |events|
  {
    HeldIsGreeted(s);
    if events != [] && Enabled(s, events[0]) {
      var e := events[0];
      RunUnfolds(c, s, events);
      StepGood(c, s, e);
      StepTrail(c, s, e);
      HoldStep(c, s, e, held);
      var s1 := Step(c, s, e).s;
      HoldLasts(c, s1, events[1..], s1.closing.value);
    }
  }

  // ----- the work on a held close

  /** What was held came from a backend, so it is not empty. */
  lemma HeldReplyIsALine(c: Codec, s: State)
    requires Reached(c, s) && s.closing.Some? && s.closing.value.response.Some?
    ensures s.closing.value.response.value != []
  {
    HeldIsGreeted(s);
    var a, tr, raw := s.history.accepted[s.history.open[s.closing.value.id]], s.history.trail, s.closing.value.response.value;
    var n :| Public(tr, n) && Replies(c, a, tr.heard[n], raw);
    assert Decoded(c, tr.heard[n]);
  }

  /** The outcome of idle work on a held close, before anything that was deferred. */
  lemma FinishRetires(c: Codec, s: State, held: Closing, w: World)
    requires s.closing == Some(held) && held.response.Some? && !held.cancelled && held.response.value != []
    requires NoRelease(s.deferred) && !s.releasing && Drained(s) && s.privateId.None?
    ensures var o := Progress(c, s, w);
      && (w.closes ==> o.s == Settled(CloseBackend(s).(closing := None), held.id, held.response.value))
      && (!w.closes ==> o == Raised(Settled(CloseBackend(s).(closing := None), held.id,
                                            c.encode(ErrorReply(held.id, -32603, "Owned browser resources could not be released.")))))
  {
    FinishClosingShape(c, s, held, w);
  }

  /**
   In every run, the first work that finds the relay idle while it holds the reply to a close retires the
   generation: no backend is left, the held reply is queued as the answer, and the request is pending no longer.
   If the backend cannot be ended, the answer is an error and the relay stops.
   */
  lemma IdleCloseRetires(c: Codec, s: State, held: Closing, w: World)
    requires Reached(c, s) && s.closing == Some(held) && held.response.Some? && !held.cancelled && Drained(s)
    requires Enabled(s, Work(w))
    ensures held.id in s.history.open
    ensures var o := Step(c, s, Work(w)); var t := s.history.open[held.id];
      && !o.s.live && o.s.closing.None? && o.s.requests == s.requests - {held.id} && o.s.history.starts == s.history.starts
      && o.s.history.outbox == s.history.outbox +
           [Answer(t, if w.closes then held.response.value
                      else c.encode(ErrorReply(held.id, -32603, "Owned browser resources could not be released.")))]
      && (!w.closes ==> o.Raised?)
  {
    HeldReplyIsALine(c, s);
    HeldIsGreeted(s);
    IsIdle(s);
    WorkRetires(c, s, held, w);
  }

  lemma WorkRetires(c: Codec, s: State, held: Closing, w: World)
    requires s.closing == Some(held) && held.response.Some? && !held.cancelled && held.response.value != [] && held.id in s.history.open
    requires NoRelease(s.deferred) && !s.releasing && Drained(s) && s.privateId.None? && Enabled(s, Work(w))
    ensures var o := Step(c, s, Work(w)); var t := s.history.open[held.id];
      && !o.s.live && o.s.closing.None? && o.s.requests == s.requests - {held.id} && o.s.history.starts == s.history.starts
      && o.s.history.outbox == s.history.outbox +
           [Answer(t, if w.closes then held.response.value
                      else c.encode(ErrorReply(held.id, -32603, "Owned browser resources could not be released.")))]
      && (!w.closes ==> o.Raised?)
  {
    FinishRetires(c, s, held, w);
    assert Step(c, s, Work(w)).s == Progress(c, s, w).s;
  }

  lemma IsIdle(s: State)
    requires Inv(s, Nobody) && s.closing.Some?
    ensures !s.releasing && NoRelease(s.deferred) && s.privateId.None?
  {
  }

  /**
   The whole course: from the moment the reply to an uncancelled close says that the browser is closed, whatever is
   read, written or tried in between, the first work that finds the relay idle ends the generation and answers with
   exactly that reply, unless a cancellation came first.
   */
  lemma SuccessfulCloseRetires(c: Codec, events: seq<Event>, f: Frame, rest: Bytes, later: seq<Event>, w: World)
    requires Run(c, Init(), events).Running?
    requires var s := Run(c, Init(), events).s;
      && s.closing.Some? && s.closing.value.id in s.inflight && !s.closing.value.cancelled
      && TakeLine(c.decode, s.backendBuffer) == Taken(f, rest)
      && f.message.Response? && f.message.ident == Some(s.closing.value.id) && Closed(f.message.body)
      && s.live && Step(c, s, TakeBackend).Running?
    requires var s1 := Step(c, Run(c, Init(), events).s, TakeBackend).s;
      AlwaysWaits(c, s1, later) && Run(c, s1, later).Running?
    requires var s2 := Run(c, Step(c, Run(c, Init(), events).s, TakeBackend).s, later).s;
      Drained(s2) && Enabled(s2, Work(w)) && w.closes && (s2.closing.Some? ==> !s2.closing.value.cancelled)
    ensures var s := Run(c, Init(), events).s; var s2 := Run(c, Step(c, s, TakeBackend).s, later).s; var o := Step(c, s2, Work(w));
      && s.closing.value.id in s.history.open
      && !o.s.live && o.s.history.outbox == s2.history.outbox + [Answer(s.history.open[s.closing.value.id], f.raw)]
      && s.closing.value.id !in o.s.requests
  {
    var s := Run(c, Init(), events).s;
    RunsReach(c, events);
    CloseReply(c, events, f, rest);
    var s1 := Step(c, s, TakeBackend).s;
    StepGood(c, s, TakeBackend);
    StepTrail(c, s, TakeBackend);
    var held := s.closing.value.(response := Some(f.raw));
    HoldLasts(c, s1, later, held);
    var s2 := Run(c, s1, later).s;
    IdleCloseRetires(c, s2, s2.closing.value, w);
  }

  /** In every run, the first work that finds the relay idle sends a held close that was not cancelled, and keeps holding it. */
  lemma IdleCloseIsSent(c: Codec, events: seq<Event>, w: World)
    requires Run(c, Init(), events).Running?
    requires var s := Run(c, Init(), events).s;
      s.closing.Some? && s.closing.value.response.None? && !s.closing.value.cancelled && Drained(s) && Enabled(s, Work(w))
    ensures var s := Run(c, Init(), events).s; var held := s.closing.value;
      && held.id in s.history.open
      && var s1 := Step(c, s, Work(w)).s;
      && s1.history.sent == s.history.sent + [Forwarded(s.history.open[held.id], held.raw)] && s1.live
      && held.id in s1.inflight && s1.closing == s.closing && s1.history.outbox == s.history.outbox
  {
    RunsReach(c, events);
    var s := Run(c, Init(), events).s;
    HeldIsGreeted(s);
    IsIdle(s);
    WorkSends(c, s, s.closing.value, w);
  }

  lemma WorkSends(c: Codec, s: State, held: Closing, w: World)
    requires s.closing == Some(held) && held.response.None? && !held.cancelled && held.id in s.history.open && s.live
    requires NoRelease(s.deferred) && !s.releasing && Drained(s) && Enabled(s, Work(w))
    ensures var s1 := Step(c, s, Work(w)).s;
      && s1.history.sent == s.history.sent + [Forwarded(s.history.open[held.id], held.raw)] && s1.live
      && held.id in s1.inflight && s1.closing == s.closing && s1.history.outbox == s.history.outbox
  {
    var o := Forward(s, held.id, Close, held.raw);
    assert FinishClosing(c, s, held, w) == o;
    assert Step(c, s, Work(w)).s == o.s;
  }
}
