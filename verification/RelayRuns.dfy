/** What holds in every run of the relay. */
module RelayRuns {
  import opened Common
  import opened Mcp
  import opened Frames
  import opened RelayModel
  import opened RelayInvariants
  import opened RelaySteps
  import opened RelayHandlers

  // ----- every reachable state

  lemma BuffersKeep(s: State, client: Bytes, backend: Bytes)
    requires Inv(s, Nobody)
    ensures Inv(s.(clientBuffer := client), Nobody) && Inv(s.(backendBuffer := backend), Nobody)
  {
  }

  lemma TakeGood(c: Codec, s: State, fromClient: bool, w: World)
    requires Inv(s, Nobody) && (!fromClient ==> s.live)
    ensures Good(Take(c, s, fromClient, w))
  {
    var buffer := if fromClient then s.clientBuffer else s.backendBuffer;
    match TakeLine(c.decode, buffer)
    case Incomplete =>
    case Bad(rest) => BuffersKeep(s, rest, rest);
    case Taken(f, rest) =>
      BuffersKeep(s, rest, rest);
      var s1 := if fromClient then s.(clientBuffer := rest) else s.(backendBuffer := rest);
      if fromClient { ListenGood(c, s1, f, w); } else { ServerGood(c, s1, f); }
  }

  lemma StepGood(c: Codec, s: State, e: Event)
    requires Inv(s, Nobody) && Enabled(s, e)
    ensures Good(Step(c, s, e))
  {
    match e
    case ReadClient(data) => BuffersKeep(s, s.clientBuffer + data, []);
    case ReadBackend(data) => BuffersKeep(s, [], s.backendBuffer + data);
    case TakeClient(w) => TakeGood(c, s, true, w);
    case TakeBackend => TakeGood(c, s, false, World(false, false, false, ""));
    case Work(w) => ProgressGood(c, s, w);
    case WriteClient(n) => WriteKeeps(s, n);
    case WriteBackend(n) => WriteKeeps(s, n);
    case Fault =>
  }

  lemma {:induction false} RunGood(c: Codec, s: State, events: seq<Event>)
    requires Inv(s, Nobody)
    ensures Good(Run(c, s, events))
    decreases |events|
  {
    if events != [] && Enabled(s, events[0]) {
      StepGood(c, s, events[0]);
      var o := Step(c, s, events[0]);
      if o.Running? { RunGood(c, o.s, events[1..]); }
    }
  }

  lemma InitGood()
    ensures Inv(Init(), Nobody)
  {
    InitSafe();
    InitWhereabouts();
    InitLanes();
  }

  lemma InitSafe()
    ensures Safe(Init())
  {
  }

  lemma InitWhereabouts()
    ensures Whereabouts(Init(), Nobody)
  {
  }

  lemma InitLanes()
    ensures Lanes(Init())
  {
    assert Increasing([] + []);
  }

  lemma EveryRunIsGood(c: Codec, events: seq<Event>)
    ensures Good(Run(c, Init(), events))
  {
    InitGood();
    RunGood(c, Init(), events);
  }

  // ----- requests are conserved

  /**
   In every run, whether or not it ended in a failure: each accepted request is either pending or
   has been answered, never both, and no request is answered twice.
   */
  lemma RequestsAreConserved(c: Codec, events: seq<Event>)
    ensures var s := Run(c, Init(), events).s;
      var h, answers := s.history, Answers(s.history.outbox);
      && Distinct(answers)
      && (forall t: nat :: t in answers ==> t < |h.accepted|)
      && (forall t: nat :: t < |h.accepted| ==>
            (t !in answers <==> h.accepted[t].id in h.open && h.open[h.accepted[t].id] == t))
      && h.open.Keys == s.requests.Keys
      && h.delivered + s.toClient == LineBytes(h.outbox)
  {
    EveryRunIsGood(c, events);
    var h, answers := Run(c, Init(), events).s.history, Answers(Run(c, Init(), events).s.history.outbox);
    forall t: nat | t < |h.accepted|
      ensures t !in answers <==> h.accepted[t].id in h.open && h.open[h.accepted[t].id] == t
    {
      assert IsOpen(h.accepted, h.open, t) <==> t !in answers;
    }
  }

  function One(b: bool): nat {
    if b then 1 else 0
  }

  /** While the relay runs, each pending request is in flight, deferred, or the held close: exactly one of them. */
  lemma PendingRequestsHaveOnePlace(c: Codec, events: seq<Event>, id: Id)
    requires Run(c, Init(), events).Running?
    ensures var s := Run(c, Init(), events).s;
      One(id in s.inflight) + One(IsDeferred(s.deferred, id)) + One(Holds(s.closing, id) && id !in s.inflight)
        == One(id in s.requests)
  {
    EveryRunIsGood(c, events);
    var s := Run(c, Init(), events).s;
    assert Places(s.requests.Keys, s.inflight.Keys, s.deferred, s.closing, Nobody);
  }

  // ----- generations

  /**
   Nothing is lost with a generation: whenever there is no backend, nothing is in flight, called back
   or waiting to be written; and whatever was sent to an earlier generation reached it and was replied to.
   */
  lemma NothingIsLostWithAGeneration(c: Codec, events: seq<Event>)
    requires Run(c, Init(), events).Running?
    ensures var s := Run(c, Init(), events).s;
      && (!s.live ==>
            && s.inflight == map[] && s.callbacks == {} && s.toBackend == []
            && s.history.written == SentBytes(s.history.sent)
            && (forall t :: t in Tickets(s.history.sent) ==> t in s.history.replied))
      && (forall i :: 0 <= i < LastStart(s.history.starts) ==>
            i < |s.history.sent| && (s.history.sent[i].Forwarded? ==> s.history.sent[i].ticket in s.history.replied))
      && LastStart(s.history.starts) <= |s.history.sent|
      && SentBytes(s.history.sent[..LastStart(s.history.starts)]) <= s.history.written
  {
    EveryRunIsGood(c, events);
    var s := Run(c, Init(), events).s;
    assert s.history.written + [] == s.history.written;
  }

  /** A live generation ends only by a close or release that found it idle. */
  lemma RetiresOnlyWhenIdle(c: Codec, s: State, e: Event)
    requires Inv(s, Nobody) && Enabled(s, e) && s.live && !Step(c, s, e).s.live
    ensures s.inflight == map[] && s.callbacks == {} && s.toBackend == []
    ensures s.history.written == SentBytes(s.history.sent)
  {
    StepRelated(c, s, e);
    assert s.history.written + [] == s.history.written;
  }

  /** After a release nothing is started and nothing more is sent to any backend. */
  lemma {:induction false} SilentAfterRelease(c: Codec, s: State, events: seq<Event>)
    requires Inv(s, Nobody) && s.releasing
    ensures var s1 := Run(c, s, events).s;
      && !s1.live && s1.releasing && s1.releaseId == s.releaseId
      && s1.history.starts == s.history.starts && s1.history.sent == s.history.sent
      && s1.history.written == s.history.written
    decreases |events|
  {
    if events != [] && Enabled(s, events[0]) {
      StepGood(c, s, events[0]);
      SilentStep(c, s, events[0]);
      var o := Step(c, s, events[0]);
      if o.Running? { SilentAfterRelease(c, o.s, events[1..]); }
    }
  }

  lemma SilentStep(c: Codec, s: State, e: Event)
    requires s.releasing && !s.live && Enabled(s, e)
    ensures var s1 := Step(c, s, e).s;
      && !s1.live && s1.releasing && s1.releaseId == s.releaseId
      && s1.history.starts == s.history.starts && s1.history.sent == s.history.sent
      && s1.history.written == s.history.written
  {
    if e.TakeClient? {
      var next := TakeLine(c.decode, s.clientBuffer);
      if next.Taken? {
        var s1 := s.(clientBuffer := next.rest);
        SilentClient(c, s1.(history := s1.history.Note(next.frame)), next.frame, e.w);
      }
    }
  }

  lemma SilentClient(c: Codec, s: State, f: Frame, w: World)
    requires s.releasing
    ensures var s1 := Client(c, s, f, w).s;
      && s1.live == s.live && s1.releasing && s1.releaseId == s.releaseId
      && s1.history.starts == s.history.starts && s1.history.sent == s.history.sent
      && s1.history.written == s.history.written
  {
    assert Client(c, s, f, w) == ClientReleased(c, s, f);
    SilentRefusal(c, s, f);
  }

  lemma SilentRefusal(c: Codec, s: State, f: Frame)
    ensures var s1 := ClientReleased(c, s, f).s;
      && s1.live == s.live && s1.releasing == s.releasing && s1.releaseId == s.releaseId
      && s1.history.starts == s.history.starts && s1.history.sent == s.history.sent
      && s1.history.written == s.history.written
  {
    if f.message.Request? {
      var s0, id := Accept(s, f.message.id, f.raw), f.message.id;
      SilentReply(s0, id, c.encode(ErrorReply(id, -32603, "Browser connection is permanently released; use a fresh thread.")));
    }
  }

  lemma SilentReply(s: State, id: Id, raw: Bytes)
    ensures var s1 := Reply(s, id, raw).s;
      && s1.live == s.live && s1.releasing == s.releasing && s1.releaseId == s.releaseId
      && s1.history.starts == s.history.starts && s1.history.sent == s.history.sent
      && s1.history.written == s.history.written
  {
  }

  /** A well-formed release succeeds exactly when the relay is quiescent, and is answered at once either way. */
  lemma ReleaseIsAnsweredAtOnce(c: Codec, s: State, f: Frame, w: World)
    requires Inv(s, Nobody) && !s.releasing && f.message.Request? && f.message.call == Release(true)
    requires f.message.id !in s.requests
    ensures var s1 := Client(c, s, f, w).s;
      && (s1.releasing <==> Quiescent(s, w.unread)) && (s1.live <==> s.live && !Quiescent(s, w.unread))
      && Answers(s1.history.outbox) == Answers(s.history.outbox) + [|s.history.accepted|]
      && (Quiescent(s, w.unread) && w.closes ==>
            s1.history.outbox == s.history.outbox + [Answer(|s.history.accepted|, c.encode(ReleaseReply(f.message.id)))])
      && (!Quiescent(s, w.unread) ==>
            s1.history.outbox == s.history.outbox +
              [Answer(|s.history.accepted|, c.encode(ErrorReply(f.message.id, -32603, "Browser connection is busy; release was not performed.")))])
      && s1.history.accepted == s.history.accepted + [Asked(f.message.id, f.raw)]
      && s1.history.sent == s.history.sent
  {
    var id := f.message.id;
    var s0 := Accept(s, id, f.raw);
    assert Quiescent(s0, w.unread) <==> Quiescent(s, w.unread);
    ReleaseShape(c, s0, id, w);
    var h, raw := s0.history, ReleaseText(c, s0, id, w);
    AnswersOfAppend(h.outbox, Answer(h.Ticket(id), raw));
  }

  function ReleaseText(c: Codec, s: State, id: Id, w: World): Bytes {
    if !Quiescent(s, w.unread) then
      c.encode(ErrorReply(id, -32603, "Browser connection is busy; release was not performed."))
    else if w.closes then c.encode(ReleaseReply(id))
    else c.encode(ErrorReply(id, -32603, "Owned browser resources could not be released."))
  }

  lemma ReleaseShape(c: Codec, s: State, id: Id, w: World)
    ensures var s1 := ReleaseRequest(c, s, id, true, w).s;
      && s1.history == s.history.Close(id).Queue(Answer(s.history.Ticket(id), ReleaseText(c, s, id, w)))
      && s1.releasing == (s.releasing || Quiescent(s, w.unread)) && s1.live == (s.live && !Quiescent(s, w.unread))
  {
    var s0 := CloseBackend(s.(releasing := true, releaseId := Some(id)));
    ReplyShape(s, id, ReleaseText(c, s, id, w));
    ReplyShape(s0, id, ReleaseText(c, s, id, w));
  }

  lemma ReplyShape(s: State, id: Id, raw: Bytes)
    ensures var s1 := Reply(s, id, raw).s;
      && s1.history == s.history.Close(id).Queue(Answer(s.history.Ticket(id), raw))
      && s1.releasing == s.releasing && s1.live == s.live
  {
  }

  // ----- restarts

  /** A cancelled close never ends the backend. */
  lemma CancelledCloseKeepsTheBackend(c: Codec, s: State, w: World)
    requires Inv(s, Nobody) && s.closing.Some? && s.closing.value.cancelled
    ensures NoRelease(s.deferred) && Progress(c, s, w).s.live
  {
    HeldIsGreeted(s);
    if Drained(s) {
      CancelledFinishLives(c, s, s.closing.value, w);
      var o := FinishClosing(c, s, s.closing.value, w);
      if o.Running? { ResumeRelated(c, o.s, w); }
    } else {
      ResumeRelated(c, s, w);
    }
  }

  lemma CancelledFinishLives(c: Codec, s: State, held: Closing, w: World)
    requires held.cancelled
    ensures var s1 := FinishClosing(c, s, held, w).s; s1.live == s.live && s1.deferred == s.deferred
  {
  }

  /** When work ends, a live and greeted generation has been given every deferred line up to a close. */
  lemma {:induction false} DrainEmptiesTheQueue(c: Codec, s: State, w: World)
    requires Drainable(s) && Drain(c, s, w).Running?
    ensures var s1 := Drain(c, s, w).s; s1.deferred == [] || s1.closing.Some?
    decreases |s.deferred|
  {
    if s.deferred != [] && s.closing.None? {
      DrainShrinks(c, s, w);
      DrainEmptiesTheQueue(c, Client(c, Undefer(s), s.deferred[0], w).s, w);
    }
  }

  /** Work that starts a generation leaves everything queued for the client, its own answers included, written. */
  lemma RestartWaitsForTheClient(c: Codec, s: State, w: World)
    requires Inv(s, Nobody)
    ensures NoRelease(s.deferred)
    ensures var s1 := Progress(c, s, w).s;
      s1.history.starts != s.history.starts ==> s1.toClient == [] && s1.history.delivered == LineBytes(s1.history.outbox)
  {
    if s.releasing {
    } else if s.closing.Some? && Drained(s) {
      var held := s.closing.value;
      FinishClosingGood(c, s, held, w);
      FinishStartsNothing(c, s, held, w);
      var o := FinishClosing(c, s, held, w);
      if o.Running? { ResumeWaits(c, o.s, w); }
    } else {
      ResumeWaits(c, s, w);
    }
  }

  lemma FinishStartsNothing(c: Codec, s: State, held: Closing, w: World)
    ensures FinishClosing(c, s, held, w).s.history.starts == s.history.starts
  {
    if held.response.Some? {
      ReplyStartsNothing(EndClosing(s, held.id), held.id, held.response.value);
      ReplyStartsNothing(EndClosing(CloseBackend(s), held.id), held.id, held.response.value);
      ReplyStartsNothing(EndClosing(CloseBackend(s), held.id), held.id,
                         c.encode(ErrorReply(held.id, -32603, "Owned browser resources could not be released.")));
    } else if held.cancelled {
      EndCancelledHistory(c, s, held.id);
    } else {
      ForwardStartsNothing(s, held.id, Close, held.raw);
    }
  }

  lemma ReplyStartsNothing(s: State, id: Id, raw: Bytes)
    ensures Reply(s, id, raw).s.history.starts == s.history.starts
  {
  }

  lemma ForwardStartsNothing(s: State, id: Id, call: Call, raw: Bytes)
    ensures Forward(s, id, call, raw).s.history.starts == s.history.starts
  {
  }

  lemma ResumeWaits(c: Codec, s: State, w: World)
    requires Inv(s, Nobody)
    ensures NoRelease(s.deferred)
    ensures var s1 := Resume(c, s, w).s;
      s1.history.starts != s.history.starts ==> s1.toClient == [] && s1.history.delivered == LineBytes(s1.history.outbox)
  {
    if !(s.releasing || s.closing.Some? || s.privateId.Some? || s.deferred == []) {
      if s.live { DrainAside(c, s, w); } else { RestartQuiet(c, s, w); }
    }
    assert s.history.delivered + [] == s.history.delivered;
  }

  lemma RestartQuiet(c: Codec, s: State, w: World)
    ensures var s1 := Restart(c, s, w).s;
      s1.toClient == s.toClient && s1.history.delivered == s.history.delivered && s1.history.outbox == s.history.outbox
  {
  }

  /**
   Every restarted generation is first sent the private initialize and then nothing but replies to its own
   callbacks, until the saved `initialized` line; while that handshake is open, no request has reached it.
   */
  lemma RestartedGenerationsAreGreeted(c: Codec, events: seq<Event>)
    requires Run(c, Init(), events).Running?
    ensures var s := Run(c, Init(), events).s; var h := s.history;
      && (forall k :: 1 <= k < |h.starts| ==> h.starts[k] < |h.sent| && h.sent[h.starts[k]].Private?)
      && (forall k :: 1 <= k < |h.starts| && (k + 1 < |h.starts| || s.privateId.None?) ==>
            k - 1 < |h.greeted| && Greeted(h.sent, h.starts[k], h.greeted[k - 1]))
      && (s.privateId.Some? ==>
            && s.live && s.inflight == map[] && 1 < |h.starts|
            && OnlyCallbacks(h.sent, LastStart(h.starts) + 1, |h.sent|))
  {
    EveryRunIsGood(c, events);
    var s := Run(c, Init(), events).s;
    var h := s.history;
    forall k | 1 <= k < |h.starts|
      ensures h.starts[k] < |h.sent| && h.sent[h.starts[k]].Private?
      ensures k + 1 < |h.starts| || s.privateId.None? ==>
                k - 1 < |h.greeted| && Greeted(h.sent, h.starts[k], h.greeted[k - 1])
    {
      if k - 1 < |h.greeted| { assert Greeted(h.sent, h.starts[(k - 1) + 1], h.greeted[k - 1]); }
    }
  }

  // ----- at most once, in order, and never after a cancellation

  /**
   Across all generations no request is sent twice and none that was cancelled before execution is sent at all,
   even in a run that raised; while the relay runs, each was sent with the bytes the client sent, and what was
   cancelled has been answered.
   */
  lemma RequestsAreSentAtMostOnce(c: Codec, events: seq<Event>)
    ensures var o := Run(c, Init(), events); var h := o.s.history;
      && Distinct(Tickets(h.sent)) && (forall t :: t in Tickets(h.sent) ==> t < |h.accepted|)
      && (forall t :: t in h.dropped ==> t < |h.accepted| && t !in Tickets(h.sent))
      && (o.Running? ==>
            && (forall i :: 0 <= i < |h.sent| && h.sent[i].Forwarded? ==>
                  h.sent[i].ticket < |h.accepted| && h.sent[i].raw == h.accepted[h.sent[i].ticket].raw)
            && (forall t :: t in h.dropped ==> t in Answers(h.outbox)))
  {
    EveryRunIsGood(c, events);
    var h := Run(c, Init(), events).s.history;
    if Run(c, Init(), events).Running? {
      forall t | t in h.dropped ensures t in Answers(h.outbox) { assert !IsOpen(h.accepted, h.open, t); }
    }
  }

  /** Deferred lines leave in the order in which they were deferred, each at most once. */
  lemma DeferredLinesLeaveInOrder(c: Codec, events: seq<Event>)
    requires Run(c, Init(), events).Running?
    ensures var s := Run(c, Init(), events).s; var h := s.history;
      && Increasing(h.left + h.waiting)
      && |h.waiting| == |s.deferred|
      && (forall i :: 0 <= i < |h.waiting| ==> h.waiting[i] < |h.arrivals| && s.deferred[i] == h.arrivals[h.waiting[i]])
  {
    EveryRunIsGood(c, events);
  }

  /** The request with ticket t has been cancelled and will not be sent: dropped, or a held close that will be. */
  ghost predicate Doomed(s: State, t: nat) {
    t in s.history.dropped ||
    (s.closing.Some? && s.closing.value.cancelled && s.closing.value.response.None?
     && s.closing.value.id !in s.inflight
     && s.closing.value.id in s.history.open && s.history.open[s.closing.value.id] == t)
  }

  /** A cancellation that finds its request deferred or held unsent dooms it. */
  lemma CancellationDooms(c: Codec, s: State, f: Frame, id: Id, w: World)
    requires Inv(s, Nobody) && !s.releasing && f.message == Notification(Cancelled(Some(id)))
    requires IsDeferred(s.deferred, id) || (Holds(s.closing, id) && s.closing.value.response.None? && id !in s.inflight)
    ensures id in s.history.open && Doomed(Client(c, s, f, w).s, s.history.open[id])
  {
    var s1 := MarkClosing(s, id);
    var i := FindDeferred(s.deferred, id);
    if IsDeferred(s.deferred, id) {
      var j :| DeferredAt(s.deferred, j, id);
      assert i < |s.deferred|;
      DropDooms(c, s1, i, id);
    } else {
      assert i == |s.deferred| || DeferredAt(s.deferred, i, id);
      assert Doomed(s1, s.history.open[id]);
      PassNoticeAside(s1, f);
      AsideIsRelated(s1, PassNotice(s1, f).s);
    }
  }

  lemma DropDooms(c: Codec, s: State, i: nat, id: Id)
    requires i < |s.deferred| && id in s.history.open
    ensures s.history.open[id] in DropDeferred(c, s, i, id).s.history.dropped
  {
  }

  /** Whatever happens afterwards, a doomed request is never sent to any backend. */
  lemma {:induction false} DoomedIsNeverSent(c: Codec, s: State, events: seq<Event>, t: nat)
    requires Inv(s, Nobody) && Doomed(s, t) && Run(c, s, events).Running?
    ensures t !in Tickets(Run(c, s, events).s.history.sent)
    decreases |events|
  {
    if events == [] || !Enabled(s, events[0]) {
      DoomedUnsent(s, t);
    } else {
      var e := events[0];
      RunUnfolds(c, s, events);
      StepGood(c, s, e);
      StepRelated(c, s, e);
      DoomedIsNeverSent(c, Step(c, s, e).s, events[1..], t);
    }
  }

  lemma RunUnfolds(c: Codec, s: State, events: seq<Event>)
    requires events != [] && Enabled(s, events[0])
    ensures Run(c, s, events) ==
      if Step(c, s, events[0]).Raised? then Step(c, s, events[0]) else Run(c, Step(c, s, events[0]).s, events[1..])
  {
  }

  lemma DoomedUnsent(s: State, t: nat)
    requires Inv(s, Nobody) && Doomed(s, t)
    ensures t !in Tickets(s.history.sent)
  {
  }

  // ----- what one step may do to the backend's life and to a doomed request

  predicate Idle(s: State) {
    s.inflight == map[] && s.callbacks == {} && s.toBackend == []
  }

  /** A backend ends only when idle, and what is doomed stays doomed. */
  ghost predicate Related(s: State, s1: State) {
    && s.history.dropped <= s1.history.dropped
    && (s.live && !s1.live ==> Idle(s))
    && (forall t :: Doomed(s, t) ==> Doomed(s1, t))
  }

  /** Changes that touch neither the backend's life nor the held close nor any other open ticket. */
  ghost predicate Aside(s: State, s1: State) {
    && s1.live == s.live && s1.history.starts == s.history.starts && s.history.dropped <= s1.history.dropped
    && (s.closing.Some? ==>
          && s1.closing.Some? && s1.closing.value == s.closing.value.(cancelled := s1.closing.value.cancelled)
          && (s.closing.value.cancelled ==> s1.closing.value.cancelled)
          && (s.closing.value.id in s1.inflight ==> s.closing.value.id in s.inflight)
          && (s.closing.value.id in s.history.open ==>
                s.closing.value.id in s1.history.open &&
                s1.history.open[s.closing.value.id] == s.history.open[s.closing.value.id]))
  }

  lemma AsideIsRelated(s: State, s1: State)
    requires Aside(s, s1)
    ensures Related(s, s1)
  {
  }

  lemma AnsweredAside(s: State, id: Id, asked: Bytes, raw: Bytes)
    requires !Holds(s.closing, id)
    ensures Aside(s, Reply(Accept(s, id, asked), id, raw).s)
  {
  }

  lemma CallbackAside(s: State, f: Frame, ident: Option<Id>)
    ensures Aside(s, ClientCallback(s, f, ident).s)
  {
  }

  lemma PassNoticeAside(s: State, f: Frame)
    ensures Aside(s, PassNotice(s, f).s)
  {
  }

  lemma DropAside(c: Codec, s: State, i: nat, id: Id)
    requires i < |s.deferred| && !Holds(s.closing, id)
    ensures Aside(s, DropDeferred(c, s, i, id).s)
  {
  }

  lemma AsideChains(s: State, s1: State, s2: State)
    requires Aside(s, s1) && Aside(s1, s2)
    ensures Aside(s, s2)
  {
  }

  lemma CancelAside(c: Codec, s: State, f: Frame, id: Id)
    requires IsDeferred(s.deferred, id) ==> !Holds(s.closing, id)
    ensures Aside(s, ClientNotice(c, s, f, Cancelled(Some(id))).s)
  {
    var s1 := MarkClosing(s, id);
    assert Aside(s, s1);
    var i := FindDeferred(s1.deferred, id);
    if i < |s1.deferred| {
      assert DeferredAt(s.deferred, i, id);
      DropAside(c, s1, i, id);
      AsideChains(s, s1, DropDeferred(c, s1, i, id).s);
    } else {
      PassNoticeAside(s1, f);
      AsideChains(s, s1, PassNotice(s1, f).s);
    }
  }

  lemma NoticeAside(c: Codec, s: State, f: Frame, n: Notice)
    requires forall id :: IsDeferred(s.deferred, id) ==> !Holds(s.closing, id)
    ensures Aside(s, ClientNotice(c, s, f, n).s)
  {
    match n
    case Plain => PassNoticeAside(s, f);
    case Initialized =>
    case Cancelled(None) =>
    case Cancelled(Some(id)) => CancelAside(c, s, f, id);
  }

  lemma DispatchAside(s: State, f: Frame, id: Id, call: Call)
    ensures Aside(s, Dispatch(s, f, id, call).s)
  {
  }

  lemma AdmitAside(s: State, id: Id, call: Call, raw: Bytes)
    ensures Aside(s, Admit(s, id, call, raw))
  {
  }

  lemma ReleaseRelated(c: Codec, s: State, id: Id, asked: Bytes, wellFormed: bool, w: World)
    requires !Holds(s.closing, id)
    ensures Related(s, ReleaseRequest(c, Accept(s, id, asked), id, wellFormed, w).s)
  {
    if !wellFormed {
      AnsweredAside(s, id, asked, c.encode(ErrorReply(id, -32602, "browser_release accepts no target or arguments.")));
    } else if !Quiescent(Accept(s, id, asked), w.unread) {
      AnsweredAside(s, id, asked, c.encode(ErrorReply(id, -32603, "Browser connection is busy; release was not performed.")));
    }
  }

  lemma RequestRelated(c: Codec, s: State, f: Frame, id: Id, call: Call, w: World)
    requires Holds(s.closing, id) ==> id in s.requests
    ensures Related(s, ClientRequest(c, s, f, id, call, w).s)
  {
    if id in s.requests {
    } else if call.Release? {
      ReleaseRelated(c, s, id, f.raw, call.wellFormed, w);
    } else if !s.live && call.Ping? {
      AnsweredAside(s, id, f.raw, c.encode(PingReply(id)));
    } else {
      var s1 := Admit(s, id, call, f.raw);
      AdmitAside(s, id, call, f.raw);
      DispatchAside(s1, f, id, call);
      AsideChains(s, s1, Dispatch(s1, f, id, call).s);
    }
  }

  lemma ReleasedAside(c: Codec, s: State, f: Frame)
    requires s.closing.None?
    ensures Aside(s, ClientReleased(c, s, f).s)
  {
    if f.message.Request? {
      AnsweredAside(s, f.message.id, f.raw,
                    c.encode(ErrorReply(f.message.id, -32603, "Browser connection is permanently released; use a fresh thread.")));
    }
  }

  lemma ClientRelated(c: Codec, s: State, f: Frame, w: World)
    requires Inv(s, Nobody)
    ensures Related(s, Client(c, s, f, w).s)
  {
    HeldOrDeferred(s);
    if s.releasing {
      ReleasedAside(c, s, f);
      AsideIsRelated(s, ClientReleased(c, s, f).s);
    } else {
      match f.message
      case Response(ident, _) => CallbackAside(s, f, ident);
      case Notification(n) => NoticeAside(c, s, f, n);
      case Request(id, call) => RequestRelated(c, s, f, id, call, w);
    }
  }

  lemma ListenRelated(c: Codec, s: State, f: Frame, w: World)
    requires Inv(s, Nobody)
    ensures Related(s, Listen(c, s, f, w).s)
  {
    var s1 := s.(history := s.history.Note(f));
    TrailKeeps(s, Nobody, s1.history.trail);
    ClientRelated(c, s1, f, w);
    assert forall t :: Doomed(s, t) ==> Doomed(s1, t);
  }

  lemma HeldOrDeferred(s: State)
    requires Inv(s, Nobody)
    ensures forall id :: IsDeferred(s.deferred, id) ==> !Holds(s.closing, id)
    ensures s.closing.Some? ==> s.closing.value.id in s.requests && !s.releasing
  {
  }

  /** A reply to the held close itself means that the close was in flight, so it was not doomed. */
  lemma DeliverRelated(s: State, s1: State, id: Id, closed: bool, raw: Bytes)
    requires id in s.inflight && ReplyTaken(s, s1, id)
    ensures Related(s, Deliver(s1, id, closed, raw).s)
  {
    DeliverShape(s1, id, closed, raw);
    if Holds(s.closing, id) {
      HeldRelated(s, Deliver(s1, id, closed, raw).s, id);
    } else {
      SettledAside(s, s1, id, raw);
      AsideIsRelated(s, Settled(s1, id, raw));
    }
  }

  /** A reply has been taken, and perhaps an identity learned from it. */
  predicate ReplyTaken(s: State, s1: State, id: Id) {
    s1 == TakeReply(s, id).(identity := s1.identity, history := s1.history) &&
    s1.history == TakeReply(s, id).history.(trail := s1.history.trail)
  }

  lemma SettledAside(s: State, s1: State, id: Id, raw: Bytes)
    requires ReplyTaken(s, s1, id) && !Holds(s.closing, id)
    ensures Aside(s, Settled(s1, id, raw))
  {
  }

  /** A close in flight is not doomed, whatever happens to it. */
  lemma HeldRelated(s: State, s1: State, id: Id)
    requires id in s.inflight && Holds(s.closing, id) && s1.history.dropped == s.history.dropped && s1.live == s.live
    ensures Related(s, s1)
  {
  }

  lemma InterpretRelated(c: Codec, s: State, id: Id, body: Body, raw: Bytes)
    requires id in s.inflight
    ensures Related(s, Interpret(c, TakeReply(s, id), id, s.inflight[id], body, raw).s)
  {
    var s1 := TakeReply(s, id);
    match body
    case Failure => DeliverRelated(s, s1, id, false, raw);
    case Success(identity, inventory, closed) =>
      if s.inflight[id].Initialize? {
        DeliverRelated(s, s1.(identity := identity, history := s1.history.Learn(id)), id, closed, raw);
      } else if s.inflight[id].ListTools? {
        if inventory.Some? { DeliverRelated(s, s1, id, closed, c.encode(ToolsReply(id, inventory.value))); }
      } else {
        DeliverRelated(s, s1, id, closed, raw);
      }
  }

  lemma PrivateAside(s: State, body: Body)
    ensures Aside(s, PrivateReply(s, body).s)
  {
    ConfidedAside(s.(history := s.history.Confide()), body);
  }

  lemma ConfidedAside(s: State, body: Body)
    ensures Aside(s, ConfidedReply(s, body).s)
  {
  }

  lemma ServerReplyRelated(c: Codec, s: State, id: Id, body: Body, raw: Bytes)
    ensures Related(s, ServerReply(c, s, id, body, raw).s)
  {
    if s.privateId == Some(id) {
      PrivateAside(s, body);
      AsideIsRelated(s, PrivateReply(s, body).s);
    } else if id in s.inflight {
      InterpretRelated(c, s, id, body, raw);
    }
  }

  lemma ServerRelated(c: Codec, s: State, f: Frame)
    ensures Related(s, Server(c, s, f).s)
  {
    var s1 := s.(history := s.history.Hear(f));
    ServeRelated(c, s1, f);
    assert forall t :: Doomed(s, t) ==> Doomed(s1, t);
  }

  lemma ServeRelated(c: Codec, s: State, f: Frame)
    ensures Related(s, Serve(c, s, f).s)
  {
    match f.message
    case Notification(_) => assert Aside(s, PutClient(s, Pass(f.raw)));
    case Request(id, _) =>
      if id !in s.callbacks { assert Aside(s, PutClient(s.(callbacks := s.callbacks + {id}), Pass(f.raw))); }
    case Response(None, _) =>
    case Response(Some(id), body) => ServerReplyRelated(c, s, id, body, f.raw);
  }

  lemma DrainOneAside(c: Codec, s: State, w: World)
    requires Drainable(s) && s.deferred != [] && s.closing.None?
    ensures var s1 := Client(c, Undefer(s), s.deferred[0], w).s;
            s1.live && s1.history.starts == s.history.starts && s.history.dropped <= s1.history.dropped
  {
    var f, s1 := s.deferred[0], Undefer(s);
    assert !IsRelease(f.message);
    match f.message
    case Response(ident, _) => CallbackAside(s1, f, ident);
    case Notification(n) => NoticeAside(c, s1, f, n);
    case Request(id, call) =>
      AdmitAside(s1, id, call, f.raw);
      DispatchAside(Admit(s1, id, call, f.raw), f, id, call);
  }

  lemma {:induction false} DrainAside(c: Codec, s: State, w: World)
    requires Drainable(s)
    ensures var s1 := Drain(c, s, w).s;
            s1.live && s1.history.starts == s.history.starts && s.history.dropped <= s1.history.dropped
    decreases |s.deferred|
  {
    if s.deferred != [] && s.closing.None? {
      DrainShrinks(c, s, w);
      DrainOneAside(c, s, w);
      var o := Client(c, Undefer(s), s.deferred[0], w);
      if o.Running? { DrainAside(c, o.s, w); }
    }
  }

  lemma ResumeRelated(c: Codec, s: State, w: World)
    requires NoRelease(s.deferred)
    ensures var s1 := Resume(c, s, w).s;
      && (s.live ==> s1.live) && s.history.dropped <= s1.history.dropped
      && (s.closing.Some? ==> s1 == s)
  {
    if !(s.releasing || s.closing.Some? || s.privateId.Some? || s.deferred == []) && s.live { DrainAside(c, s, w); }
  }

  lemma ProgressRelated(c: Codec, s: State, w: World)
    requires Inv(s, Nobody)
    ensures NoRelease(s.deferred) && Related(s, Progress(c, s, w).s)
  {
    if s.releasing {
    } else if s.closing.Some? && Drained(s) {
      var held := s.closing.value;
      FinishClosingGood(c, s, held, w);
      FinishDrops(c, s, held, w);
      var o := FinishClosing(c, s, held, w);
      if o.Running? { ResumeRelated(c, o.s, w); }
    } else {
      ResumeRelated(c, s, w);
    }
  }

  /** Once a held close is finished, whatever was doomed has been dropped. */
  lemma FinishDrops(c: Codec, s: State, held: Closing, w: World)
    requires s.closing == Some(held)
    ensures var s1 := FinishClosing(c, s, held, w).s;
            s.history.dropped <= s1.history.dropped && forall t :: Doomed(s, t) ==> t in s1.history.dropped
  {
    FinishClosingShape(c, s, held, w);
    var h := s.history;
    assert forall t :: Doomed(s, t) ==> t in h.dropped ||
                                        (held.response.None? && held.cancelled && t in h.Drop(held.id).dropped);
    FinishHistory(c, s, held, w);
  }

  lemma FinishHistory(c: Codec, s: State, held: Closing, w: World)
    ensures var h1 := FinishClosing(c, s, held, w).s.history;
            h1.dropped == if held.response.None? && held.cancelled then s.history.Drop(held.id).dropped else s.history.dropped
  {
    if held.response.None? && held.cancelled { EndCancelledHistory(c, s, held.id); }
  }

  lemma EndCancelledHistory(c: Codec, s: State, id: Id)
    ensures EndCancelled(c, s, id).s.history.dropped == s.history.Drop(id).dropped
    ensures EndCancelled(c, s, id).s.history.starts == s.history.starts
  {
  }

  lemma TakeRelated(c: Codec, s: State, fromClient: bool, w: World)
    requires Inv(s, Nobody)
    ensures Related(s, Take(c, s, fromClient, w).s)
  {
    var next := TakeLine(c.decode, if fromClient then s.clientBuffer else s.backendBuffer);
    if next.Taken? {
      BuffersKeep(s, next.rest, next.rest);
      var s0 := if fromClient then s.(clientBuffer := next.rest) else s.(backendBuffer := next.rest);
      var o := if fromClient then Listen(c, s0, next.frame, w) else Server(c, s0, next.frame);
      assert Related(s0, o.s) by {
        if fromClient { ListenRelated(c, s0, next.frame, w); } else { ServerRelated(c, s0, next.frame); }
      }
      RelatedBuffers(s, s0, o.s);
    } else if next.Bad? {
      AsideIsRelated(s, Take(c, s, fromClient, w).s);
    }
  }

  lemma RelatedBuffers(s: State, s0: State, s1: State)
    requires Related(s0, s1) && (s0 == s.(clientBuffer := s0.clientBuffer) || s0 == s.(backendBuffer := s0.backendBuffer))
    ensures Related(s, s1)
  {
    assert forall t :: Doomed(s, t) ==> Doomed(s0, t);
  }

  lemma StepRelated(c: Codec, s: State, e: Event)
    requires Inv(s, Nobody) && Enabled(s, e)
    ensures Related(s, Step(c, s, e).s)
  {
    match e
    case TakeClient(w) => TakeRelated(c, s, true, w);
    case TakeBackend => TakeRelated(c, s, false, World(false, false, false, ""));
    case Work(w) => ProgressRelated(c, s, w);
    case _ => AsideIsRelated(s, Step(c, s, e).s);
  }

  // ----- the failure branch

  function FailureText(c: Codec, id: Id): Bytes {
    c.encode(ErrorReply(id, -32603, "Browser transport failed; the request was not replayed."))
  }

  function FailureBytes(c: Codec, order: seq<Id>): nat {
    if order == [] then 0 else |FailureText(c, order[0])| + FailureBytes(c, order[1..])
  }

  /** The room left in the budget covers every failure reply but the last. */
  predicate FailureFits(c: Codec, s: State, order: seq<Id>) {
    |order| <= 1 ||
    (Buffered(s) + FailureBytes(c, order[..|order| - 1]) <= MAX_RELAY_BYTES
     && |s.requests| + |s.callbacks| <= MAX_PENDING_REQUESTS)
  }

  /** `order` lists the pending requests, each once. */
  ghost predicate ListsPending(s: State, order: seq<Id>) {
    Distinct(order) && (forall id :: id in order <==> id in s.history.open)
  }

  /**
   After a failure in any run: no request is answered twice, and every accepted request has been
   answered exactly when the budget has room for the failure replies. The loop queues each reply
   before it checks, so the reply that overruns the budget is still queued but those after it are not.
   */
  lemma FailureAnswersEveryRequest(c: Codec, events: seq<Event>, order: seq<Id>)
    requires Run(c, Init(), events).Raised? && ListsPending(Run(c, Init(), events).s, order)
    ensures var s := Run(c, Init(), events).s; var s1 := FailAll(c, s, order).s;
      && Distinct(Answers(s1.history.outbox))
      && s1.history.accepted == s.history.accepted
      && (AllAnswered(s1) <==> FailureFits(c, s, order))
  {
    EveryRunIsGood(c, events);
    FailureFromState(c, Run(c, Init(), events).s, order);
  }

  ghost predicate AllAnswered(s: State) {
    forall t: nat :: t < |s.history.accepted| ==> t in Answers(s.history.outbox)
  }

  lemma FailureFromState(c: Codec, s: State, order: seq<Id>)
    requires Safe(s) && ListsPending(s, order)
    ensures var s1 := FailAll(c, s, order).s;
      && Distinct(Answers(s1.history.outbox))
      && s1.history.accepted == s.history.accepted
      && (AllAnswered(s1) <==> FailureFits(c, s, order))
  {
    FailAllKeeps(c, s, order);
    FailAllCovers(c, s, order);
    AnsweredMeansClosed(FailAll(c, s, order).s);
  }

  lemma AnsweredMeansClosed(s: State)
    requires Ledger(s.history.accepted, s.history.open, Answers(s.history.outbox))
    ensures AllAnswered(s) <==> s.history.open == map[]
  {
    var h := s.history;
    if h.open == map[] {
      forall t: nat | t < |h.accepted| ensures t in Answers(h.outbox) { assert !IsOpen(h.accepted, h.open, t); }
    } else {
      var id :| id in h.open;
      assert IsOpen(h.accepted, h.open, h.open[id]);
    }
  }

  lemma {:induction false} FailAllKeeps(c: Codec, s: State, order: seq<Id>)
    requires Ledger(s.history.accepted, s.history.open, Answers(s.history.outbox)) && ListsPending(s, order)
    ensures var h := FailAll(c, s, order).s.history;
            Ledger(h.accepted, h.open, Answers(h.outbox)) && h.accepted == s.history.accepted
    decreases |order|
  {
    if order != [] {
      var s1 := FailOne(c, s, order[0]);
      FailAllUnfolds(c, s, order);
      FailOneFacts(c, s, order);
      FailOneLedger(s.history, order[0], FailureText(c, order[0]));
      if WithinBudget(s1) { FailAllKeeps(c, s1, order[1..]); }
    }
  }

  lemma FailOneLedger(h: History, id: Id, text: Bytes)
    requires Ledger(h.accepted, h.open, Answers(h.outbox)) && id in h.open
    ensures var h1 := h.Close(id).Queue(Answer(h.Ticket(id), text));
      Ledger(h1.accepted, h1.open, Answers(h1.outbox)) && h1.accepted == h.accepted
  {
    LedgerAnswer(h, Answers(h.outbox), id);
    AnswersOfAppend(h.outbox, Answer(h.Ticket(id), text));
  }

  function FailOne(c: Codec, s: State, id: Id): State {
    PutClient(s.(history := s.history.Close(id)), Answer(s.history.Ticket(id), FailureText(c, id)))
  }

  lemma FailAllUnfolds(c: Codec, s: State, order: seq<Id>)
    requires order != []
    ensures var s1 := FailOne(c, s, order[0]);
            FailAll(c, s, order) == if WithinBudget(s1) then FailAll(c, s1, order[1..]) else Raised(s1)
  {
  }

  lemma FailOneFacts(c: Codec, s: State, order: seq<Id>)
    requires ListsPending(s, order) && order != []
    ensures var s1 := FailOne(c, s, order[0]);
      && ListsPending(s1, order[1..]) && Buffered(s1) == Buffered(s) + |FailureText(c, order[0])|
      && s1.requests == s.requests && s1.callbacks == s.callbacks
      && (s1.history.open == map[] <==> |order| == 1)
  {
    var s1, rest := FailOne(c, s, order[0]), order[1..];
    assert order == [order[0]] + rest;
    assert ListsPending(s1, rest);
    if |order| == 1 {
      assert s1.history.open.Keys == {};
    } else {
      assert rest[0] in s1.history.open;
    }
  }

  lemma FitsUnfolds(c: Codec, s: State, s1: State, order: seq<Id>)
    requires order != [] && Buffered(s1) == Buffered(s) + |FailureText(c, order[0])|
    requires s1.requests == s.requests && s1.callbacks == s.callbacks
    ensures FailureFits(c, s, order) <==> |order| == 1 || (WithinBudget(s1) && FailureFits(c, s1, order[1..]))
  {
    var rest := order[1..];
    if |order| > 1 {
      assert order[..|order| - 1][1..] == rest[..|rest| - 1];
      assert FailureBytes(c, order[..|order| - 1]) == |FailureText(c, order[0])| + FailureBytes(c, rest[..|rest| - 1]);
    }
  }

  lemma {:induction false} FailAllCovers(c: Codec, s: State, order: seq<Id>)
    requires ListsPending(s, order)
    ensures FailAll(c, s, order).s.history.open == map[] <==> FailureFits(c, s, order)
    decreases |order|
  {
    if order == [] {
      assert s.history.open.Keys == {};
    } else {
      var s1, rest := FailOne(c, s, order[0]), order[1..];
      FailAllUnfolds(c, s, order);
      FailOneFacts(c, s, order);
      FitsUnfolds(c, s, s1, order);
      FailAllCovers(c, s1, rest);
    }
  }

  /** The first n replies of the failure branch: each request's own ticket, and a transport error made out to it. */
  function FailureLines(c: Codec, h: History, order: seq<Id>, n: nat): seq<Line>
    requires n <= |order|
  {
    seq(n, i requires 0 <= i < n => Answer(h.Ticket(order[i]), c.encode(ErrorReply(order[i], -32603, "Browser transport failed; the request was not replayed."))))
  }

  /** The failure branch queues transport errors for the pending requests in the given order, all of them unless the budget stops it. */
  lemma {:induction false} FailureReplies(c: Codec, s: State, order: seq<Id>) returns (n: nat)
    requires ListsPending(s, order)
    ensures n <= |order| && (FailAll(c, s, order).Running? ==> n == |order|)
    ensures FailAll(c, s, order).s.history.outbox == s.history.outbox + FailureLines(c, s.history, order, n)
    ensures FailAll(c, s, order).s.history.sent == s.history.sent
    decreases |order|
  {
    if order == [] {
      n := 0;
    } else {
      var s1 := FailOne(c, s, order[0]);
      var line := Answer(s.history.Ticket(order[0]), FailureText(c, order[0]));
      FailAllUnfolds(c, s, order);
      FailOneFacts(c, s, order);
      FailOneLine(c, s, order[0]);
      if WithinBudget(s1) {
        var m := FailureReplies(c, s1, order[1..]);
        n := m + 1;
        LinesShift(c, s.history, s1.history, order, m);
        LinesJoin(s.history.outbox, line, FailureLines(c, s1.history, order[1..], m));
      } else {
        n := 1;
        LinesShift(c, s.history, s1.history, order, 0);
      }
    }
  }

  lemma FailOneLine(c: Codec, s: State, id: Id)
    ensures var h := FailOne(c, s, id).history;
      && h.outbox == s.history.outbox + [Answer(s.history.Ticket(id), FailureText(c, id))]
      && h.open == s.history.open - {id} && h.sent == s.history.sent
  {
  }

  lemma LinesJoin(a: seq<Line>, x: Line, b: seq<Line>)
    ensures a + [x] + b == a + ([x] + b)
  {
  }

  lemma LinesShift(c: Codec, h: History, h1: History, order: seq<Id>, m: nat)
    requires order != [] && m < |order| && Distinct(order) && h1.open == h.open - {order[0]}
    ensures FailureLines(c, h, order, m + 1) ==
      [Answer(h.Ticket(order[0]), FailureText(c, order[0]))] + FailureLines(c, h1, order[1..], m)
  {
    forall i | 1 <= i < m + 1 ensures h.Ticket(order[i]) == h1.Ticket(order[1..][i - 1]) {
      assert order[0] != order[i];
    }
  }

  /**
   The room can be missing: with 256 requests and callbacks pending, one more request raises,
   and the failure branch then answers only one of the pending requests.
   */
  lemma OverfullRelayLeavesRequestsUnanswered(c: Codec, s: State, f: Frame, w: World, order: seq<Id>)
    requires Inv(s, Nobody) && !s.releasing && s.live && s.requests != map[]
    requires |s.requests| + |s.callbacks| == MAX_PENDING_REQUESTS
    requires f.message.Request? && f.message.call.Other? && f.message.id !in s.requests
    requires ListsPending(Client(c, s, f, w).s, order)
    ensures Client(c, s, f, w).Raised?
    ensures var s1 := Client(c, s, f, w).s;
      && |order| > 1 && |Answers(FailAll(c, s1, order).s.history.outbox)| == |Answers(s.history.outbox)| + 1
      && !AllAnswered(FailAll(c, s1, order).s)
  {
    var id := f.message.id;
    OverfullRaises(s, f, id);
    AdmitSafe(s, id, f.message.call, f.raw);
    var other :| other in s.requests;
    OverfullFails(c, Admit(s, id, f.message.call, f.raw), order, id, other);
  }

  lemma AdmitSafe(s: State, id: Id, call: Call, raw: Bytes)
    requires Inv(s, Nobody) && id !in s.requests
    ensures var s1 := Admit(s, id, call, raw);
      && Safe(s1) && s1.history.outbox == s.history.outbox
      && id in s1.history.open && forall k :: k in s.requests ==> k in s1.history.open
  {
    AdmitKeeps(s, id, call, raw);
    SafeAnyway(Admit(s, id, call, raw), Fresh(id));
  }

  lemma OverfullFails(c: Codec, s: State, order: seq<Id>, id: Id, other: Id)
    requires Safe(s) && ListsPending(s, order) && |s.requests| + |s.callbacks| > MAX_PENDING_REQUESTS
    requires id != other && id in s.history.open && other in s.history.open
    ensures |order| > 1 && |Answers(FailAll(c, s, order).s.history.outbox)| == |Answers(s.history.outbox)| + 1
    ensures !AllAnswered(FailAll(c, s, order).s)
  {
    assert id in order && other in order;
    FailAllUnfolds(c, s, order);
    FailOneFacts(c, s, order);
    AnswersOfAppend(s.history.outbox, Answer(s.history.Ticket(order[0]), FailureText(c, order[0])));
    FailureFromState(c, s, order);
  }

  lemma OverfullRaises(s: State, f: Frame, id: Id)
    requires id !in s.requests && |s.requests| + |s.callbacks| == MAX_PENDING_REQUESTS && f.message.Request?
    ensures var s1 := Admit(s, id, f.message.call, f.raw);
            |s1.requests| + |s1.callbacks| > MAX_PENDING_REQUESTS && CheckBudget(s1) == Raised(s1)
  {
    GrownMap(s.requests, id, f.message.call);
  }

  lemma GrownMap(requests: map<Id, Call>, id: Id, call: Call)
    requires id !in requests
    ensures |requests[id := call]| == |requests| + 1
  {
    assert requests[id := call].Keys == requests.Keys + {id};
  }
}
