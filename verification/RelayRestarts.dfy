/** When a generation is restarted, and what it is then sent. */
module RelayRestarts {
  import opened Common
  import opened Mcp
  import opened Frames
  import opened RelayModel
  import opened RelayInvariants
  import opened RelaySteps
  import opened RelayHandlers
  import opened RelayRuns
  import opened RelayTrail
  import opened RelayMemory
  import opened RelayAccounts
  import opened RelayCloses

  // ----- when

  /** There is something to restore and the system can start a process. */
  predicate Restorable(s: State, w: World) {
    s.initialize.Some? && s.identity.Some? && s.initialized.Some? && w.starts
  }

  /** A request waits, and everything for the client has been written. */
  ghost predicate Wanted(s: State) {
    s.toClient == [] && exists id :: IsDeferred(s.deferred, id)
  }

  lemma RequestWaits(deferred: seq<Frame>)
    ensures HasRequest(deferred) <==> exists id :: IsDeferred(deferred, id)
  {
    if HasRequest(deferred) {
      var i :| 0 <= i < |deferred| && deferred[i].message.Request?;
      assert DeferredAt(deferred, i, deferred[i].message.id);
      assert IsDeferred(deferred, deferred[i].message.id);
    }
    if exists id :: IsDeferred(deferred, id) {
      var id :| IsDeferred(deferred, id);
      var i :| DeferredAt(deferred, i, id);
      assert deferred[i].message.Request?;
    }
  }

  /**
   In every run, work starts a generation exactly when there is none, the relay is not released, everything for the
   client has been written, a request waits, and the client's handshake can be restored; no other work starts one.
   */
  lemma RestartsExactly(c: Codec, events: seq<Event>, w: World)
    requires Run(c, Init(), events).Running? && Enabled(Run(c, Init(), events).s, Work(w))
    ensures var s := Run(c, Init(), events).s; var s1 := Step(c, s, Work(w)).s;
      s1.history.starts ==
        if !s.live && !s.releasing && Wanted(s) && Restorable(s, w) then s.history.starts + [|s.history.sent|] else s.history.starts
  {
    RunsReach(c, events);
    var s := Run(c, Init(), events).s;
    assert Step(c, s, Work(w)).s == Progress(c, s, w).s;
    if s.releasing {
    } else if s.closing.Some? && Drained(s) {
      HeldIsGreeted(s);
      IsIdle(s);
      CloseStartsNothing(c, s, s.closing.value, w);
    } else {
      NoBackendNoHold(s);
      ResumeStarts(c, s, w);
    }
  }

  lemma NoBackendNoHold(s: State)
    requires Inv(s, Nobody)
    ensures NoRelease(s.deferred) && (!s.live ==> s.closing.None? && s.privateId.None?)
  {
  }

  lemma ResumeStarts(c: Codec, s: State, w: World)
    requires NoRelease(s.deferred) && !s.releasing && (!s.live ==> s.closing.None? && s.privateId.None?)
    ensures Resume(c, s, w).s.history.starts ==
      if !s.live && Wanted(s) && Restorable(s, w) then s.history.starts + [|s.history.sent|] else s.history.starts
  {
    RequestWaits(s.deferred);
    if s.closing.Some? || s.privateId.Some? || s.deferred == [] {
    } else if s.live {
      DrainAside(c, s, w);
    } else {
      RestartStarts(c, s, w);
    }
  }

  lemma RestartStarts(c: Codec, s: State, w: World)
    ensures Restart(c, s, w).s.history.starts == if Restorable(s, w) then s.history.starts + [|s.history.sent|] else s.history.starts
  {
  }

  /** A close that ends a generation leaves its answer to be written, so nothing is started in the same step. */
  lemma CloseStartsNothing(c: Codec, s: State, held: Closing, w: World)
    requires Reached(c, s) && s.closing == Some(held) && Drained(s) && NoRelease(s.deferred) && s.live && !s.releasing
    ensures Progress(c, s, w).s.history.starts == s.history.starts
  {
    if held.response.Some? && !held.cancelled {
      HeldReplyIsALine(c, s);
      IsIdle(s);
      FinishRetires(c, s, held, w);
    } else {
      FinishStartsNothing(c, s, held, w);
      FinishLives(c, s, held, w);
      FinishClosingGood(c, s, held, w);
      var o := FinishClosing(c, s, held, w);
      if o.Running? {
        NoBackendNoHold(o.s);
        ResumeStarts(c, o.s, w);
      }
    }
  }

  lemma FinishLives(c: Codec, s: State, held: Closing, w: World)
    requires s.live && (held.response.None? || held.cancelled)
    ensures var s1 := FinishClosing(c, s, held, w).s; s1.live && s1.releasing == s.releasing
  {
  }

  // ----- what a drain sends

  predicate IsClose(f: Frame) {
    f.message.Request? && f.message.call.Close?
  }

  /** The first line is a cancellation of a request that waits behind it; its position there, or the length. */
  function Struck(d: seq<Frame>): nat
    requires d != []
  {
    var m := d[0].message;
    if m.Notification? && m.notice.Cancelled? && m.notice.target.Some? then FindDeferred(d[1..], m.notice.target.value)
    else |d| - 1
  }

  /** The deferred lines after the first, without the one that the first strikes out. */
  function After(d: seq<Frame>): seq<Frame>
    requires d != []
  {
    if Struck(d) < |d| - 1 then Without(d[1..], Struck(d)) else d[1..]
  }

  function Sending(open: map<Id, nat>, f: Frame): Sent {
    match f.message
    case Request(id, _) => Forwarded(if id in open then open[id] else 0, f.raw)
    case _ => Notified(f.raw)
  }

  /** What a drain sends: the lines in order up to the first close, except struck-out requests and what struck them. */
  function Sends(open: map<Id, nat>, d: seq<Frame>): seq<Sent>
    decreases |d|
  {
    if d == [] || IsClose(d[0]) then []
    else (if Struck(d) < |d| - 1 then [] else [Sending(open, d[0])]) + Sends(open, After(d))
  }

  /** What a drain leaves: the first close, which it holds, and the lines behind it. */
  function Stays(d: seq<Frame>): seq<Frame>
    decreases |d|
  {
    if d == [] || IsClose(d[0]) then d else Stays(After(d))
  }

  /** The two agree on every request among the lines. */
  predicate Agree(open: map<Id, nat>, open1: map<Id, nat>, d: seq<Frame>) {
    forall i :: 0 <= i < |d| && d[i].message.Request? ==>
      (d[i].message.id in open <==> d[i].message.id in open1) && (d[i].message.id in open ==> open1[d[i].message.id] == open[d[i].message.id])
  }

  lemma {:induction false} SendsAgree(open: map<Id, nat>, open1: map<Id, nat>, d: seq<Frame>)
    requires Agree(open, open1, d)
    ensures Sends(open1, d) == Sends(open, d)
    decreases |d|
  {
    if d != [] && !IsClose(d[0]) {
      AgreeAfter(open, open1, d);
      SendsAgree(open, open1, After(d));
    }
  }

  lemma AgreeAfter(open: map<Id, nat>, open1: map<Id, nat>, d: seq<Frame>)
    requires d != [] && Agree(open, open1, d)
    ensures Agree(open, open1, After(d))
  {
    var a := After(d);
    forall i | 0 <= i < |a| && a[i].message.Request?
      ensures (a[i].message.id in open <==> a[i].message.id in open1) && (a[i].message.id in open ==> open1[a[i].message.id] == open[a[i].message.id])
    {
      if Struck(d) < |d| - 1 { assert a[i] == d[if i < Struck(d) then i + 1 else i + 2]; } else { assert a[i] == d[i + 1]; }
    }
  }

  /** One line drained: what is sent, what is left, and which requests are still open. */
  ghost predicate OneDrained(s: State, s1: State, line: Option<Sent>, deferred: seq<Frame>) {
    && s1.history.sent == s.history.sent + (if line.Some? then [line.value] else [])
    && s1.deferred == deferred && Agree(s.history.open, s1.history.open, deferred)
    && s1.closing.None?
  }

  lemma DrainRequest(c: Codec, s: State, f: Frame, id: Id, call: Call, w: World)
    requires !Suspended(s) && !s.releasing && s.closing.None? && f.message == Request(id, call) && !call.Release?
    requires id !in s.requests && id in s.history.open && Client(c, s, f, w).Running?
    ensures var s1 := Client(c, s, f, w).s;
      if call.Close? then
        s1.closing == Some(Closing(id, f.raw, None, false)) && s1.deferred == s.deferred && s1.history.sent == s.history.sent
      else OneDrained(s, s1, Some(Forwarded(s.history.open[id], f.raw)), s.deferred)
  {
    var s0 := Admit(s, id, call, f.raw);
    ReadmitShape(c, s, f, id, call, w);
    assert s0.history == s.history;
    assert Client(c, s, f, w) == Dispatch(s0, f, id, call);
  }

  lemma DrainNotice(c: Codec, s: State, f: Frame, n: Notice, w: World)
    requires !Suspended(s) && !s.releasing && s.closing.None? && f.message == Notification(n) && !n.Initialized?
    requires Client(c, s, f, w).Running?
    ensures var s1 := Client(c, s, f, w).s; var d := [f] + s.deferred;
      && s1.history.sent == s.history.sent + (if Struck(d) < |d| - 1 then [] else [Notified(f.raw)])
      && s1.deferred == After(d) && s1.closing.None?
      && (Struck(d) == |d| - 1 ==> s1.history.open == s.history.open)
      && (Struck(d) < |d| - 1 ==> s1.history.open == s.history.open - {n.target.value})
  {
    var d := [f] + s.deferred;
    assert d[1..] == s.deferred;
    if n.Cancelled? && n.target.Some? {
      CancelIs(c, s, f, n.target.value);
      if Struck(d) < |d| - 1 { DropShape(c, s, Struck(d), n.target.value); }
    }
  }

  lemma DropShape(c: Codec, s: State, i: nat, id: Id)
    requires i < |s.deferred|
    ensures var s1 := DropDeferred(c, s, i, id).s;
      && s1.deferred == Without(s.deferred, i) && s1.history.sent == s.history.sent
      && s1.history.open == s.history.open - {id} && s1.closing == s.closing
  {
  }

  /** A struck-out request is named by no other deferred line. */
  lemma StruckOnce(open: map<Id, nat>, d: seq<Frame>)
    requires d != [] && Struck(d) < |d| - 1 && DeferredOnce(d)
    ensures Agree(open, open - {d[0].message.notice.target.value}, After(d))
  {
    var id, k, a := d[0].message.notice.target.value, Struck(d), After(d);
    assert DeferredAt(d, k + 1, id);
    forall i | 0 <= i < |a| && a[i].message.Request? ensures a[i].message.id != id {
      var j := if i < k then i + 1 else i + 2;
      assert a[i] == d[j];
      assert a[i].message.id == id ==> DeferredAt(d, j, id);
    }
  }

  lemma DrainOneSends(c: Codec, s: State, w: World)
    requires Inv(s, Nobody) && Drainable(s) && s.deferred != [] && s.closing.None? && CanWait(s.deferred[0])
    requires Client(c, Undefer(s), s.deferred[0], w).Running?
    ensures var s1, d := Client(c, Undefer(s), s.deferred[0], w).s, s.deferred;
      if IsClose(d[0]) then
        && s1.closing == Some(Closing(d[0].message.id, d[0].raw, None, false)) && s1.deferred == d[1..] && s1.history.sent == s.history.sent
      else
        && s1.history.sent == s.history.sent + (if Struck(d) < |d| - 1 then [] else [Sending(s.history.open, d[0])])
        && s1.deferred == After(d) && s1.closing.None? && Agree(s.history.open, s1.history.open, After(d))
  {
    var f, s0 := s.deferred[0], Undefer(s);
    assert [f] + s.deferred[1..] == s.deferred;
    match f.message
    case Request(id, call) =>
      assert !IsRelease(f.message);
      UndeferKeeps(s, call);
      DrainRequest(c, s0, f, id, call, w);
    case Notification(n) =>
      DrainNotice(c, s0, f, n, w);
      OnceOf(s);
      if Struck(s.deferred) < |s.deferred| - 1 { StruckOnce(s.history.open, s.deferred); }
  }

  lemma OnceOf(s: State)
    requires Inv(s, Nobody)
    ensures DeferredOnce(s.deferred)
  {
  }

  lemma DrainUnfolds(c: Codec, s: State, w: World)
    requires Drainable(s) && s.deferred != [] && s.closing.None?
    ensures var o := Client(c, Undefer(s), s.deferred[0], w);
      Drainable(o.s) && |o.s.deferred| < |s.deferred| && Drain(c, s, w) == if o.Raised? then o else Drain(c, o.s, w)
  {
    DrainShrinks(c, s, w);
  }

  /** What sending the first line and then the others comes to. */
  lemma SendsStep(open: map<Id, nat>, open1: map<Id, nat>, d: seq<Frame>, sent: seq<Sent>, sent1: seq<Sent>, sent2: seq<Sent>)
    requires d != [] && !IsClose(d[0]) && Agree(open, open1, After(d))
    requires sent1 == sent + (if Struck(d) < |d| - 1 then [] else [Sending(open, d[0])])
    requires sent2 == sent1 + Sends(open1, After(d))
    ensures sent2 == sent + Sends(open, d)
  {
    SendsAgree(open, open1, After(d));
    var first := if Struck(d) < |d| - 1 then [] else [Sending(open, d[0])];
    Joined(sent, first, Sends(open, After(d)));
    assert Sends(open, d) == first + Sends(open, After(d));
  }

  lemma Joined(a: seq<Sent>, b: seq<Sent>, c: seq<Sent>)
    ensures a + b + c == a + (b + c)
  {
  }

  /** The hold and the queue after a drain that left these lines. */
  predicate Left(s: State, stays: seq<Frame>) {
    if stays == [] then s.deferred == [] && s.closing.None?
    else IsClose(stays[0]) && s.deferred == stays[1..] && s.closing == Some(Closing(stays[0].message.id, stays[0].raw, None, false))
  }

  /** A drain that ends without an error has sent exactly these lines, and holds the first close, if any. */
  lemma {:induction false} DrainSends(c: Codec, s: State, w: World)
    requires Inv(s, Nobody) && Mindful(c, s) && Drainable(s) && s.closing.None? && Drain(c, s, w).Running?
    ensures var s1 := Drain(c, s, w).s;
      s1.history.sent == s.history.sent + Sends(s.history.open, s.deferred) && Left(s1, Stays(s.deferred))
    decreases |s.deferred|
  {
    if s.deferred != [] {
      var o := Client(c, Undefer(s), s.deferred[0], w);
      DrainUnfolds(c, s, w);
      DrainOneSends(c, s, w);
      if !IsClose(s.deferred[0]) {
        DrainedOn(c, s, w);
        DrainSends(c, o.s, w);
        SendsStep(s.history.open, o.s.history.open, s.deferred, s.history.sent, o.s.history.sent, Drain(c, o.s, w).s.history.sent);
      }
    }
  }

  lemma DrainedOn(c: Codec, s: State, w: World)
    requires Inv(s, Nobody) && Mindful(c, s) && Drainable(s) && s.deferred != [] && Client(c, Undefer(s), s.deferred[0], w).Running?
    ensures var s1 := Client(c, Undefer(s), s.deferred[0], w).s; Inv(s1, Nobody) && Mindful(c, s1)
  {
    DrainOneGood(c, s, w);
    QuietKeeps(c, s, Undefer(s));
    ClientMindful(c, Undefer(s), s.deferred[0], w);
  }

  /** A request that waits behind no close and no cancellation is among what is sent. */
  lemma {:induction false} WaitingIsSent(open: map<Id, nat>, d: seq<Frame>, i: nat)
    requires i < |d| && d[i].message.Request? && !IsClose(d[i])
    requires forall j :: 0 <= j < i ==> !IsClose(d[j]) && !(d[j].message.Notification? && d[j].message.notice.Cancelled?)
    ensures Sending(open, d[i]) in Sends(open, d)
    decreases i
  {
    if i > 0 {
      assert Struck(d) == |d| - 1 && After(d) == d[1..];
      assert forall j :: 0 <= j < i - 1 ==> d[1..][j] == d[j + 1];
      WaitingIsSent(open, d[1..], i - 1);
    }
  }

  // ----- a restart, a matching private reply, and work

  /** Work that restarts, and what it leaves as it was. */
  lemma RestartShape(c: Codec, s: State, w: World)
    requires NoRelease(s.deferred) && !s.releasing && !s.live && s.closing.None? && s.privateId.None? && Enabled(s, Work(w))
    requires Wanted(s) && Restorable(s, w)
    ensures var s1 := Step(c, s, Work(w)).s;
      s1 == PutBackend(NextGeneration(s, PrivateIdOf(w)), Private(c.encode(PrivateInitialize(PrivateIdOf(w), s.initialize.value))))
  {
    RequestWaits(s.deferred);
    assert s.deferred != [];
    assert Progress(c, s, w) == Restart(c, s, w);
  }

  /** The private reply that matches is read and handled. */
  lemma MatchShape(c: Codec, s: State, f: Frame)
    requires s.live && s.privateId.Some? && s.backendBuffer == [] && s.initialized.Some? && s.identity.Some?
    requires TakeLine(c.decode, f.raw) == Taken(f, []) && f.message.Response? && f.message.ident == s.privateId
    requires f.message.body.Success? && f.message.body.identity == s.identity
    ensures var s1 := Step(c, s, ReadBackend(f.raw)).s; var h := s.history.Hear(f).Confide().Greet();
      s1 == s.(backendBuffer := f.raw) && Step(c, s1, TakeBackend).s == PutBackend(s.(privateId := None, history := h), Replay(s.initialized.value))
  {
    var s1 := s.(backendBuffer := f.raw);
    assert [] + f.raw == f.raw;
    PrivateShape(c, s, f, s.privateId.value);
    assert s1.(backendBuffer := []) == s;
    assert Step(c, s1, TakeBackend).s == Server(c, s, f).s;
  }

  /**
   In every run: when requests wait without a backend, work that restarts one, a private reply that matches and one
   more piece of work send the new generation exactly its private initialize, the client's saved `initialized` line, and
   the deferred lines in their order, up to a close, which is then held.
   */
  lemma WaitingRequestsReachABackend(c: Codec, events: seq<Event>, w: World, f: Frame, w2: World)
    requires Run(c, Init(), events).Running?
    requires var s := Run(c, Init(), events).s;
      && !s.live && !s.releasing && Wanted(s) && Restorable(s, w) && Enabled(s, Work(w))
      && TakeLine(c.decode, f.raw) == Taken(f, []) && f.message.Response? && f.message.ident == Some(PrivateIdOf(w))
      && f.message.body.Success? && f.message.body.identity == s.identity
    requires var s := Run(c, Init(), events).s; var o := Run(c, s, [Work(w), ReadBackend(f.raw), TakeBackend]);
      o.Running? && Enabled(o.s, Work(w2)) && Step(c, o.s, Work(w2)).Running?
    ensures var s := Run(c, Init(), events).s; var s3 := Step(c, Run(c, s, [Work(w), ReadBackend(f.raw), TakeBackend]).s, Work(w2)).s;
      && s3.live && s3.history.starts == s.history.starts + [|s.history.sent|]
      && s3.history.sent == s.history.sent +
           [Private(c.encode(PrivateInitialize(PrivateIdOf(w), s.initialize.value))), Replay(s.initialized.value)] +
           Sends(s.history.open, s.deferred)
      && Left(s3, Stays(s.deferred))
  {
    var s := Run(c, Init(), events).s;
    EveryRunIsMindful(c, events);
    RunsReach(c, events);
    NoBackendNoHold(s);
    RestartAndMatch(c, s, w, f);
    RestartedKeeps(c, s, w, f);
    DrainWork(c, Run(c, s, [Work(w), ReadBackend(f.raw), TakeBackend]).s, w2);
  }

  lemma RestartAndMatch(c: Codec, s: State, w: World, f: Frame)
    requires NoRelease(s.deferred) && !s.releasing && !s.live && s.closing.None? && s.privateId.None? && Enabled(s, Work(w))
    requires Wanted(s) && Restorable(s, w)
    requires TakeLine(c.decode, f.raw) == Taken(f, []) && f.message.Response? && f.message.ident == Some(PrivateIdOf(w))
    requires f.message.body.Success? && f.message.body.identity == s.identity
    requires Run(c, s, [Work(w), ReadBackend(f.raw), TakeBackend]).Running?
    ensures var s2 := Run(c, s, [Work(w), ReadBackend(f.raw), TakeBackend]).s;
      && s2.live && s2.privateId.None? && s2.closing.None? && s2.deferred == s.deferred && s2.history.open == s.history.open
      && s2.history.starts == s.history.starts + [|s.history.sent|]
      && s2.history.sent == s.history.sent +
           [Private(c.encode(PrivateInitialize(PrivateIdOf(w), s.initialize.value))), Replay(s.initialized.value)]
  {
    RestartShape(c, s, w);
    var s1 := Step(c, s, Work(w)).s;
    MatchShape(c, s1, f);
    RunThree(c, s, w, f);
    assert s1.backendBuffer + f.raw == f.raw;
    var first, second := Private(c.encode(PrivateInitialize(PrivateIdOf(w), s.initialize.value))), Replay(s.initialized.value);
    assert s.history.sent + [first] + [second] == s.history.sent + [first, second];
  }

  lemma RunThree(c: Codec, s: State, w: World, f: Frame)
    requires Enabled(s, Work(w)) && Step(c, s, Work(w)).s.live && Run(c, s, [Work(w), ReadBackend(f.raw), TakeBackend]).Running?
    ensures var s1 := Step(c, s, Work(w)).s; var s2 := s1.(backendBuffer := s1.backendBuffer + f.raw);
      Run(c, s, [Work(w), ReadBackend(f.raw), TakeBackend]) == Step(c, s2, TakeBackend) && Step(c, s, Work(w)).Running?
  {
    var events := [Work(w), ReadBackend(f.raw), TakeBackend];
    RunUnfolds(c, s, events);
    var s1 := Step(c, s, Work(w)).s;
    assert events[1..] == [ReadBackend(f.raw), TakeBackend];
    RunUnfolds(c, s1, events[1..]);
    var s2 := s1.(backendBuffer := s1.backendBuffer + f.raw);
    assert events[1..][1..] == [TakeBackend];
    RunUnfolds(c, s2, [TakeBackend]);
    assert [TakeBackend][1..] == [];
  }

  lemma RestartedKeeps(c: Codec, s: State, w: World, f: Frame)
    requires Inv(s, Nobody) && Mindful(c, s) && Run(c, s, [Work(w), ReadBackend(f.raw), TakeBackend]).Running?
    ensures var s2 := Run(c, s, [Work(w), ReadBackend(f.raw), TakeBackend]).s; Inv(s2, Nobody) && Mindful(c, s2)
  {
    RunGood(c, s, [Work(w), ReadBackend(f.raw), TakeBackend]);
    RunMindful(c, s, [Work(w), ReadBackend(f.raw), TakeBackend]);
  }

  /** Work on a live generation with nothing held is a drain. */
  lemma DrainWork(c: Codec, s: State, w: World)
    requires Inv(s, Nobody) && Mindful(c, s) && s.live && s.privateId.None? && s.closing.None? && Enabled(s, Work(w)) && Step(c, s, Work(w)).Running?
    ensures var s1 := Step(c, s, Work(w)).s;
      && s1.history.sent == s.history.sent + Sends(s.history.open, s.deferred) && Left(s1, Stays(s.deferred))
      && s1.live && s1.history.starts == s.history.starts
  {
    NoBackendNoHold(s);
    LiveIsNotReleasing(s);
    DrainSends(c, s, w);
    DrainAside(c, s, w);
    assert Step(c, s, Work(w)).s == Drain(c, s, w).s;
  }

  lemma LiveIsNotReleasing(s: State)
    requires Inv(s, Nobody) && s.live
    ensures !s.releasing
  {
  }
}
