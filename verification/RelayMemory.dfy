/**
 What the relay saves of the handshake is what the client said: the parameters of its last forwarded initialize, and
 its last `initialized` line. A restarted generation is sent exactly these.
 */
module RelayMemory {
  import opened Common
  import opened Mcp
  import opened Frames
  import opened RelayModel
  import opened RelayInvariants
  import opened RelaySteps
  import opened RelayHandlers
  import opened RelayTrail

  // ----- what the client said last

  /** The line is an initialize request of the client's. */
  predicate IsInitialize(c: Codec, x: Sent) {
    x.Forwarded? && CallOf(c, x.raw).Some? && CallOf(c, x.raw).value.Initialize?
  }

  /** The parameters of the last initialize request among the lines, if there is one and it has any. */
  function LastInitialize(c: Codec, sent: seq<Sent>): Option<Value> {
    if sent == [] then None
    else
      var last := sent[|sent| - 1];
      if IsInitialize(c, last) then CallOf(c, last.raw).value.params else LastInitialize(c, sent[..|sent| - 1])
  }

  predicate IsInitialized(f: Frame) {
    f.message == Notification(Initialized)
  }

  /** What may be deferred: a request, or a notification other than `initialized`. */
  predicate CanWait(f: Frame) {
    !f.message.Response? && !IsInitialized(f)
  }

  function LastInitialized(said: seq<Frame>): Option<Bytes> {
    if said == [] then None
    else if IsInitialized(said[|said| - 1]) then Some(said[|said| - 1].raw)
    else LastInitialized(said[..|said| - 1])
  }

  lemma LastInitializeMore(c: Codec, sent: seq<Sent>, x: Sent)
    ensures LastInitialize(c, sent + [x]) == if IsInitialize(c, x) then CallOf(c, x.raw).value.params else LastInitialize(c, sent)
  {
    assert (sent + [x])[..|sent|] == sent;
  }

  lemma LastInitializedMore(said: seq<Frame>, f: Frame)
    ensures LastInitialized(said + [f]) == if IsInitialized(f) then Some(f.raw) else LastInitialized(said)
  {
    assert (said + [f])[..|said|] == said;
  }

  lemma {:induction false} LastInitializeIs(c: Codec, sent: seq<Sent>)
    requires LastInitialize(c, sent).Some?
    ensures exists i :: 0 <= i < |sent| && IsInitialize(c, sent[i]) && CallOf(c, sent[i].raw).value.params == LastInitialize(c, sent)
                        && forall j :: i < j < |sent| ==> !IsInitialize(c, sent[j])
    decreases |sent|
  {
    var n := |sent| - 1;
    if !IsInitialize(c, sent[n]) {
      LastInitializeIs(c, sent[..n]);
      var i :| 0 <= i < n && IsInitialize(c, sent[..n][i]) && CallOf(c, sent[..n][i].raw).value.params == LastInitialize(c, sent)
               && forall j :: i < j < n ==> !IsInitialize(c, sent[..n][j]);
      assert forall j :: i < j < n ==> sent[j] == sent[..n][j];
    }
  }

  lemma {:induction false} LastInitializedIs(said: seq<Frame>)
    requires LastInitialized(said).Some?
    ensures exists i :: 0 <= i < |said| && IsInitialized(said[i]) && said[i].raw == LastInitialized(said).value
                        && forall j :: i < j < |said| ==> !IsInitialized(said[j])
    decreases |said|
  {
    var n := |said| - 1;
    if !IsInitialized(said[n]) {
      LastInitializedIs(said[..n]);
      var i :| 0 <= i < n && IsInitialized(said[..n][i]) && said[..n][i].raw == LastInitialized(said).value
               && forall j :: i < j < n ==> !IsInitialized(said[..n][j]);
      assert forall j :: i < j < n ==> said[j] == said[..n][j];
    }
  }

  // ----- the invariant

  predicate RestartAt(c: Codec, sent: seq<Sent>, start: nat, saved: Saved) {
    start <= |sent| && saved.params == LastInitialize(c, sent[..start])
  }

  predicate ReplayAt(sent: seq<Sent>, greeting: nat, said: seq<Frame>, n: nat) {
    && greeting < |sent| && n <= |said| && LastInitialized(said[..n]).Some?
    && sent[greeting] == Replay(LastInitialized(said[..n]).value)
  }

  /** What was sent to restarted generations. */
  predicate Kept(c: Codec, h: History) {
    && |h.starts| == |h.trail.restarts| + 1 && |h.greeted| == |h.trail.asOf|
    && (forall k :: 0 <= k < |h.trail.restarts| ==> RestartAt(c, h.sent, h.starts[k + 1], h.trail.restarts[k]))
    && (forall k :: 0 <= k < |h.greeted| ==> ReplayAt(h.sent, h.greeted[k], h.trail.said, h.trail.asOf[k]))
  }

  /** What is saved, and that nothing waiting would change it. */
  predicate Remembers(c: Codec, s: State) {
    && s.initialize == LastInitialize(c, s.history.sent)
    && (s.releasing || s.initialized == LastInitialized(s.history.trail.said))
    && (s.closing.Some? ==> CallOf(c, s.closing.value.raw) == Some(Close))
    && (forall i :: 0 <= i < |s.deferred| ==> Decoded(c, s.deferred[i]) && CanWait(s.deferred[i]))
  }

  predicate Mindful(c: Codec, s: State) {
    Kept(c, s.history) && Remembers(c, s)
  }

  // ----- most steps change nothing of it

  predicate SameRecord(h: History, h1: History) {
    && h1.starts == h.starts && h1.greeted == h.greeted
    && h1.trail.restarts == h.trail.restarts && h1.trail.asOf == h.trail.asOf && h1.trail.said == h.trail.said
  }

  /** Nothing new is sent, and what waits or is held was waiting or held. */
  predicate Quiet(s: State, s1: State) {
    && SameRecord(s.history, s1.history) && s1.history.sent == s.history.sent
    && s1.initialize == s.initialize && s1.initialized == s.initialized && (s.releasing ==> s1.releasing)
    && (s1.closing.Some? ==> s.closing.Some? && s1.closing.value.raw == s.closing.value.raw)
    && (forall f :: f in s1.deferred ==> f in s.deferred)
  }

  lemma QuietKeeps(c: Codec, s: State, s1: State)
    requires Mindful(c, s) && Quiet(s, s1)
    ensures Mindful(c, s1)
  {
    forall i | 0 <= i < |s1.deferred| ensures Decoded(c, s1.deferred[i]) && CanWait(s1.deferred[i]) {
      assert s1.deferred[i] in s.deferred;
    }
  }

  lemma KeptMore(c: Codec, h: History, x: Sent)
    requires Kept(c, h)
    ensures Kept(c, h.(sent := h.sent + [x]))
  {
    forall k | 0 <= k < |h.trail.restarts| ensures RestartAt(c, h.sent + [x], h.starts[k + 1], h.trail.restarts[k]) {
      assert RestartAt(c, h.sent, h.starts[k + 1], h.trail.restarts[k]);
      assert (h.sent + [x])[..h.starts[k + 1]] == h.sent[..h.starts[k + 1]];
    }
    forall k | 0 <= k < |h.greeted| ensures ReplayAt(h.sent + [x], h.greeted[k], h.trail.said, h.trail.asOf[k]) {
      assert ReplayAt(h.sent, h.greeted[k], h.trail.said, h.trail.asOf[k]);
    }
  }

  /** A line that is no initialize request is sent. */
  lemma SendMindful(c: Codec, s: State, x: Sent)
    requires Mindful(c, s) && !IsInitialize(c, x)
    ensures Mindful(c, QueueBackend(s, x).s)
  {
    KeptMore(c, s.history, x);
    LastInitializeMore(c, s.history.sent, x);
  }

  lemma ReplyMindful(c: Codec, s: State, id: Id, raw: Bytes)
    requires Mindful(c, s)
    ensures Mindful(c, Reply(s, id, raw).s)
  {
    QuietKeeps(c, s, Reply(s, id, raw).s);
  }

  lemma AcceptedReplyMindful(c: Codec, s: State, id: Id, asked: Bytes, raw: Bytes)
    requires Mindful(c, s)
    ensures Mindful(c, Reply(Accept(s, id, asked), id, raw).s)
  {
    QuietKeeps(c, s, Accept(s, id, asked));
    ReplyMindful(c, Accept(s, id, asked), id, raw);
  }

  // ----- Relay.client

  lemma DeferMindful(c: Codec, s: State, f: Frame)
    requires Mindful(c, s) && Decoded(c, f) && CanWait(f)
    ensures Mindful(c, Defer(s, f))
  {
  }

  lemma PassNoticeMindful(c: Codec, s: State, f: Frame)
    requires Mindful(c, s) && Decoded(c, f) && CanWait(f)
    ensures Mindful(c, PassNotice(s, f).s)
  {
    if Suspended(s) { DeferMindful(c, s, f); } else { SendMindful(c, s, Notified(f.raw)); }
  }

  lemma CallbackMindful(c: Codec, s: State, f: Frame, ident: Option<Id>)
    requires Mindful(c, s)
    ensures Mindful(c, ClientCallback(s, f, ident).s)
  {
    if ident.Some? && ident.value in s.callbacks {
      var s1 := s.(callbacks := s.callbacks - {ident.value});
      QuietKeeps(c, s, s1);
      SendMindful(c, s1, Callback(f.raw));
    }
  }

  lemma DropMindful(c: Codec, s: State, i: nat, id: Id)
    requires Mindful(c, s) && i < |s.deferred|
    ensures Mindful(c, DropDeferred(c, s, i, id).s)
  {
    WithoutHolds(s.deferred, i);
    QuietKeeps(c, s, RemoveDeferred(s, i, id));
    ReplyMindful(c, RemoveDeferred(s, i, id), id, c.encode(ErrorReply(id, -32800, "MCP request cancelled before execution.")));
  }

  lemma CancelMindful(c: Codec, s: State, f: Frame, id: Id)
    requires Mindful(c, s) && Decoded(c, f) && f.message == Notification(Cancelled(Some(id)))
    ensures Mindful(c, ClientNotice(c, s, f, Cancelled(Some(id))).s)
  {
    CancelIs(c, s, f, id);
    MarkMindful(c, s, id);
    MarkedMindful(c, MarkClosing(s, id), f, id, FindDeferred(s.deferred, id));
  }

  lemma MarkMindful(c: Codec, s: State, id: Id)
    requires Mindful(c, s)
    ensures Mindful(c, MarkClosing(s, id))
  {
    QuietKeeps(c, s, MarkClosing(s, id));
  }

  lemma MarkedMindful(c: Codec, s: State, f: Frame, id: Id, i: nat)
    requires Mindful(c, s) && Decoded(c, f) && CanWait(f)
    ensures Mindful(c, (if i < |s.deferred| then DropDeferred(c, s, i, id) else PassNotice(s, f)).s)
  {
    if i < |s.deferred| { DropMindful(c, s, i, id); } else { PassNoticeMindful(c, s, f); }
  }

  lemma NoticeMindful(c: Codec, s: State, f: Frame, n: Notice)
    requires Mindful(c, s) && Decoded(c, f) && f.message == Notification(n) && !n.Initialized?
    ensures Mindful(c, ClientNotice(c, s, f, n).s)
  {
    match n
    case Plain => PassNoticeMindful(c, s, f);
    case Cancelled(None) =>
    case Cancelled(Some(id)) => CancelMindful(c, s, f, id);
  }

  lemma ReleaseMindful(c: Codec, s: State, id: Id, asked: Bytes, wellFormed: bool, w: World)
    requires Mindful(c, s)
    ensures Mindful(c, ReleaseRequest(c, Accept(s, id, asked), id, wellFormed, w).s)
  {
    var s0 := Accept(s, id, asked);
    QuietKeeps(c, s, s0);
    QuietKeeps(c, s0, Releasing(s0, id));
    if !wellFormed {
      ReplyMindful(c, s0, id, c.encode(ErrorReply(id, -32602, "browser_release accepts no target or arguments.")));
    } else if !Quiescent(s0, w.unread) {
      ReplyMindful(c, s0, id, c.encode(ErrorReply(id, -32603, "Browser connection is busy; release was not performed.")));
    } else if w.closes {
      ReplyMindful(c, Releasing(s0, id), id, c.encode(ReleaseReply(id)));
    } else {
      ReplyMindful(c, Releasing(s0, id), id, c.encode(ErrorReply(id, -32603, "Owned browser resources could not be released.")));
    }
  }

  /** Forwarding an initialize saves its parameters. */
  lemma ForwardMindful(c: Codec, s: State, id: Id, call: Call, raw: Bytes)
    requires Mindful(c, s) && CallOf(c, raw) == Some(call)
    ensures Mindful(c, Forward(if call.Initialize? then s.(initialize := call.params) else s, id, call, raw).s)
  {
    var x := Forwarded(s.history.Ticket(id), raw);
    KeptMore(c, s.history, x);
    LastInitializeMore(c, s.history.sent, x);
  }

  lemma DispatchMindful(c: Codec, s: State, f: Frame, id: Id, call: Call)
    requires Mindful(c, s) && Decoded(c, f) && f.message == Request(id, call)
    ensures Mindful(c, Dispatch(s, f, id, call).s)
  {
    if s.closing.Some? || Suspended(s) {
      DeferMindful(c, s, f);
    } else if !call.Close? {
      ForwardMindful(c, s, id, call, f.raw);
    }
  }

  lemma RequestMindful(c: Codec, s: State, f: Frame, id: Id, call: Call, w: World)
    requires Mindful(c, s) && Decoded(c, f) && f.message == Request(id, call)
    ensures Mindful(c, ClientRequest(c, s, f, id, call, w).s)
  {
    if id in s.requests {
    } else if call.Release? {
      ReleaseMindful(c, s, id, f.raw, call.wellFormed, w);
    } else if !s.live && call.Ping? {
      AcceptedReplyMindful(c, s, id, f.raw, c.encode(PingReply(id)));
    } else {
      QuietKeeps(c, s, Admit(s, id, call, f.raw));
      DispatchMindful(c, Admit(s, id, call, f.raw), f, id, call);
    }
  }

  lemma ClientMindful(c: Codec, s: State, f: Frame, w: World)
    requires Mindful(c, s) && Decoded(c, f) && !IsInitialized(f)
    ensures Mindful(c, Client(c, s, f, w).s)
  {
    if s.releasing {
      if f.message.Request? {
        AcceptedReplyMindful(c, s, f.message.id, f.raw,
                             c.encode(ErrorReply(f.message.id, -32603, "Browser connection is permanently released; use a fresh thread.")));
      }
    } else {
      match f.message
      case Response(ident, _) => CallbackMindful(c, s, f, ident);
      case Notification(n) => NoticeMindful(c, s, f, n);
      case Request(id, call) => RequestMindful(c, s, f, id, call, w);
    }
  }

  lemma NoteKept(c: Codec, h: History, f: Frame)
    requires Kept(c, h)
    ensures Kept(c, h.Note(f))
  {
    forall k | 0 <= k < |h.greeted| ensures ReplayAt(h.sent, h.greeted[k], h.trail.said + [f], h.trail.asOf[k]) {
      assert ReplayAt(h.sent, h.greeted[k], h.trail.said, h.trail.asOf[k]);
      assert (h.trail.said + [f])[..h.trail.asOf[k]] == h.trail.said[..h.trail.asOf[k]];
    }
  }

  /** A new line of the client's; its `initialized` line is saved whether or not it can be passed on. */
  lemma ListenMindful(c: Codec, s: State, f: Frame, w: World)
    requires Mindful(c, s) && Decoded(c, f)
    ensures Mindful(c, Listen(c, s, f, w).s)
  {
    NoteKept(c, s.history, f);
    LastInitializedMore(s.history.trail.said, f);
    var s1 := s.(history := s.history.Note(f));
    if !IsInitialized(f) {
      ClientMindful(c, s1, f, w);
    } else if !s.releasing {
      SendMindful(c, s1.(initialized := Some(f.raw)), Notified(f.raw));
    }
  }

  // ----- Relay.server

  lemma GreetMindful(c: Codec, s: State)
    requires Mindful(c, s) && s.initialized.Some? && !s.releasing
    ensures Mindful(c, PutBackend(s.(privateId := None, history := s.history.Greet()), Replay(s.initialized.value)))
  {
    var h, x := s.history, Replay(s.initialized.value);
    KeptMore(c, h, x);
    LastInitializeMore(c, h.sent, x);
    var h1 := h.Greet().(sent := h.sent + [x]);
    assert h.trail.said[..|h.trail.said|] == h.trail.said;
    forall k | 0 <= k < |h1.greeted| ensures ReplayAt(h1.sent, h1.greeted[k], h1.trail.said, h1.trail.asOf[k]) {
      assert k < |h.greeted| ==> ReplayAt(h.sent + [x], h.greeted[k], h.trail.said, h.trail.asOf[k]);
    }
  }

  lemma DeliverMindful(c: Codec, s: State, id: Id, closed: bool, raw: Bytes)
    requires Mindful(c, s)
    ensures Mindful(c, Deliver(s, id, closed, raw).s)
  {
    QuietKeeps(c, s, Deliver(s, id, closed, raw).s);
  }

  lemma InterpretMindful(c: Codec, s: State, id: Id, call: Call, body: Body, raw: Bytes)
    requires Mindful(c, s)
    ensures Mindful(c, Interpret(c, s, id, call, body, raw).s)
  {
    match body
    case Failure => DeliverMindful(c, s, id, false, raw);
    case Success(identity, inventory, closed) =>
      if call.Initialize? {
        LearnMindful(c, s, id, identity);
        DeliverMindful(c, s.(identity := identity, history := s.history.Learn(id)), id, closed, raw);
      } else if call.ListTools? {
        if inventory.Some? { DeliverMindful(c, s, id, closed, c.encode(ToolsReply(id, inventory.value))); }
      } else {
        DeliverMindful(c, s, id, closed, raw);
      }
  }

  lemma LearnMindful(c: Codec, s: State, id: Id, identity: Option<Identity>)
    requires Mindful(c, s)
    ensures Mindful(c, s.(identity := identity, history := s.history.Learn(id)))
  {
    QuietKeeps(c, s, s.(identity := identity, history := s.history.Learn(id)));
  }

  lemma ServerMindful(c: Codec, s: State, f: Frame)
    requires Mindful(c, s) && (s.privateId.Some? ==> s.initialized.Some? && !s.releasing)
    ensures Mindful(c, Server(c, s, f).s)
  {
    var s1 := s.(history := s.history.Hear(f));
    QuietKeeps(c, s, s1);
    match f.message
    case Notification(_) => QuietKeeps(c, s1, QueueClient(s1, Pass(f.raw)).s);
    case Request(id, _) => QuietKeeps(c, s1, QueueClient(s1.(callbacks := s1.callbacks + {id}), Pass(f.raw)).s);
    case Response(None, _) =>
    case Response(Some(id), body) =>
      if s.privateId == Some(id) {
        PrivateMindful(c, s1, body);
      } else if id in s.inflight {
        QuietKeeps(c, s1, TakeReply(s1, id));
        InterpretMindful(c, TakeReply(s1, id), id, s.inflight[id], body, f.raw);
      }
  }

  lemma PrivateMindful(c: Codec, s: State, body: Body)
    requires Mindful(c, s) && s.initialized.Some? && !s.releasing
    ensures Mindful(c, PrivateReply(s, body).s)
  {
    var s1 := s.(history := s.history.Confide());
    QuietKeeps(c, s, s1);
    GreetMindful(c, s1);
  }

  // ----- Relay.progress

  lemma FinishMindful(c: Codec, s: State, held: Closing, w: World)
    requires Mindful(c, s) && s.closing == Some(held)
    ensures Mindful(c, FinishClosing(c, s, held, w).s)
  {
    var text := c.encode(ErrorReply(held.id, -32603, "Owned browser resources could not be released."));
    var s1, s2 := EndClosing(s, held.id), EndClosing(CloseBackend(s), held.id);
    QuietKeeps(c, s, s1);
    QuietKeeps(c, s, s2);
    if held.response.Some? {
      ReplyMindful(c, s1, held.id, held.response.value);
      ReplyMindful(c, s2, held.id, held.response.value);
      ReplyMindful(c, s2, held.id, text);
    } else if held.cancelled {
      EndCancelledMindful(c, s, held.id);
    } else {
      ForwardMindful(c, s, held.id, Close, held.raw);
    }
  }

  lemma EndCancelledMindful(c: Codec, s: State, id: Id)
    requires Mindful(c, s)
    ensures Mindful(c, EndCancelled(c, s, id).s)
  {
    var s1 := EndClosing(s, id).(history := s.history.Drop(id));
    QuietKeeps(c, s, s1);
    ReplyMindful(c, s1, id, c.encode(ErrorReply(id, -32800, "MCP request cancelled before execution.")));
  }

  lemma RestartMindful(c: Codec, s: State, w: World)
    requires Mindful(c, s)
    ensures Mindful(c, Restart(c, s, w).s)
  {
    if s.initialize.Some? && s.identity.Some? && s.initialized.Some? && w.starts {
      NextMindful(c, s, PrivateIdOf(w));
      SendMindful(c, NextGeneration(s, PrivateIdOf(w)), Private(c.encode(PrivateInitialize(PrivateIdOf(w), s.initialize.value))));
    }
  }

  lemma NextMindful(c: Codec, s: State, id: Id)
    requires Mindful(c, s)
    ensures Mindful(c, NextGeneration(s, id))
  {
    var h, h1 := s.history, NextGeneration(s, id).history;
    assert h.sent[..|h.sent|] == h.sent;
    forall k | 0 <= k < |h1.trail.restarts| ensures RestartAt(c, h1.sent, h1.starts[k + 1], h1.trail.restarts[k]) {
      assert k < |h.trail.restarts| ==> RestartAt(c, h.sent, h.starts[k + 1], h.trail.restarts[k]);
    }
  }

  lemma {:induction false} DrainMindful(c: Codec, s: State, w: World)
    requires Mindful(c, s) && Drainable(s)
    ensures Mindful(c, Drain(c, s, w).s)
    decreases |s.deferred|
  {
    if s.deferred != [] && s.closing.None? {
      DrainShrinks(c, s, w);
      QuietKeeps(c, s, Undefer(s));
      ClientMindful(c, Undefer(s), s.deferred[0], w);
      var o := Client(c, Undefer(s), s.deferred[0], w);
      if o.Running? { DrainMindful(c, o.s, w); }
    }
  }

  lemma ResumeMindful(c: Codec, s: State, w: World)
    requires Mindful(c, s) && NoRelease(s.deferred)
    ensures Mindful(c, Resume(c, s, w).s)
  {
    if s.releasing || s.closing.Some? || s.privateId.Some? || s.deferred == [] {
    } else if s.live {
      DrainMindful(c, s, w);
    } else {
      RestartMindful(c, s, w);
    }
  }

  lemma ProgressMindful(c: Codec, s: State, w: World)
    requires Inv(s, Nobody) && Mindful(c, s)
    ensures NoRelease(s.deferred) && Mindful(c, Progress(c, s, w).s)
  {
    if s.releasing {
    } else if s.closing.Some? && Drained(s) {
      var held := s.closing.value;
      FinishMindful(c, s, held, w);
      FinishClosingGood(c, s, held, w);
      var o := FinishClosing(c, s, held, w);
      if o.Running? { ResumeMindful(c, o.s, w); }
    } else {
      ResumeMindful(c, s, w);
    }
  }
}
