/** Every handler of the relay keeps the invariant, and leaves the books in order even when it raises. */
module RelayHandlers {
  import opened Common
  import opened Mcp
  import opened Frames
  import opened RelayModel
  import opened RelayInvariants
  import opened RelaySteps

  lemma SafeAnyway(s: State, l: Loose)
    requires Inv(s, l)
    ensures Safe(s)
  {
  }

  lemma BudgetGood(s: State)
    requires Inv(s, Nobody)
    ensures Good(CheckBudget(s))
  {
  }

  // ----- Relay.client

  lemma ReleasedGood(c: Codec, s: State, f: Frame)
    requires Inv(s, Nobody)
    requires f.message.Request? ==> f.message.id !in s.requests
    ensures Good(ClientReleased(c, s, f))
  {
    var m := f.message;
    if m.Request? && s.releaseId != Some(m.id) {
      ImmediateKeeps(s, m.id, f.raw, c.encode(ErrorReply(m.id, -32603, "Browser connection is permanently released; use a fresh thread.")));
    }
  }

  lemma CallbackGood(s: State, f: Frame, ident: Option<Id>)
    requires Inv(s, Nobody)
    ensures Good(ClientCallback(s, f, ident))
  {
    if ident.Some? && ident.value in s.callbacks {
      CallbacksKeep(s, s.callbacks - {ident.value});
      PutBackendKeeps(s.(callbacks := s.callbacks - {ident.value}), Callback(f.raw), Nobody);
    }
  }

  lemma PassNoticeGood(s: State, f: Frame)
    requires Inv(s, Nobody) && f.message.Notification? && !s.releasing
    ensures Good(PassNotice(s, f))
  {
    if Suspended(s) { DeferNoticeKeeps(s, f, Nobody); } else { PutBackendKeeps(s, Notified(f.raw), Nobody); }
  }

  lemma InitializedKeeps(s: State, raw: Bytes)
    requires Inv(s, Nobody)
    ensures Inv(s.(initialized := Some(raw)), Nobody)
  {
  }

  lemma DropDeferredGood(c: Codec, s: State, i: nat, id: Id)
    requires Inv(s, Nobody) && DeferredAt(s.deferred, i, id)
    ensures Good(DropDeferred(c, s, i, id))
  {
    var text := c.encode(ErrorReply(id, -32800, "MCP request cancelled before execution."));
    RemoveKeeps(s, i, id);
    var s1 := s.(deferred := Without(s.deferred, i), history := s.history.(waiting := Without(s.history.waiting, i)));
    DropKeeps(s1, id);
    var s2 := s1.(history := s1.history.Drop(id));
    SettleKeeps(s2, Fresh(id), id, text);
    DropDeferredIsSettled(c, s, i, id);
  }

  lemma DropDeferredIsSettled(c: Codec, s: State, i: nat, id: Id)
    requires i < |s.deferred| == |s.history.waiting|
    ensures var s1 := s.(deferred := Without(s.deferred, i),
                         history := s.history.(waiting := Without(s.history.waiting, i)).Drop(id));
            DropDeferred(c, s, i, id).s == Settled(s1, id, c.encode(ErrorReply(id, -32800, "MCP request cancelled before execution.")))
  {
  }

  lemma NoticeGood(c: Codec, s: State, f: Frame, n: Notice)
    requires Inv(s, Nobody) && f.message.Notification? && !s.releasing
    ensures Good(ClientNotice(c, s, f, n))
  {
    match n
    case Plain => PassNoticeGood(s, f);
    case Initialized =>
      InitializedKeeps(s, f.raw);
      if !Suspended(s) { PutBackendKeeps(s.(initialized := Some(f.raw)), Notified(f.raw), Nobody); }
    case Cancelled(None) =>
    case Cancelled(Some(id)) =>
      MarkKeeps(s, Nobody, id);
      CancelGood(c, MarkClosing(s, id), f, id);
  }

  lemma CancelGood(c: Codec, s: State, f: Frame, id: Id)
    requires Inv(s, Nobody) && f.message.Notification? && !s.releasing
    ensures var i := FindDeferred(s.deferred, id);
            Good(if i < |s.deferred| then DropDeferred(c, s, i, id) else PassNotice(s, f))
  {
    var i := FindDeferred(s.deferred, id);
    if i < |s.deferred| {
      assert DeferredAt(s.deferred, i, id);
      DropDeferredGood(c, s, i, id);
    } else {
      PassNoticeGood(s, f);
    }
  }

  lemma ReleaseRequestGood(c: Codec, s: State, id: Id, asked: Bytes, wellFormed: bool, w: World)
    requires Inv(s, Nobody) && id !in s.requests && !s.releasing
    ensures Good(ReleaseRequest(c, Accept(s, id, asked), id, wellFormed, w))
  {
    if !wellFormed {
      ImmediateKeeps(s, id, asked, c.encode(ErrorReply(id, -32602, "browser_release accepts no target or arguments.")));
    } else if !Quiescent(Accept(s, id, asked), w.unread) {
      ImmediateKeeps(s, id, asked, c.encode(ErrorReply(id, -32603, "Browser connection is busy; release was not performed.")));
    } else {
      var s1 := s.(releasing := true, releaseId := Some(id), live := false);
      QuiescentRelease(s, id, w);
      assert CloseBackend(Accept(s, id, asked).(releasing := true, releaseId := Some(id))) == Accept(s1, id, asked);
      if w.closes {
        ImmediateKeeps(s1, id, asked, c.encode(ReleaseReply(id)));
      } else {
        ImmediateKeeps(s1, id, asked, c.encode(ErrorReply(id, -32603, "Owned browser resources could not be released.")));
        SafeAnyway(Fail(c, Accept(s1, id, asked), id, "Owned browser resources could not be released.", -32603).s, Nobody);
      }
    }
  }

  lemma QuiescentRelease(s: State, id: Id, w: World)
    requires Inv(s, Nobody) && Quiescent(s, w.unread)
    ensures Inv(s.(releasing := true, releaseId := Some(id), live := false), Nobody)
  {
    RetireKeeps(s, Nobody);
  }

  lemma InitializeKeeps(s: State, l: Loose, params: Option<Value>)
    requires Inv(s, l)
    ensures Inv(s.(initialize := params), l)
  {
  }

  /** An admitted request finds its place. */
  lemma DispatchGood(s: State, f: Frame, id: Id, call: Call)
    requires Inv(s, Fresh(id)) && !s.releasing && !Holds(s.closing, id)
    requires f.message == Request(id, call) && !call.Release?
    requires Unsent(s.history, id, f.raw)
    ensures Good(Dispatch(s, f, id, call))
  {
    if s.closing.Some? || Suspended(s) {
      DeferRequestKeeps(s, f);
    } else if call.Close? {
      HoldKeeps(s, id, f.raw);
    } else {
      if call.Initialize? { InitializeKeeps(s, Fresh(id), call.params); }
      ForwardKeeps(if call.Initialize? then s.(initialize := call.params) else s, Fresh(id), id, call, f.raw);
    }
  }

  lemma RequestGood(c: Codec, s: State, f: Frame, id: Id, call: Call, w: World)
    requires Inv(s, Nobody) && !s.releasing && f.message == Request(id, call)
    ensures Good(ClientRequest(c, s, f, id, call, w))
  {
    if id !in s.requests {
      if call.Release? {
        ReleaseRequestGood(c, s, id, f.raw, call.wellFormed, w);
      } else if !s.live && call.Ping? {
        ImmediateKeeps(s, id, f.raw, c.encode(PingReply(id)));
      } else {
        AdmitKeeps(s, id, call, f.raw);
        NotHeld(s, id);
        AdmitGood(Admit(s, id, call, f.raw), f, id, call);
      }
    }
  }

  lemma ReleasingHasNothing(s: State)
    requires Inv(s, Nobody) && s.releasing
    ensures s.requests == map[]
  {
    assert s.requests.Keys == {};
  }

  lemma ClientGood(c: Codec, s: State, f: Frame, w: World)
    requires Inv(s, Nobody)
    ensures Good(Client(c, s, f, w))
  {
    if s.releasing {
      ReleasingHasNothing(s);
      ReleasedGood(c, s, f);
    } else {
      match f.message
      case Response(ident, _) => CallbackGood(s, f, ident);
      case Notification(n) => NoticeGood(c, s, f, n);
      case Request(id, call) => RequestGood(c, s, f, id, call, w);
    }
  }

  lemma ListenGood(c: Codec, s: State, f: Frame, w: World)
    requires Inv(s, Nobody)
    ensures Good(Listen(c, s, f, w))
  {
    TrailKeeps(s, Nobody, s.history.Note(f).trail);
    ClientGood(c, s.(history := s.history.Note(f)), f, w);
  }

  // ----- Relay.server

  lemma DeliverGood(s: State, id: Id, closed: bool, raw: Bytes)
    requires Inv(s, Back(id))
    ensures Good(Deliver(s, id, closed, raw))
  {
    DeliverShape(s, id, closed, raw);
    if Holds(s.closing, id) && closed && !s.closing.value.cancelled {
      HoldReplyKeeps(s, id, raw);
    } else {
      var s1 := if Holds(s.closing, id) then s.(closing := None) else s;
      assert Inv(s1, Back(id)) && !Holds(s1.closing, id) by {
        if Holds(s.closing, id) { GiveUpKeeps(s, id); }
      }
      SettleKeeps(s1, Back(id), id, raw);
      BudgetGood(Settled(s1, id, raw));
    }
  }

  lemma DeliverShape(s: State, id: Id, closed: bool, raw: Bytes)
    ensures Deliver(s, id, closed, raw) ==
      if Holds(s.closing, id) && closed && !s.closing.value.cancelled then
        Running(s.(closing := Some(s.closing.value.(response := Some(raw)))))
      else CheckBudget(Settled(if Holds(s.closing, id) then s.(closing := None) else s, id, raw))
  {
  }

  lemma IdentityKeeps(s: State, l: Loose, identity: Identity)
    requires Inv(s, l)
    ensures Inv(s.(identity := Some(identity)), l)
  {
  }

  lemma PrivateReplyGood(s: State, body: Body)
    requires Inv(s, Nobody) && s.privateId.Some?
    ensures Good(PrivateReply(s, body))
  {
    TrailKeeps(s, Nobody, s.history.Confide().trail);
    var s1 := s.(history := s.history.Confide());
    GreetKeeps(s1, s.initialized.value);
  }

  lemma InterpretGood(c: Codec, s: State, id: Id, call: Call, body: Body, raw: Bytes)
    requires Inv(s, Back(id))
    ensures Good(Interpret(c, s, id, call, body, raw))
  {
    SafeAnyway(s, Back(id));
    match body
    case Failure => DeliverGood(s, id, false, raw);
    case Success(identity, inventory, closed) =>
      if call.Initialize? {
        if identity.Some? {
          TrailKeeps(s, Back(id), s.history.Learn(id).trail);
          IdentityKeeps(s.(history := s.history.Learn(id)), Back(id), identity.value);
          DeliverGood(s.(identity := identity, history := s.history.Learn(id)), id, closed, raw);
        }
      } else if call.ListTools? {
        if inventory.Some? { DeliverGood(s, id, closed, c.encode(ToolsReply(id, inventory.value))); }
      } else {
        DeliverGood(s, id, closed, raw);
      }
  }

  lemma ServerReplyGood(c: Codec, s: State, id: Id, body: Body, raw: Bytes)
    requires Inv(s, Nobody)
    ensures Good(ServerReply(c, s, id, body, raw))
  {
    if s.privateId == Some(id) {
      PrivateReplyGood(s, body);
    } else if id in s.inflight {
      TakeReplyKeeps(s, id);
      InterpretGood(c, TakeReply(s, id), id, s.inflight[id], body, raw);
    }
  }

  lemma ServerAsksGood(s: State, id: Id, raw: Bytes)
    requires Inv(s, Nobody) && s.live
    ensures Good(QueueClient(s.(callbacks := s.callbacks + {id}), Pass(raw)))
  {
    CallbacksKeep(s, s.callbacks + {id});
    PassKeeps(s.(callbacks := s.callbacks + {id}), raw, Nobody);
    BudgetGood(PutClient(s.(callbacks := s.callbacks + {id}), Pass(raw)));
  }

  lemma ServerGood(c: Codec, s: State, f: Frame)
    requires Inv(s, Nobody) && s.live
    ensures Good(Server(c, s, f))
  {
    TrailKeeps(s, Nobody, s.history.Hear(f).trail);
    ServeGood(c, s.(history := s.history.Hear(f)), f);
  }

  lemma ServeGood(c: Codec, s: State, f: Frame)
    requires Inv(s, Nobody) && s.live
    ensures Good(Serve(c, s, f))
  {
    match f.message
    case Notification(_) =>
      PassKeeps(s, f.raw, Nobody);
      BudgetGood(PutClient(s, Pass(f.raw)));
    case Request(id, _) => ServerAsksGood(s, id, f.raw);
    case Response(None, _) =>
    case Response(Some(id), body) => ServerReplyGood(c, s, id, body, f.raw);
  }

  // ----- Relay.progress

  lemma LetGoSettles(s: State, held: Closing, raw: Bytes)
    requires Inv(s, Nobody) && s.closing == Some(held) && Drained(s)
    ensures Inv(Settled(s.(closing := None), held.id, raw), Nobody)
    ensures held.response.Some? ==> Inv(Settled(CloseBackend(s).(closing := None), held.id, raw), Nobody)
    ensures held.response.None? ==>
              Inv(Settled(s.(closing := None, history := s.history.Drop(held.id)), held.id, raw), Nobody)
  {
    LetGoKeeps(s);
    var s1, l := s.(closing := None), LetGo(held);
    SettleKeeps(s1, l, held.id, raw);
    if held.response.Some? {
      HeldIsGreeted(s);
      RetireKeeps(s1, l);
      SettleKeeps(CloseBackend(s1), l, held.id, raw);
    } else {
      DropKeeps(s1, held.id);
      SettleKeeps(s1.(history := s1.history.Drop(held.id)), l, held.id, raw);
    }
  }

  lemma HeldIsGreeted(s: State)
    requires Inv(s, Nobody) && s.closing.Some?
    ensures s.live && s.privateId.None? && s.closing.value.id in s.history.open
  {
  }

  lemma FinishClosingGood(c: Codec, s: State, held: Closing, w: World)
    requires Inv(s, Nobody) && s.closing == Some(held) && Drained(s)
    ensures Good(FinishClosing(c, s, held, w))
  {
    FinishClosingShape(c, s, held, w);
    if held.response.Some? {
      FinishRepliedGood(c, s, held);
    } else if held.cancelled {
      FinishCancelledGood(c, s, held);
    } else {
      HeldIsGreeted(s);
      HeldNotDropped(s, held);
      ForwardKeeps(s, Nobody, held.id, Close, held.raw);
      BudgetGood(Forward(s, held.id, Close, held.raw).s);
    }
  }

  lemma FinishRepliedGood(c: Codec, s: State, held: Closing)
    requires Inv(s, Nobody) && s.closing == Some(held) && Drained(s) && held.response.Some?
    ensures Good(CheckBudget(Settled(s.(closing := None), held.id, held.response.value)))
    ensures Good(CheckBudget(Settled(CloseBackend(s).(closing := None), held.id, held.response.value)))
    ensures Good(Raised(Settled(CloseBackend(s).(closing := None), held.id,
                                c.encode(ErrorReply(held.id, -32603, "Owned browser resources could not be released.")))))
  {
    var text := c.encode(ErrorReply(held.id, -32603, "Owned browser resources could not be released."));
    LetGoSettles(s, held, held.response.value);
    BudgetGood(Settled(s.(closing := None), held.id, held.response.value));
    BudgetGood(Settled(CloseBackend(s).(closing := None), held.id, held.response.value));
    LetGoSettles(s, held, text);
    SafeAnyway(Settled(CloseBackend(s).(closing := None), held.id, text), Nobody);
  }

  lemma FinishCancelledGood(c: Codec, s: State, held: Closing)
    requires Inv(s, Nobody) && s.closing == Some(held) && Drained(s) && held.response.None?
    ensures Good(CheckBudget(Settled(s.(closing := None, history := s.history.Drop(held.id)), held.id,
                                     c.encode(ErrorReply(held.id, -32800, "MCP request cancelled before execution.")))))
  {
    var text := c.encode(ErrorReply(held.id, -32800, "MCP request cancelled before execution."));
    LetGoSettles(s, held, text);
    BudgetGood(Settled(s.(closing := None, history := s.history.Drop(held.id)), held.id, text));
  }

  lemma FinishClosingShape(c: Codec, s: State, held: Closing, w: World)
    ensures FinishClosing(c, s, held, w) ==
      if held.response.Some? then
        if held.cancelled then CheckBudget(Settled(s.(closing := None), held.id, held.response.value))
        else if w.closes then CheckBudget(Settled(CloseBackend(s).(closing := None), held.id, held.response.value))
        else Raised(Settled(CloseBackend(s).(closing := None), held.id,
                            c.encode(ErrorReply(held.id, -32603, "Owned browser resources could not be released."))))
      else if held.cancelled then
        CheckBudget(Settled(s.(closing := None, history := s.history.Drop(held.id)), held.id,
                            c.encode(ErrorReply(held.id, -32800, "MCP request cancelled before execution."))))
      else Forward(s, held.id, Close, held.raw)
  {
  }

  lemma HeldNotDropped(s: State, held: Closing)
    requires Inv(s, Nobody) && s.closing == Some(held)
    ensures Unsent(s.history, held.id, held.raw)
  {
  }

  lemma RestartGood(c: Codec, s: State, w: World)
    requires Inv(s, Nobody) && !s.live && !s.releasing
    ensures Good(Restart(c, s, w))
  {
    if s.initialize.Some? && s.identity.Some? && s.initialized.Some? {
      RestartKeeps(s, c.encode(PrivateInitialize(PrivateIdOf(w), s.initialize.value)), PrivateIdOf(w));
    }
  }

  lemma DrainOneGood(c: Codec, s: State, w: World)
    requires Inv(s, Nobody) && Drainable(s) && s.deferred != []
    ensures Good(Client(c, Undefer(s), s.deferred[0], w))
  {
    var f, s1 := s.deferred[0], Undefer(s);
    match f.message
    case Request(id, call) =>
      assert !IsRelease(f.message);
      DrainRequestGood(c, s, id, call, w);
    case Response(ident, _) =>
      UndeferNoticeKeeps(s);
      CallbackGood(s1, f, ident);
    case Notification(n) =>
      UndeferNoticeKeeps(s);
      NoticeGood(c, s1, f, n);
  }

  lemma DrainRequestGood(c: Codec, s: State, id: Id, call: Call, w: World)
    requires Inv(s, Nobody) && Drainable(s) && s.deferred != []
    requires s.deferred[0].message == Request(id, call) && !call.Release?
    ensures Good(ClientRequest(c, Undefer(s), s.deferred[0], id, call, w))
  {
    var f, s1 := s.deferred[0], Undefer(s);
    UndeferKeeps(s, call);
    AdmitGood(Admit(s1, id, call, f.raw), f, id, call);
    ReadmitShape(c, s1, f, id, call, w);
  }

  lemma AdmitGood(s: State, f: Frame, id: Id, call: Call)
    requires Inv(s, Fresh(id)) && !s.releasing && !Holds(s.closing, id)
    requires f.message == Request(id, call) && !call.Release? && Unsent(s.history, id, f.raw)
    ensures Good(AdmitRequest(s, f, id, call))
  {
    SafeAnyway(s, Fresh(id));
    DispatchGood(s, f, id, call);
  }

  lemma ReadmitShape(c: Codec, s: State, f: Frame, id: Id, call: Call, w: World)
    requires id !in s.requests && s.live && !call.Release?
    ensures ClientRequest(c, s, f, id, call, w) == AdmitRequest(Admit(s, id, call, f.raw), f, id, call)
  {
  }

  lemma {:induction false} DrainGood(c: Codec, s: State, w: World)
    requires Inv(s, Nobody) && Drainable(s)
    ensures Good(Drain(c, s, w))
    decreases |s.deferred|
  {
    if s.deferred != [] && s.closing.None? {
      DrainShrinks(c, s, w);
      DrainOneGood(c, s, w);
      var o := Client(c, Undefer(s), s.deferred[0], w);
      if o.Running? { DrainGood(c, o.s, w); }
    }
  }

  lemma ResumeGood(c: Codec, s: State, w: World)
    requires Inv(s, Nobody)
    ensures NoRelease(s.deferred) && Good(Resume(c, s, w))
  {
    if s.releasing || s.closing.Some? || s.privateId.Some? || s.deferred == [] {
    } else if s.live {
      DrainGood(c, s, w);
    } else {
      RestartGood(c, s, w);
    }
  }

  lemma ProgressGood(c: Codec, s: State, w: World)
    requires Inv(s, Nobody)
    ensures NoRelease(s.deferred) && Good(Progress(c, s, w))
  {
    if s.releasing {
    } else if s.closing.Some? && Drained(s) {
      var held := s.closing.value;
      FinishClosingGood(c, s, held, w);
      var o := FinishClosing(c, s, held, w);
      if o.Running? { ResumeGood(c, o.s, w); }
    } else {
      ResumeGood(c, s, w);
    }
  }
}
