/** The relay object itself: fields updated in place by one method per handler, each refining its function. */
module RelayObject {
  import opened Common
  import opened Mcp
  import opened Frames
  import opened RelayModel
  import opened RelayInvariants
  import opened RelayHandlers
  import opened RelayRuns
  import opened RelayTrail
  import opened RelayMemory
  import opened RelayAccounts

  /** How a handler ends: it returns, or it raises. */
  datatype Status = Fine | Raise {
    predicate IsFailure() { Raise? }
    function PropagateFailure(): Status requires Raise? { this }
  }

  class Relay {
    const codec: Codec
    var requests: map<Id, Call>
    var inflight: map<Id, Call>
    var callbacks: set<Id>
    var deferred: seq<Frame>
    var closing: Option<Closing>
    var initialize: Option<Value>
    var identity: Option<Identity>
    var initialized: Option<Bytes>
    var privateId: Option<Id>
    var releasing: bool
    var releaseId: Option<Id>
    var live: bool
    var toClient: Bytes
    var toBackend: Bytes
    var clientBuffer: Bytes
    var backendBuffer: Bytes
    ghost var history: History

    ghost function State(): State
      reads this
    {
      RelayModel.State(requests, inflight, callbacks, deferred, closing, initialize, identity, initialized,
                       privateId, releasing, releaseId, live, toClient, toBackend, clientBuffer, backendBuffer, history)
    }

    ghost function Ended(status: Status): Outcome
      reads this
    {
      if status.Fine? then Running(State()) else Raised(State())
    }

    /** Every pending request is in one place, every line can be accounted for, and the client's handshake is saved. */
    ghost predicate Valid()
      reads this
    {
      Inv(State(), Nobody) && Truthful(codec, State()) && Mindful(codec, State())
    }

    constructor (codec: Codec)
      ensures Valid() && State() == Init() && this.codec == codec
    {
      this.codec := codec;
      requests, inflight, callbacks, deferred, closing := map[], map[], {}, [], None;
      initialize, identity, initialized, privateId := None, None, None, None;
      releasing, releaseId, live := false, None, true;
      toClient, toBackend, clientBuffer, backendBuffer := [], [], [], [];
      history := Init().history;
      new;
      assert State() == Init();
      InitIsTruthful(codec);
    }

    method CheckBudget() returns (status: Status)
      ensures Ended(status) == RelayModel.CheckBudget(State())
    {
      var buffered := |toClient| + |toBackend| + |clientBuffer| + |backendBuffer|;
      var i := 0;
      while i < |deferred|
        invariant 0 <= i <= |deferred|
        invariant buffered + RawBytes(deferred[i..]) ==
                  |toClient| + |toBackend| + |clientBuffer| + |backendBuffer| + RawBytes(deferred)
      {
        buffered := buffered + |deferred[i].raw|;
        assert deferred[i..][1..] == deferred[i + 1..];
        i := i + 1;
      }
      if closing.Some? {
        buffered := buffered + |closing.value.raw|;
        if closing.value.response.Some? {
          buffered := buffered + |closing.value.response.value|;
        }
      }
      if buffered > MAX_RELAY_BYTES || |requests| + |callbacks| > MAX_PENDING_REQUESTS {
        return Raise;
      }
      return Fine;
    }

    method QueueClient(line: Line) returns (status: Status)
      modifies this
      ensures Ended(status) == RelayModel.QueueClient(old(State()), line)
    {
      toClient := toClient + line.raw;
      history := history.Queue(line);
      status := CheckBudget();
    }

    method QueueBackend(sent: Sent) returns (status: Status)
      modifies this
      ensures Ended(status) == RelayModel.QueueBackend(old(State()), sent)
    {
      status := QueueLine(sent.raw, sent);
    }

    method QueueLine(raw: Bytes, ghost sent: Sent) returns (status: Status)
      requires raw == sent.raw
      modifies this
      ensures Ended(status) == RelayModel.QueueBackend(old(State()), sent)
    {
      toBackend := toBackend + raw;
      history := history.(sent := history.sent + [sent]);
      status := CheckBudget();
    }

    /** Queue the answer to a request. */
    method Answer(id: Id, raw: Bytes) returns (status: Status)
      modifies this
      ensures Ended(status) == Reply(old(State()), id, raw)
    {
      ghost var ticket := history.Ticket(id);
      history := history.Close(id);
      toClient := toClient + raw;
      history := history.Queue(Line.Answer(ticket, raw));
      status := CheckBudget();
    }

    method Error(id: Id, text: string, code: int) returns (status: Status)
      modifies this
      ensures Ended(status) == Fail(codec, old(State()), id, text, code)
    {
      status := Answer(id, codec.encode(ErrorReply(id, code, text)));
    }

    method Forward(id: Id, call: Call, raw: Bytes) returns (status: Status)
      modifies this
      ensures Ended(status) == RelayModel.Forward(old(State()), id, call, raw)
    {
      inflight := inflight[id := call];
      ghost var ticket := history.Ticket(id);
      status := QueueLine(raw, Forwarded(ticket, raw));
    }

    method Defer(f: Frame)
      modifies this
      ensures State() == RelayModel.Defer(old(State()), f)
    {
      deferred := deferred + [f];
      history := history.(arrivals := history.arrivals + [f], waiting := history.waiting + [|history.arrivals|]);
    }

    // ----- client

    method FindDeferred(id: Id) returns (index: nat)
      ensures index == RelayModel.FindDeferred(deferred, id)
    {
      index := 0;
      while index < |deferred|
        invariant 0 <= index <= |deferred|
        invariant RelayModel.FindDeferred(deferred, id) == index + RelayModel.FindDeferred(deferred[index..], id)
      {
        if deferred[index].message.Request? && deferred[index].message.id == id {
          return;
        }
        assert deferred[index..][1..] == deferred[index + 1..];
        index := index + 1;
      }
    }

    method DropDeferred(i: nat, id: Id) returns (status: Status)
      requires i < |deferred|
      modifies this
      ensures Ended(status) == RelayModel.DropDeferred(codec, old(State()), i, id)
    {
      deferred := deferred[..i] + deferred[i + 1..];
      requests := requests - {id};
      history := history.Drop(id);
      history := history.(waiting := if i < |history.waiting| then Without(history.waiting, i) else history.waiting);
      assert State() == RemoveDeferred(old(State()), i, id);
      status := Error(id, "MCP request cancelled before execution.", -32800);
    }

    method PassNotice(f: Frame) returns (status: Status)
      modifies this
      ensures Ended(status) == RelayModel.PassNotice(old(State()), f)
    {
      if !live || privateId.Some? {
        Defer(f);
        return Fine;
      }
      status := QueueBackend(Notified(f.raw));
    }

    method ClientNotice(f: Frame, n: Notice) returns (status: Status)
      modifies this
      ensures Ended(status) == RelayModel.ClientNotice(codec, old(State()), f, n)
    {
      match n
      case Plain =>
        status := PassNotice(f);
      case Initialized =>
        initialized := Some(f.raw);
        if !live || privateId.Some? {
          return Fine;
        }
        status := QueueBackend(Notified(f.raw));
      case Cancelled(None) =>
        status := Raise;
      case Cancelled(Some(id)) =>
        status := Cancel(f, id);
    }

    method Cancel(f: Frame, id: Id) returns (status: Status)
      modifies this
      ensures Ended(status) == RelayModel.ClientNotice(codec, old(State()), f, Cancelled(Some(id)))
    {
      if closing.Some? && closing.value.id == id {
        closing := Some(closing.value.(cancelled := true));
      }
      assert State() == MarkClosing(old(State()), id);
      var index := FindDeferred(id);
      if index < |deferred| {
        status := DropDeferred(index, id);
      } else {
        status := PassNotice(f);
      }
    }

    method Busy(unread: bool) returns (busy: bool)
      ensures busy == !Quiescent(State(), unread)
    {
      busy := identity.None? || initialized.None? || requests != map[] || inflight != map[] || callbacks != {}
              || closing.Some? || privateId.Some? || deferred != [] || toClient != [] || toBackend != []
              || backendBuffer != [] || (live && unread);
    }

    method Release(id: Id, wellFormed: bool, w: World) returns (status: Status)
      modifies this
      ensures Ended(status) == ReleaseRequest(codec, old(State()), id, wellFormed, w)
    {
      if !wellFormed {
        status := Error(id, "browser_release accepts no target or arguments.", -32602);
        return;
      }
      var busy := Busy(w.unread);
      if busy {
        status := Error(id, "Browser connection is busy; release was not performed.", -32603);
        return;
      }
      releasing := true;
      releaseId := Some(id);
      live := false;
      assert State() == Releasing(old(State()), id);
      status := PerformRelease(id, w.closes);
    }

    method PerformRelease(id: Id, closes: bool) returns (status: Status)
      modifies this
      ensures Ended(status) == RelayModel.PerformRelease(codec, old(State()), id, closes)
    {
      if closes {
        status := Answer(id, codec.encode(ReleaseReply(id)));
      } else {
        var ignored := Error(id, "Owned browser resources could not be released.", -32603);
        return Raise;
      }
    }

    method Dispatch(f: Frame, id: Id, call: Call) returns (status: Status)
      modifies this
      ensures Ended(status) == RelayModel.Dispatch(old(State()), f, id, call)
    {
      if closing.Some? || privateId.Some? || !live {
        Defer(f);
        return Fine;
      }
      if call.Close? {
        closing := Some(Closing(id, f.raw, None, false));
        return Fine;
      }
      if call.Initialize? {
        initialize := call.params;
      }
      status := Forward(id, call, f.raw);
    }

    method ClientRequest(f: Frame, id: Id, call: Call, w: World) returns (status: Status)
      modifies this
      ensures Ended(status) == RelayModel.ClientRequest(codec, old(State()), f, id, call, w)
    {
      if id in requests {
        return Raise;
      }
      history := history.Accept(id, f.raw);
      if call.Release? {
        status := Release(id, call.wellFormed, w);
        return;
      }
      if !live && call.Ping? {
        status := Answer(id, codec.encode(PingReply(id)));
        return;
      }
      requests := requests[id := call];
      assert State() == Admit(old(State()), id, call, f.raw);
      status := AdmitRequest(f, id, call);
    }

    method AdmitRequest(f: Frame, id: Id, call: Call) returns (status: Status)
      modifies this
      ensures Ended(status) == RelayModel.AdmitRequest(old(State()), f, id, call)
    {
      status := CheckBudget();
      if status.Raise? { return; }
      status := Dispatch(f, id, call);
    }

    method ClientReleased(f: Frame) returns (status: Status)
      modifies this
      ensures Ended(status) == RelayModel.ClientReleased(codec, old(State()), f)
    {
      if f.message.Request? && releaseId != Some(f.message.id) {
        history := history.Accept(f.message.id, f.raw);
        status := Error(f.message.id, "Browser connection is permanently released; use a fresh thread.", -32603);
      } else {
        status := Fine;
      }
    }

    method ClientCallback(f: Frame, ident: Option<Id>) returns (status: Status)
      modifies this
      ensures Ended(status) == RelayModel.ClientCallback(old(State()), f, ident)
    {
      if ident.None? || ident.value !in callbacks {
        return Raise;
      }
      callbacks := callbacks - {ident.value};
      status := QueueBackend(Callback(f.raw));
    }

    method OnClient(f: Frame, w: World) returns (status: Status)
      modifies this
      ensures Ended(status) == RelayModel.Client(codec, old(State()), f, w)
    {
      if releasing {
        status := ClientReleased(f);
        return;
      }
      match f.message
      case Response(ident, _) => status := ClientCallback(f, ident);
      case Notification(n) => status := ClientNotice(f, n);
      case Request(id, call) => status := ClientRequest(f, id, call, w);
    }

    // ----- server

    method Deliver(id: Id, closed: bool, raw: Bytes) returns (status: Status)
      modifies this
      ensures Ended(status) == RelayModel.Deliver(old(State()), id, closed, raw)
    {
      if closing.Some? && closing.value.id == id {
        if closed && !closing.value.cancelled {
          closing := Some(closing.value.(response := Some(raw)));
          return Fine;
        }
        closing := None;
      }
      requests := requests - {id};
      status := Answer(id, raw);
    }

    method PrivateReply(body: Body) returns (status: Status)
      modifies this
      ensures Ended(status) == RelayModel.PrivateReply(old(State()), body)
    {
      history := history.Confide();
      if body.Failure? || body.identity.None? || body.identity != identity {
        return Raise;
      }
      privateId := None;
      if initialized.None? {
        return Fine;
      }
      history := history.Greet();
      status := QueueBackend(Replay(initialized.value));
    }

    method ServerReply(id: Id, body: Body, received: Bytes) returns (status: Status)
      modifies this
      ensures Ended(status) == RelayModel.ServerReply(codec, old(State()), id, body, received)
    {
      if privateId == Some(id) {
        status := PrivateReply(body);
        return;
      }
      if id !in inflight {
        return Raise;
      }
      var call := inflight[id];
      history := history.(replied := history.replied + {history.Ticket(id)});
      inflight := inflight - {id};
      assert State() == TakeReply(old(State()), id);
      status := Interpret(id, call, body, received);
    }

    method Interpret(id: Id, call: Call, body: Body, received: Bytes) returns (status: Status)
      modifies this
      ensures Ended(status) == RelayModel.Interpret(codec, old(State()), id, call, body, received)
    {
      var raw := received;
      if call.Initialize? && body.Success? {
        if body.identity.None? {
          return Raise;
        }
        Learn(id, body.identity);
      }
      if call.ListTools? && body.Success? {
        if body.inventory.None? {
          return Raise;
        }
        raw := codec.encode(ToolsReply(id, body.inventory.value));
      }
      status := Deliver(id, body.Success? && body.closed, raw);
    }

    method Learn(id: Id, given: Option<Identity>)
      modifies this
      ensures State() == old(State()).(identity := given, history := old(history).Learn(id))
    {
      identity := given;
      history := history.Learn(id);
    }

    method OnServer(f: Frame) returns (status: Status)
      modifies this
      ensures Ended(status) == RelayModel.Server(codec, old(State()), f)
    {
      history := history.Hear(f);
      status := Serve(f);
    }

    method Serve(f: Frame) returns (status: Status)
      modifies this
      ensures Ended(status) == RelayModel.Serve(codec, old(State()), f)
    {
      match f.message
      case Notification(_) =>
        status := QueueClient(Pass(f.raw));
      case Request(id, _) =>
        if id in callbacks {
          return Raise;
        }
        callbacks := callbacks + {id};
        status := QueueClient(Pass(f.raw));
      case Response(None, _) =>
        status := Raise;
      case Response(Some(id), body) =>
        status := ServerReply(id, body, f.raw);
    }

    // ----- progress

    method FinishClosing(held: Closing, w: World) returns (status: Status)
      modifies this
      ensures Ended(status) == RelayModel.FinishClosing(codec, old(State()), held, w)
      ensures deferred == old(deferred)
    {
      if held.response.None? && !held.cancelled {
        status := Forward(held.id, Close, held.raw);
        return;
      }
      if held.response.None? {
        status := EndCancelled(held);
      } else if held.cancelled {
        status := EndReplied(held);
      } else {
        live := false;
        if w.closes {
          status := EndReplied(held);
        } else {
          closing := None;
          requests := requests - {held.id};
          assert State() == EndClosing(CloseBackend(old(State())), held.id);
          var ignored := Error(held.id, "Owned browser resources could not be released.", -32603);
          return Raise;
        }
      }
    }

    method EndReplied(held: Closing) returns (status: Status)
      requires held.response.Some?
      modifies this
      ensures Ended(status) == Reply(EndClosing(old(State()), held.id), held.id, held.response.value)
    {
      closing := None;
      requests := requests - {held.id};
      assert State() == EndClosing(old(State()), held.id);
      status := Answer(held.id, held.response.value);
    }

    method EndCancelled(held: Closing) returns (status: Status)
      modifies this
      ensures Ended(status) == RelayModel.EndCancelled(codec, old(State()), held.id)
    {
      closing := None;
      requests := requests - {held.id};
      history := history.Drop(held.id);
      assert State() == RelayModel.EndClosing(old(State()), held.id).(history := history);
      status := Error(held.id, "MCP request cancelled before execution.", -32800);
    }

    method StartBackend(id: Id)
      modifies this
      ensures State() == NextGeneration(old(State()), id)
    {
      history := history.Start(Saved(id, initialize, identity, history.trail.lesson));
      live := true;
      backendBuffer := [];
      privateId := Some(id);
    }

    method Restart(w: World) returns (status: Status)
      modifies this
      ensures Ended(status) == RelayModel.Restart(codec, old(State()), w)
    {
      if initialize.None? || identity.None? || initialized.None? || !w.starts {
        return Raise;
      }
      var id := PrivateIdOf(w);
      StartBackend(id);
      status := QueueBackend(Private(codec.encode(PrivateInitialize(id, initialize.value))));
    }

    method Drain(w: World) returns (status: Status)
      requires Drainable(State())
      modifies this
      ensures Ended(status) == RelayModel.Drain(codec, old(State()), w)
    {
      ghost var whole := RelayModel.Drain(codec, State(), w);
      while deferred != [] && closing.None?
        invariant Drainable(State()) && whole == RelayModel.Drain(codec, State(), w)
        decreases |deferred|
      {
        DrainShrinks(codec, State(), w);
        ghost var before := State();
        var f := deferred[0];
        history := Undefer(State()).history;
        deferred := deferred[1..];
        if f.message.Request? {
          requests := requests - {f.message.id};
        }
        assert State() == Undefer(before);
        status := OnClient(f, w);
        if status.Raise? {
          return;
        }
      }
      status := Fine;
    }

    method Resume(w: World) returns (status: Status)
      requires NoRelease(deferred)
      modifies this
      ensures Ended(status) == RelayModel.Resume(codec, old(State()), w)
    {
      if releasing || closing.Some? || privateId.Some? || deferred == [] {
        return Fine;
      }
      if live {
        status := Drain(w);
        return;
      }
      var requested := AnyRequest();
      if toClient != [] || !requested {
        return Fine;
      }
      status := Restart(w);
    }

    method AnyRequest() returns (found: bool)
      ensures found == HasRequest(deferred)
    {
      found := false;
      for i := 0 to |deferred|
        invariant found == exists j :: 0 <= j < i && deferred[j].message.Request?
      {
        if deferred[i].message.Request? {
          found := true;
        }
      }
    }

    method OnProgress(w: World) returns (status: Status)
      requires NoRelease(deferred)
      modifies this
      ensures Ended(status) == RelayModel.Progress(codec, old(State()), w)
    {
      if releasing {
        return Fine;
      }
      if closing.Some? && inflight == map[] && callbacks == {} && toBackend == [] && backendBuffer == [] {
        var held := closing.value;
        :- FinishClosing(held, w);
        if held.response.Some? && held.cancelled {
          return Fine;
        }
      }
      status := Resume(w);
    }

    /** Answer what is pending, in the given order. */
    method ErrorAll(order: seq<Id>) returns (status: Status)
      modifies this
      ensures Ended(status) == FailAll(codec, old(State()), order)
    {
      ghost var whole := FailAll(codec, State(), order);
      var i := 0;
      while i < |order|
        invariant 0 <= i <= |order| && whole == FailAll(codec, State(), order[i..])
      {
        assert order[i..][1..] == order[i + 1..];
        :- Error(order[i], "Browser transport failed; the request was not replayed.", -32603);
        i := i + 1;
      }
      return Fine;
    }

    // ----- what the select loop calls

    /**
     A line from the client. Whether or not it raises, every accepted request is pending or answered once and every
     line for the client is accounted for; if it returns, every pending request is in exactly one place.
     */
    method Client(f: Frame, w: World) returns (status: Status)
      requires Valid() && Decoded(codec, f)
      modifies this
      ensures Ended(status) == Listen(codec, old(State()), f, w)
      ensures Safe(State()) && Told(codec, history)
      ensures status.Fine? ==> Valid()
    {
      ClientKeeps(codec, State(), f, w);
      history := history.Note(f);
      status := OnClient(f, w);
    }

    /** A line from the backend, under the same promises. */
    method Server(f: Frame) returns (status: Status)
      requires Valid() && live && Decoded(codec, f)
      modifies this
      ensures Ended(status) == RelayModel.Server(codec, old(State()), f)
      ensures Safe(State()) && Told(codec, history)
      ensures status.Fine? ==> Valid()
    {
      ServerKeeps(codec, State(), f);
      status := OnServer(f);
    }

    /** The work between messages, under the same promises. */
    method Progress(w: World) returns (status: Status)
      requires Valid()
      modifies this
      ensures NoRelease(old(deferred)) && Ended(status) == RelayModel.Progress(codec, old(State()), w)
      ensures Safe(State()) && Told(codec, history)
      ensures status.Fine? ==> Valid()
    {
      ProgressKeeps(codec, State(), w);
      status := OnProgress(w);
    }

    /** The failure branch of `run`: every pending request is answered exactly when the replies but the last fit. */
    method FailPending(order: seq<Id>) returns (status: Status)
      requires Safe(State()) && Told(codec, history) && ListsPending(State(), order)
      modifies this
      ensures Ended(status) == FailAll(codec, old(State()), order)
      ensures Distinct(Answers(history.outbox)) && history.accepted == old(history).accepted
      ensures AllAnswered(State()) <==> FailureFits(codec, old(State()), order)
      ensures Told(codec, history)
    {
      FailureKeeps(codec, State(), order);
      status := ErrorAll(order);
    }
  }

  lemma ClientKeeps(c: Codec, s: State, f: Frame, w: World)
    requires Inv(s, Nobody) && Truthful(c, s) && Mindful(c, s) && Decoded(c, f)
    ensures Good(Listen(c, s, f, w)) && Honest(c, Listen(c, s, f, w)) && Mindful(c, Listen(c, s, f, w).s)
  {
    ListenGood(c, s, f, w);
    InvIsReady(s);
    ListenTrail(c, s, f, w);
    ListenMindful(c, s, f, w);
  }

  lemma ServerKeeps(c: Codec, s: State, f: Frame)
    requires Inv(s, Nobody) && Truthful(c, s) && Mindful(c, s) && Decoded(c, f) && s.live
    ensures Good(RelayModel.Server(c, s, f)) && Honest(c, RelayModel.Server(c, s, f)) && Mindful(c, RelayModel.Server(c, s, f).s)
  {
    ServerGood(c, s, f);
    InvIsReady(s);
    ServerTrail(c, s, f);
    ServerMindful(c, s, f);
  }

  lemma ProgressKeeps(c: Codec, s: State, w: World)
    requires Inv(s, Nobody) && Truthful(c, s) && Mindful(c, s)
    ensures NoRelease(s.deferred) && Good(RelayModel.Progress(c, s, w)) && Honest(c, RelayModel.Progress(c, s, w))
    ensures Mindful(c, RelayModel.Progress(c, s, w).s)
  {
    ProgressGood(c, s, w);
    ProgressTrail(c, s, w);
    ProgressMindful(c, s, w);
  }

  lemma FailureKeeps(c: Codec, s: State, order: seq<Id>)
    requires Safe(s) && Told(c, s.history) && ListsPending(s, order)
    ensures var s1 := FailAll(c, s, order).s;
      && Distinct(Answers(s1.history.outbox)) && s1.history.accepted == s.history.accepted
      && (AllAnswered(s1) <==> FailureFits(c, s, order)) && Told(c, s1.history)
  {
    FailureFromState(c, s, order);
    FailureTrail(c, s, order);
  }
}
