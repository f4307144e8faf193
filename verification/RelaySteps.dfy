/** Each small change that the relay's handlers are made of keeps the invariant. */
module RelaySteps {
  import opened Common
  import opened Mcp
  import opened Frames
  import opened RelayModel
  import opened RelayInvariants

  // ----- queues

  lemma PassKeeps(s: State, raw: Bytes, l: Loose)
    requires Inv(s, l)
    ensures Inv(PutClient(s, Pass(raw)), l)
  {
    AnswersOfAppend(s.history.outbox, Pass(raw));
    AnsweringWires(s, Pass(raw));
  }

  lemma GreetingKeeps(sent: seq<Sent>, starts: seq<nat>, greeted: seq<nat>, pending: bool, x: Sent)
    requires Greeting(sent, starts, greeted, pending) && (pending ==> x.Callback?)
    ensures Greeting(sent + [x], starts, greeted, pending)
  {
    forall k | 0 <= k < |greeted|
      ensures Greeted(sent + [x], starts[k + 1], greeted[k])
    {
      assert Greeted(sent, starts[k + 1], greeted[k]);
    }
  }

  lemma WiresKeep(s: State, x: Sent)
    requires Wires(s)
    ensures Wires(PutBackend(s, x))
  {
    TicketsOfAppend(s.history.sent, x);
    assert s.history.written + (s.toBackend + x.raw) == s.history.written + s.toBackend + x.raw;
  }

  /** Anything but a request may follow while a generation lives. */
  lemma PutBackendKeeps(s: State, x: Sent, l: Loose)
    requires Inv(s, l) && s.live && !x.Forwarded? && (s.privateId.Some? ==> x.Callback?)
    ensures Inv(PutBackend(s, x), l)
  {
    TicketsOfAppend(s.history.sent, x);
    WiresKeep(s, x);
    GreetingKeeps(s.history.sent, s.history.starts, s.history.greeted, s.privateId.Some?, x);
    EarlierKeeps(s.history.sent, LastStart(s.history.starts), s.history.replied, s.history.written, x);
  }

  lemma EarlierKeeps(sent: seq<Sent>, start: nat, replied: set<nat>, written: Bytes, x: Sent)
    requires EarlierSettled(sent, start, replied, written)
    ensures EarlierSettled(sent + [x], start, replied, written)
  {
    assert (sent + [x])[..start] == sent[..start];
  }

  // ----- a request enters

  lemma AdmitKeeps(s: State, id: Id, call: Call, raw: Bytes)
    requires Inv(s, Nobody) && id !in s.requests
    ensures var h1 := s.history.Accept(id, raw);
            Inv(Admit(s, id, call, raw), Fresh(id)) && h1.open[id] !in h1.dropped && IsAsked(h1.accepted, h1.open[id], raw)
  {
    var h := s.history;
    assert Admit(s, id, call, raw).requests.Keys == s.requests.Keys + {id};
    LedgerAccept(h, Answers(h.outbox), id, raw);
    AcceptTracked(h, s.inflight.Keys, s.closing, id, raw);
    AcceptFaithful(h, s.deferred, s.closing, id, raw);
    AdmitPlaces(s.requests.Keys, s.inflight.Keys, s.deferred, s.closing, id);
  }

  lemma AdmitPlaces(requests: set<Id>, inflight: set<Id>, deferred: seq<Frame>, closing: Option<Closing>, id: Id)
    requires Places(requests, inflight, deferred, closing, Nobody) && id !in requests
    ensures Places(requests + {id}, inflight, deferred, closing, Fresh(id))
  {
  }

  lemma AcceptFaithful(h: History, deferred: seq<Frame>, closing: Option<Closing>, id: Id, raw: Bytes)
    requires Faithful(h.accepted, h.open, h.sent, deferred, closing) && id !in h.open
    ensures var h1 := h.Accept(id, raw); Faithful(h1.accepted, h1.open, h1.sent, deferred, closing)
  {
  }

  lemma AcceptTracked(h: History, inflight: set<Id>, closing: Option<Closing>, id: Id, raw: Bytes)
    requires Tracked(h.open, Tickets(h.sent), h.dropped, inflight, closing, Nobody)
    requires Replied(h.accepted, h.open, Tickets(h.sent), h.replied, inflight)
    requires SentOnce(|h.accepted|, Tickets(h.sent), h.dropped)
    requires id !in h.open && id !in inflight && !Holds(closing, id)
    ensures var h1 := h.Accept(id, raw);
      && Tracked(h1.open, Tickets(h.sent), h.dropped, inflight, closing, Fresh(id))
      && Replied(h1.accepted, h1.open, Tickets(h.sent), h.replied, inflight)
      && SentOnce(|h1.accepted|, Tickets(h.sent), h.dropped)
      && h1.open[id] !in h.dropped
  {
    var h1 := h.Accept(id, raw);
    forall t | t in Tickets(h.sent) && t !in h.replied
      ensures IsOpen(h1.accepted, h1.open, t) && h1.accepted[t].id in inflight
    {
      assert IsOpen(h.accepted, h.open, t);
    }
  }

  // ----- a request leaves

  /** A moving request is answered and is pending no longer. */
  function Settled(s: State, id: Id, raw: Bytes): State {
    PutClient(s.(requests := s.requests - {id}, history := s.history.Close(id)), Answer(s.history.Ticket(id), raw))
  }

  lemma SettleKeeps(s: State, l: Loose, id: Id, raw: Bytes)
    requires Inv(s, l) && Moving(l, id) && !Holds(s.closing, id)
    ensures Inv(Settled(s, id, raw), Nobody)
  {
    SettleSafe(s, id, raw);
    SettleWhereabouts(s, l, id, raw);
    SettleLanes(s, id, raw);
  }

  lemma SettleSafe(s: State, id: Id, raw: Bytes)
    requires Safe(s) && id in s.requests
    ensures Safe(Settled(s, id, raw))
  {
    SettleBooks(s.requests.Keys, s.history, id, raw);
    assert (s.requests - {id}).Keys == s.requests.Keys - {id};
    AnsweringWires(s, Answer(s.history.Ticket(id), raw));
  }

  lemma SettleBooks(requests: set<Id>, h: History, id: Id, raw: Bytes)
    requires Books(requests, h) && id in requests
    ensures Books(requests - {id}, h.Close(id).Queue(Answer(h.Ticket(id), raw)))
  {
    LedgerAnswer(h, Answers(h.outbox), id);
    AnswersOfAppend(h.outbox, Answer(h.Ticket(id), raw));
  }

  lemma AnsweringWires(s: State, line: Line)
    requires Wires(s)
    ensures Wires(PutClient(s, line))
  {
    AnswersOfAppend(s.history.outbox, line);
    assert s.history.delivered + (s.toClient + line.raw) == s.history.delivered + s.toClient + line.raw;
  }

  lemma SettleWhereabouts(s: State, l: Loose, id: Id, raw: Bytes)
    requires Whereabouts(s, l) && Moving(l, id) && !Holds(s.closing, id) && id in s.history.open
    ensures Whereabouts(Settled(s, id, raw), Nobody)
  {
    assert (s.requests - {id}).Keys == s.requests.Keys - {id};
    AnswerTracked(s.history, s.inflight.Keys, s.closing, l, id);
    SettlePlaces(s.requests.Keys, s.inflight.Keys, s.deferred, s.closing, l, id);
    SettleFaithful(s.history, s.deferred, s.closing, id);
  }

  lemma SettleFaithful(h: History, deferred: seq<Frame>, closing: Option<Closing>, id: Id)
    requires Faithful(h.accepted, h.open, h.sent, deferred, closing)
    requires !Holds(closing, id) && !IsDeferred(deferred, id)
    ensures Faithful(h.accepted, h.open - {id}, h.sent, deferred, closing)
  {
  }

  lemma SettleLanes(s: State, id: Id, raw: Bytes)
    requires Lanes(s)
    ensures Lanes(Settled(s, id, raw))
  {
  }

  lemma SettlePlaces(requests: set<Id>, inflight: set<Id>, deferred: seq<Frame>, closing: Option<Closing>, l: Loose, id: Id)
    requires Places(requests, inflight, deferred, closing, l) && Moving(l, id) && !Holds(closing, id)
    ensures Places(requests - {id}, inflight, deferred, closing, Nobody)
  {
  }

  lemma AnswerTracked(h: History, inflight: set<Id>, closing: Option<Closing>, l: Loose, id: Id)
    requires Tracked(h.open, Tickets(h.sent), h.dropped, inflight, closing, l)
    requires Replied(h.accepted, h.open, Tickets(h.sent), h.replied, inflight)
    requires id in h.open && id !in inflight && Moving(l, id)
    ensures var open := h.open - {id};
      && Tracked(open, Tickets(h.sent), h.dropped, inflight, closing, Nobody)
      && Replied(h.accepted, open, Tickets(h.sent), h.replied, inflight)
  {
    forall t | t in Tickets(h.sent) && t !in h.replied
      ensures IsOpen(h.accepted, h.open - {id}, t) && h.accepted[t].id in inflight
    {
      assert IsOpen(h.accepted, h.open, t);
    }
  }

  /** A request answered on the spot was never pending. */
  lemma ImmediateKeeps(s: State, id: Id, asked: Bytes, raw: Bytes)
    requires Inv(s, Nobody) && id !in s.requests
    ensures Inv(Reply(Accept(s, id, asked), id, raw).s, Nobody)
  {
    AdmitKeeps(s, id, Other, asked);
    NotHeld(s, id);
    SettleKeeps(Admit(s, id, Other, asked), Fresh(id), id, raw);
    ImmediateIsSettled(s, id, asked, raw);
  }

  lemma ImmediateIsSettled(s: State, id: Id, asked: Bytes, raw: Bytes)
    requires id !in s.requests
    ensures Settled(Admit(s, id, Other, asked), id, raw) == Reply(Accept(s, id, asked), id, raw).s
  {
    assert s.requests[id := Other] - {id} == s.requests;
  }

  lemma NotHeld(s: State, id: Id)
    requires Inv(s, Nobody) && id !in s.requests
    ensures !Holds(s.closing, id)
  {
  }

  // ----- a request moves

  /** A request that may be sent: moving and never sent, or held and not yet sent. */
  predicate Sendable(l: Loose, closing: Option<Closing>, inflight: set<Id>, id: Id) {
    l == Fresh(id) || (l.Nobody? && Holds(closing, id) && closing.value.response.None? && id !in inflight)
  }

  /** The books know the request and its bytes, and it was not dropped. */
  predicate Unsent(h: History, id: Id, raw: Bytes) {
    id in h.open && h.open[id] !in h.dropped && IsAsked(h.accepted, h.open[id], raw)
  }

  lemma ForwardKeeps(s: State, l: Loose, id: Id, call: Call, raw: Bytes)
    requires Inv(s, l) && !Suspended(s) && Sendable(l, s.closing, s.inflight.Keys, id)
    requires Unsent(s.history, id, raw)
    ensures Inv(Forward(s, id, call, raw).s, Nobody)
  {
    var h, x := s.history, Forwarded(s.history.Ticket(id), raw);
    var s1 := PutBackend(s.(inflight := s.inflight[id := call]), x);
    WiresKeep(s, x);
    ForwardWhereabouts(s, l, id, call, x);
    GreetingKeeps(h.sent, h.starts, h.greeted, false, x);
    EarlierKeeps(h.sent, LastStart(h.starts), h.replied, h.written, x);
    assert Lanes(s1);
  }

  lemma ForwardWhereabouts(s: State, l: Loose, id: Id, call: Call, x: Sent)
    requires Books(s.requests.Keys, s.history) && Whereabouts(s, l) && Sendable(l, s.closing, s.inflight.Keys, id)
    requires Unsent(s.history, id, x.raw) && x == Forwarded(s.history.open[id], x.raw)
    ensures var s1 := PutBackend(s.(inflight := s.inflight[id := call]), x);
            Books(s1.requests.Keys, s1.history) && Whereabouts(s1, Nobody)
  {
    var h := s.history;
    assert s.inflight[id := call].Keys == s.inflight.Keys + {id};
    ForwardTracked(h, s.inflight.Keys, s.closing, l, id, x);
    ForwardPlaces(s.requests.Keys, s.inflight.Keys, s.deferred, s.closing, l, id);
    assert Faithful(h.accepted, h.open, h.sent + [x], s.deferred, s.closing);
  }

  lemma ForwardPlaces(requests: set<Id>, inflight: set<Id>, deferred: seq<Frame>, closing: Option<Closing>, l: Loose, id: Id)
    requires Places(requests, inflight, deferred, closing, l) && Sendable(l, closing, inflight, id)
    ensures Places(requests, inflight + {id}, deferred, closing, Nobody)
  {
  }

  lemma ForwardTracked(h: History, inflight: set<Id>, closing: Option<Closing>, l: Loose, id: Id, x: Sent)
    requires Ledger(h.accepted, h.open, Answers(h.outbox)) && SentOnce(|h.accepted|, Tickets(h.sent), h.dropped)
    requires Tracked(h.open, Tickets(h.sent), h.dropped, inflight, closing, l)
    requires Replied(h.accepted, h.open, Tickets(h.sent), h.replied, inflight)
    requires Sendable(l, closing, inflight, id) && id !in inflight && !HeldReply(closing, id)
    requires id in h.open && h.open[id] !in h.dropped && x == Forwarded(h.open[id], x.raw)
    ensures var tickets := Tickets(h.sent + [x]);
      && SentOnce(|h.accepted|, tickets, h.dropped)
      && Tracked(h.open, tickets, h.dropped, inflight + {id}, closing, Nobody)
      && Replied(h.accepted, h.open, tickets, h.replied, inflight + {id})
  {
    TicketsOfAppend(h.sent, x);
    assert h.open[id] !in Tickets(h.sent);
    assert IsOpen(h.accepted, h.open, h.open[id]);
  }

  lemma HoldKeeps(s: State, id: Id, raw: Bytes)
    requires Inv(s, Fresh(id)) && !Suspended(s) && s.closing.None?
    requires Unsent(s.history, id, raw)
    ensures Inv(s.(closing := Some(Closing(id, raw, None, false))), Nobody)
  {
    HoldWhereabouts(s, id, raw);
    HoldLanes(s, Closing(id, raw, None, false));
  }

  lemma HoldWhereabouts(s: State, id: Id, raw: Bytes)
    requires Whereabouts(s, Fresh(id)) && s.closing.None? && Unsent(s.history, id, raw)
    ensures Whereabouts(s.(closing := Some(Closing(id, raw, None, false))), Nobody)
  {
  }

  lemma HoldLanes(s: State, closing: Closing)
    requires Lanes(s) && !Suspended(s)
    ensures Lanes(s.(closing := Some(closing)))
  {
  }

  lemma TakeReplyKeeps(s: State, id: Id)
    requires Inv(s, Nobody) && id in s.inflight
    ensures Inv(TakeReply(s, id), Back(id))
  {
    TakeReplyWhereabouts(s, id);
    TakeReplyLanes(s, id);
  }

  lemma TakeReplyWhereabouts(s: State, id: Id)
    requires Safe(s) && Whereabouts(s, Nobody) && id in s.inflight
    ensures Whereabouts(TakeReply(s, id), Back(id))
  {
    var s1, h := TakeReply(s, id), s.history;
    assert s1.inflight.Keys == s.inflight.Keys - {id};
    TakeReplyPlaces(s.requests.Keys, s.inflight.Keys, s.deferred, s.closing, id);
    assert id in h.open;
    TakeReplyReplied(h.accepted, h.open, Tickets(h.sent), h.replied, s.inflight.Keys, id);
    TakeReplyTracked(h.open, Tickets(h.sent), h.dropped, s.inflight.Keys, s.closing, id);
  }

  lemma TakeReplyReplied(accepted: seq<Asked>, open: map<Id, nat>, tickets: seq<nat>, replied: set<nat>, inflight: set<Id>, id: Id)
    requires Replied(accepted, open, tickets, replied, inflight) && id in open
    ensures Replied(accepted, open, tickets, replied + {open[id]}, inflight - {id})
  {
  }

  lemma TakeReplyTracked(open: map<Id, nat>, tickets: seq<nat>, dropped: set<nat>, inflight: set<Id>, closing: Option<Closing>, id: Id)
    requires Tracked(open, tickets, dropped, inflight, closing, Nobody) && id in inflight
    ensures Tracked(open, tickets, dropped, inflight - {id}, closing, Back(id))
  {
  }

  lemma TakeReplyLanes(s: State, id: Id)
    requires Lanes(s)
    ensures Lanes(TakeReply(s, id))
  {
  }

  lemma TakeReplyPlaces(requests: set<Id>, inflight: set<Id>, deferred: seq<Frame>, closing: Option<Closing>, id: Id)
    requires Places(requests, inflight, deferred, closing, Nobody) && id in inflight
    ensures Places(requests, inflight - {id}, deferred, closing, Back(id))
  {
  }

  lemma HoldReplyKeeps(s: State, id: Id, raw: Bytes)
    requires Inv(s, Back(id)) && Holds(s.closing, id)
    ensures Inv(s.(closing := Some(s.closing.value.(response := Some(raw)))), Nobody)
  {
  }

  /** Letting go of a held close leaves its request moving. */
  function LetGo(closing: Closing): Loose {
    if closing.response.Some? then Back(closing.id) else Fresh(closing.id)
  }

  lemma LetGoKeeps(s: State)
    requires Inv(s, Nobody) && s.closing.Some? && s.closing.value.id !in s.inflight
    ensures Inv(s.(closing := None), LetGo(s.closing.value))
  {
  }

  lemma GiveUpKeeps(s: State, id: Id)
    requires Inv(s, Back(id)) && Holds(s.closing, id)
    ensures Inv(s.(closing := None), Back(id))
  {
    GiveUpWhereabouts(s, id);
  }

  lemma GiveUpWhereabouts(s: State, id: Id)
    requires Whereabouts(s, Back(id)) && Holds(s.closing, id)
    ensures Whereabouts(s.(closing := None), Back(id))
  {
  }

  lemma MarkKeeps(s: State, l: Loose, id: Id)
    requires Inv(s, l)
    ensures Inv(MarkClosing(s, id), l)
  {
    if Holds(s.closing, id) {
      var closing := MarkClosing(s, id).closing;
      assert forall k :: HeldReply(closing, k) == HeldReply(s.closing, k) && Holds(closing, k) == Holds(s.closing, k);
      assert Places(s.requests.Keys, s.inflight.Keys, s.deferred, closing, l);
    }
  }

  lemma DropKeeps(s: State, id: Id)
    requires Inv(s, Fresh(id))
    ensures Inv(s.(history := s.history.Drop(id)), Fresh(id))
  {
  }

  // ----- the deferred queue

  lemma DeferNoticeKeeps(s: State, f: Frame, l: Loose)
    requires Inv(s, l) && f.message.Notification? && !s.releasing
    ensures Inv(Defer(s, f), l)
  {
    DeferLanes(s, f);
    DeferNoticeWhereabouts(s, f, l);
  }

  lemma DeferLanes(s: State, f: Frame)
    requires Lanes(s) && !s.releasing && !IsRelease(f.message)
    ensures Lanes(Defer(s, f))
  {
    DeferOrdered(s.history.arrivals, s.history.waiting, s.history.left, s.deferred, f);
  }

  lemma DeferNoticeWhereabouts(s: State, f: Frame, l: Loose)
    requires Whereabouts(s, l) && f.message.Notification?
    ensures Whereabouts(Defer(s, f), l)
  {
    DeferPlaces(s.deferred, f);
  }

  lemma DeferRequestKeeps(s: State, f: Frame)
    requires f.message.Request? && !f.message.call.Release?
    requires Inv(s, Fresh(f.message.id)) && !s.releasing && !Holds(s.closing, f.message.id)
    requires Unsent(s.history, f.message.id, f.raw)
    ensures Inv(Defer(s, f), Nobody)
  {
    DeferLanes(s, f);
    DeferRequestWhereabouts(s, f);
  }

  lemma DeferRequestWhereabouts(s: State, f: Frame)
    requires f.message.Request? && Whereabouts(s, Fresh(f.message.id)) && !Holds(s.closing, f.message.id)
    requires Unsent(s.history, f.message.id, f.raw)
    ensures Whereabouts(Defer(s, f), Nobody)
  {
    DeferPlaces(s.deferred, f);
  }

  lemma DeferOrdered(arrivals: seq<Frame>, waiting: seq<nat>, left: seq<nat>, deferred: seq<Frame>, f: Frame)
    requires Ordered(arrivals, waiting, left, deferred)
    ensures Ordered(arrivals + [f], waiting + [|arrivals|], left, deferred + [f])
  {
    assert left + (waiting + [|arrivals|]) == (left + waiting) + [|arrivals|];
    forall i | 0 <= i < |left + waiting|
      ensures (left + waiting)[i] < |arrivals|
    {
      if i >= |left| { assert (left + waiting)[i] == waiting[i - |left|]; }
    }
  }

  lemma DeferPlaces(deferred: seq<Frame>, f: Frame)
    ensures var d := deferred + [f];
      && (forall i, id :: DeferredAt(d, i, id) <==>
            DeferredAt(deferred, i, id) || (i == |deferred| && DeferredAt([f], 0, id)))
      && (forall id :: IsDeferred(d, id) <==> IsDeferred(deferred, id) || DeferredAt([f], 0, id))
  {
    var d := deferred + [f];
    forall id
      ensures IsDeferred(d, id) <==> IsDeferred(deferred, id) || DeferredAt([f], 0, id)
    {
      if DeferredAt([f], 0, id) { assert DeferredAt(d, |deferred|, id); }
      if IsDeferred(deferred, id) {
        var i :| DeferredAt(deferred, i, id);
        assert DeferredAt(d, i, id);
      }
      if IsDeferred(d, id) {
        var i :| DeferredAt(d, i, id);
        assert DeferredAt(deferred, i, id) || DeferredAt([f], 0, id);
      }
    }
  }

  /** Removing line i moves the later lines up by one and changes nothing else. */
  lemma RemovePlaces(deferred: seq<Frame>, i: nat)
    requires i < |deferred|
    ensures var d := Without(deferred, i);
      && (forall j, id :: DeferredAt(d, j, id) <==> DeferredAt(deferred, if j < i then j else j + 1, id) && 0 <= j < |d|)
      && (forall id :: IsDeferred(deferred, id) <==> IsDeferred(d, id) || DeferredAt(deferred, i, id))
  {
    var d := Without(deferred, i);
    forall id
      ensures IsDeferred(deferred, id) <==> IsDeferred(d, id) || DeferredAt(deferred, i, id)
    {
      if IsDeferred(deferred, id) {
        var j :| DeferredAt(deferred, j, id);
        assert j == i || DeferredAt(d, if j < i then j else j - 1, id);
      }
      if IsDeferred(d, id) {
        var j :| DeferredAt(d, j, id);
        assert DeferredAt(deferred, if j < i then j else j + 1, id);
      }
    }
  }

  lemma RemoveOrdered(arrivals: seq<Frame>, waiting: seq<nat>, left: seq<nat>, deferred: seq<Frame>, i: nat)
    requires Ordered(arrivals, waiting, left, deferred) && i < |deferred|
    ensures Ordered(arrivals, Without(waiting, i), left, Without(deferred, i))
  {
    var all, k := left + waiting, |left| + i;
    assert left + Without(waiting, i) == Without(all, k);
    forall a, b | 0 <= a < b < |Without(all, k)|
      ensures Without(all, k)[a] < Without(all, k)[b]
    {
      assert all[if a < k then a else a + 1] < all[if b < k then b else b + 1];
    }
  }

  lemma LeaveOrdered(arrivals: seq<Frame>, waiting: seq<nat>, left: seq<nat>, deferred: seq<Frame>)
    requires Ordered(arrivals, waiting, left, deferred) && deferred != []
    ensures Ordered(arrivals, waiting[1..], left + [waiting[0]], deferred[1..])
  {
    assert left + [waiting[0]] + waiting[1..] == left + waiting;
  }

  lemma RemoveNoRelease(deferred: seq<Frame>, i: nat)
    requires NoRelease(deferred) && i < |deferred|
    ensures NoRelease(Without(deferred, i))
  {
  }

  /** Line i, a request, leaves the queue and is moving. */
  lemma RemoveKeeps(s: State, i: nat, id: Id)
    requires Inv(s, Nobody) && DeferredAt(s.deferred, i, id)
    ensures |s.history.waiting| == |s.deferred|
    ensures Inv(s.(deferred := Without(s.deferred, i),
                   history := s.history.(waiting := Without(s.history.waiting, i))), Fresh(id))
    ensures Unsent(s.history, id, s.deferred[i].raw) && !Holds(s.closing, id)
  {
    RemoveLanes(s, i);
    RemoveWhereabouts(s, i, id);
  }

  lemma RemoveLanes(s: State, i: nat)
    requires Lanes(s) && i < |s.deferred|
    ensures |s.history.waiting| == |s.deferred|
    ensures Lanes(s.(deferred := Without(s.deferred, i), history := s.history.(waiting := Without(s.history.waiting, i))))
  {
    RemoveOrdered(s.history.arrivals, s.history.waiting, s.history.left, s.deferred, i);
    RemoveNoRelease(s.deferred, i);
  }

  lemma RemoveWhereabouts(s: State, i: nat, id: Id)
    requires Safe(s) && Whereabouts(s, Nobody) && DeferredAt(s.deferred, i, id)
    ensures Whereabouts(s.(deferred := Without(s.deferred, i)), Fresh(id))
    ensures Unsent(s.history, id, s.deferred[i].raw) && !Holds(s.closing, id)
  {
    var h := s.history;
    RemovedPlaces(s.requests.Keys, s.inflight.Keys, s.deferred, s.closing, i, id);
    RemovedFaithful(h, s.deferred, s.closing, i);
    assert Tracked(h.open, Tickets(h.sent), h.dropped, s.inflight.Keys, s.closing, Fresh(id));
  }

  lemma RemovedFaithful(h: History, deferred: seq<Frame>, closing: Option<Closing>, i: nat)
    requires Faithful(h.accepted, h.open, h.sent, deferred, closing) && i < |deferred|
    ensures Faithful(h.accepted, h.open, h.sent, Without(deferred, i), closing)
  {
    var d := Without(deferred, i);
    forall j, id | DeferredAt(d, j, id)
      ensures id in h.open && IsAsked(h.accepted, h.open[id], d[j].raw)
    {
      assert DeferredAt(deferred, if j < i then j else j + 1, id);
    }
  }

  lemma RemovedPlaces(requests: set<Id>, inflight: set<Id>, deferred: seq<Frame>, closing: Option<Closing>, i: nat, id: Id)
    requires Places(requests, inflight, deferred, closing, Nobody) && DeferredAt(deferred, i, id)
    ensures Places(requests, inflight, Without(deferred, i), closing, Fresh(id))
  {
    var d := Without(deferred, i);
    RemovePlaces(deferred, i);
    forall j, k, other | DeferredAt(d, j, other) && DeferredAt(d, k, other)
      ensures j == k
    {
      assert DeferredAt(deferred, if j < i then j else j + 1, other);
      assert DeferredAt(deferred, if k < i then k else k + 1, other);
    }
    forall j, other | DeferredAt(d, j, other)
      ensures other in requests && other !in inflight && !Holds(closing, other) && other != id
    {
      assert DeferredAt(deferred, if j < i then j else j + 1, other);
    }
  }

  /** The first line is drained: a request comes back as a fresh admission, anything else just leaves. */
  lemma UndeferKeeps(s: State, call: Call)
    requires Inv(s, Nobody) && s.deferred != [] && s.deferred[0].message.Request?
    ensures var id, s1 := s.deferred[0].message.id, Undefer(s);
      && id !in s1.requests && !Holds(s.closing, id)
      && Inv(Admit(s1, id, call, s.deferred[0].raw), Fresh(id))
      && s1.history.Accept(id, s.deferred[0].raw) == s1.history
      && Unsent(s1.history, id, s.deferred[0].raw)
  {
    var id, s1, h := s.deferred[0].message.id, Undefer(s), s.history;
    assert DeferredAt(s.deferred, 0, id);
    assert Without(s.deferred, 0) == s.deferred[1..];
    RemoveWhereabouts(s, 0, id);
    assert Admit(s1, id, call, s.deferred[0].raw).requests.Keys == s.requests.Keys;
    UndeferLanes(s);
  }

  lemma UndeferNoticeKeeps(s: State)
    requires Inv(s, Nobody) && s.deferred != [] && !s.deferred[0].message.Request?
    ensures Inv(Undefer(s), Nobody)
  {
    UndeferLanes(s);
    assert Without(s.deferred, 0) == s.deferred[1..];
    RemovedFaithful(s.history, s.deferred, s.closing, 0);
    NoticeLeaves(s.requests.Keys, s.inflight.Keys, s.deferred, s.closing);
  }

  lemma UndeferLanes(s: State)
    requires Lanes(s) && s.deferred != []
    ensures Lanes(Undefer(s))
  {
    LeaveOrdered(s.history.arrivals, s.history.waiting, s.history.left, s.deferred);
    assert Without(s.deferred, 0) == s.deferred[1..];
    RemoveNoRelease(s.deferred, 0);
  }

  lemma NoticeLeaves(requests: set<Id>, inflight: set<Id>, deferred: seq<Frame>, closing: Option<Closing>)
    requires Places(requests, inflight, deferred, closing, Nobody) && deferred != [] && !deferred[0].message.Request?
    ensures Places(requests, inflight, deferred[1..], closing, Nobody)
  {
    var d := deferred[1..];
    assert Without(deferred, 0) == d;
    RemovePlaces(deferred, 0);
    forall j, k, other | DeferredAt(d, j, other) && DeferredAt(d, k, other)
      ensures j == k
    {
      assert DeferredAt(deferred, j + 1, other) && DeferredAt(deferred, k + 1, other);
    }
    forall j, other | DeferredAt(d, j, other)
      ensures other in requests && other !in inflight && !Holds(closing, other)
    {
      assert DeferredAt(deferred, j + 1, other);
    }
  }

  // ----- the backend's life

  /** Retiring a generation that has nothing outstanding. */
  lemma RetireKeeps(s: State, l: Loose)
    requires Inv(s, l) && Drained(s) && s.closing.None? && s.privateId.None?
    ensures Inv(CloseBackend(s), l)
  {
  }

  lemma CallbacksKeep(s: State, callbacks: set<Id>)
    requires Inv(s, Nobody) && s.live
    ensures Inv(s.(callbacks := callbacks), Nobody)
  {
  }

  lemma RestartKeeps(s: State, raw: Bytes, id: Id)
    requires Inv(s, Nobody) && !s.live && !s.releasing && s.identity.Some? && s.initialized.Some?
    ensures Inv(PutBackend(NextGeneration(s, id), Private(raw)), Nobody)
  {
    TicketsOfAppend(s.history.sent, Private(raw));
    WiresKeep(s, Private(raw));
    RestartSettled(s, Private(raw));
    RestartLanes(s, raw, id);
  }

  lemma RestartLanes(s: State, raw: Bytes, id: Id)
    requires Lanes(s) && !s.live && !s.releasing && s.identity.Some? && s.initialized.Some?
    requires EarlierSettled(s.history.sent + [Private(raw)], |s.history.sent|, s.history.replied, s.history.written)
    ensures Lanes(PutBackend(NextGeneration(s, id), Private(raw)))
  {
    RestartGreeting(s.history.sent, s.history.starts, s.history.greeted, Private(raw));
  }

  lemma RestartSettled(s: State, x: Sent)
    requires Inv(s, Nobody) && !s.live
    ensures EarlierSettled(s.history.sent + [x], |s.history.sent|, s.history.replied, s.history.written)
  {
    var h := s.history;
    assert (h.sent + [x])[..|h.sent|] == h.sent;
    assert h.written + [] == h.written;
    forall i | 0 <= i < |h.sent| && h.sent[i].Forwarded?
      ensures h.sent[i].ticket in h.replied
    {
      ForwardedHasTicket(h.sent, i);
    }
  }

  lemma {:induction false} ForwardedHasTicket(sent: seq<Sent>, i: nat)
    requires i < |sent| && sent[i].Forwarded?
    ensures sent[i].ticket in Tickets(sent)
    decreases |sent|
  {
    if i < |sent| - 1 { ForwardedHasTicket(sent[..|sent| - 1], i); }
  }

  lemma RestartGreeting(sent: seq<Sent>, starts: seq<nat>, greeted: seq<nat>, x: Sent)
    requires Greeting(sent, starts, greeted, false) && x.Private?
    ensures Greeting(sent + [x], starts + [|sent|], greeted, true)
  {
    GreetingKeeps(sent, starts, greeted, false, x);
    forall k | 0 <= k < |greeted|
      ensures Greeted(sent + [x], (starts + [|sent|])[k + 1], greeted[k]) && greeted[k] < |sent|
    {
      assert Greeted(sent, starts[k + 1], greeted[k]);
    }
  }

  lemma GreetKeeps(s: State, raw: Bytes)
    requires Inv(s, Nobody) && s.privateId.Some?
    ensures Inv(PutBackend(s.(privateId := None, history := s.history.Greet()), Replay(raw)), Nobody)
  {
    var h, x := s.history, Replay(raw);
    TicketsOfAppend(h.sent, x);
    WiresKeep(s, x);
    GreetGreeting(h.sent, h.starts, h.greeted, x);
    EarlierKeeps(h.sent, LastStart(h.starts), h.replied, h.written, x);
  }

  lemma GreetGreeting(sent: seq<Sent>, starts: seq<nat>, greeted: seq<nat>, x: Sent)
    requires Greeting(sent, starts, greeted, true) && x.Replay?
    ensures Greeting(sent + [x], starts, greeted + [|sent|], false)
  {
    var n := |greeted|;
    forall k | 0 <= k < n + 1
      ensures Greeted(sent + [x], starts[k + 1], (greeted + [|sent|])[k])
    {
      if k < n { assert Greeted(sent, starts[k + 1], greeted[k]); }
    }
  }

  /** What is known about the backend lines is no part of the invariant. */
  lemma TrailKeeps(s: State, l: Loose, trail: Trail)
    requires Inv(s, l)
    ensures Inv(s.(history := s.history.(trail := trail)), l)
  {
  }

  // ----- bytes leave the queues

  lemma WriteKeeps(s: State, n: nat)
    requires Inv(s, Nobody)
    ensures n <= |s.toClient| ==>
              Inv(s.(toClient := s.toClient[n..],
                     history := s.history.(delivered := s.history.delivered + s.toClient[..n])), Nobody)
    ensures n <= |s.toBackend| ==>
              Inv(s.(toBackend := s.toBackend[n..],
                     history := s.history.(written := s.history.written + s.toBackend[..n])), Nobody)
  {
    if n <= |s.toClient| {
      assert s.history.delivered + s.toClient[..n] + s.toClient[n..] == s.history.delivered + s.toClient;
    }
    if n <= |s.toBackend| {
      assert s.history.written + s.toBackend[..n] + s.toBackend[n..] == s.history.written + s.toBackend;
    }
  }
}
