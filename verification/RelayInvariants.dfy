/**
 What every state of the relay keeps, and how each small change of the handlers keeps it.
 A request that a handler is moving from one place to another is `Loose` in between.
 */
module RelayInvariants {
  import opened Common
  import opened Mcp
  import opened Frames
  import opened RelayModel

  /** `Fresh` has never been sent to a backend, `Back` has just come back from one. */
  datatype Loose = Nobody | Fresh(id: Id) | Back(id: Id)

  predicate Moving(l: Loose, id: Id) {
    !l.Nobody? && l.id == id
  }

  predicate Distinct<T(==)>(s: seq<T>) {
    forall i, j :: 0 <= i < j < |s| ==> s[i] != s[j]
  }

  predicate Increasing(s: seq<nat>) {
    forall i, j :: 0 <= i < j < |s| ==> s[i] < s[j]
  }

  // ----- every accepted request is open or answered, once

  predicate IsOpen(accepted: seq<Asked>, open: map<Id, nat>, t: nat) {
    t < |accepted| && accepted[t].id in open && open[accepted[t].id] == t
  }

  /** The tickets answered by the lines queued for the client. */
  function Answers(outbox: seq<Line>): seq<nat> {
    if outbox == [] then []
    else
      var last := outbox[|outbox| - 1];
      Answers(outbox[..|outbox| - 1]) + if last.Answer? then [last.ticket] else []
  }

  ghost predicate Ledger(accepted: seq<Asked>, open: map<Id, nat>, answered: seq<nat>) {
    && (forall id :: id in open ==> open[id] < |accepted| && accepted[open[id]].id == id)
    && Distinct(answered)
    && (forall t :: t in answered ==> t < |accepted| && !IsOpen(accepted, open, t))
    && (forall t: nat :: t < |accepted| && !IsOpen(accepted, open, t) ==> t in answered)
  }

  // ----- every request is sent at most once, and what was sent is replied to or in flight

  function Tickets(sent: seq<Sent>): seq<nat> {
    if sent == [] then []
    else
      var last := sent[|sent| - 1];
      Tickets(sent[..|sent| - 1]) + if last.Forwarded? then [last.ticket] else []
  }

  ghost predicate SentOnce(accepted: nat, tickets: seq<nat>, dropped: set<nat>) {
    && Distinct(tickets)
    && (forall t :: t in tickets ==> t < accepted)
    && (forall t :: t in dropped ==> t < accepted && t !in tickets)
  }

  predicate HeldReply(closing: Option<Closing>, id: Id) {
    closing.Some? && closing.value.id == id && closing.value.response.Some?
  }

  ghost predicate Tracked(open: map<Id, nat>, tickets: seq<nat>, dropped: set<nat>,
                          inflight: set<Id>, closing: Option<Closing>, l: Loose)
  {
    && (forall id :: id in open ==>
          (open[id] in tickets <==> id in inflight || HeldReply(closing, id) || l == Back(id)))
    && (forall id :: id in open && open[id] in dropped ==> l == Fresh(id))
  }

  /** What a backend still owes a reply is in flight. */
  ghost predicate Replied(accepted: seq<Asked>, open: map<Id, nat>, tickets: seq<nat>,
                          replied: set<nat>, inflight: set<Id>)
  {
    forall t :: t in tickets ==> t in replied || (IsOpen(accepted, open, t) && accepted[t].id in inflight)
  }

  /** Nothing sent to an earlier generation is unwritten or unreplied. */
  predicate EarlierSettled(sent: seq<Sent>, start: nat, replied: set<nat>, written: Bytes) {
    && start <= |sent|
    && (forall i :: 0 <= i < start && sent[i].Forwarded? ==> sent[i].ticket in replied)
    && SentBytes(sent[..start]) <= written
  }

  /** A request reaches a backend with the bytes the client sent, wherever it waited. */
  ghost predicate Faithful(accepted: seq<Asked>, open: map<Id, nat>, sent: seq<Sent>,
                           deferred: seq<Frame>, closing: Option<Closing>)
  {
    && (forall i :: 0 <= i < |sent| && sent[i].Forwarded? ==>
          sent[i].ticket < |accepted| && sent[i].raw == accepted[sent[i].ticket].raw)
    && (forall i, id :: DeferredAt(deferred, i, id) ==> id in open && IsAsked(accepted, open[id], deferred[i].raw))
    && (closing.Some? ==> closing.value.id in open && IsAsked(accepted, open[closing.value.id], closing.value.raw))
  }

  predicate IsAsked(accepted: seq<Asked>, t: nat, raw: Bytes) {
    t < |accepted| && accepted[t].raw == raw
  }

  // ----- every pending request is in exactly one place

  predicate DeferredAt(deferred: seq<Frame>, i: int, id: Id) {
    0 <= i < |deferred| && deferred[i].message.Request? && deferred[i].message.id == id
  }

  ghost predicate IsDeferred(deferred: seq<Frame>, id: Id) {
    exists i :: DeferredAt(deferred, i, id)
  }

  predicate Holds(closing: Option<Closing>, id: Id) {
    closing.Some? && closing.value.id == id
  }

  ghost predicate DeferredOnce(deferred: seq<Frame>) {
    forall i, j, id :: DeferredAt(deferred, i, id) && DeferredAt(deferred, j, id) ==> i == j
  }

  ghost predicate Places(requests: set<Id>, inflight: set<Id>, deferred: seq<Frame>,
                         closing: Option<Closing>, l: Loose)
  {
    && inflight <= requests
    && DeferredOnce(deferred)
    && (forall i, id :: DeferredAt(deferred, i, id) ==>
          id in requests && id !in inflight && !Holds(closing, id) && !Moving(l, id))
    && (closing.Some? ==>
          && closing.value.id in requests && l != Fresh(closing.value.id)
          && (closing.value.response.Some? ==> closing.value.id !in inflight && !Moving(l, closing.value.id)))
    && (!l.Nobody? ==> l.id in requests && l.id !in inflight)
    && (forall id :: id in requests ==>
          id in inflight || Holds(closing, id) || IsDeferred(deferred, id) || Moving(l, id))
  }

  // ----- the backend's life

  predicate NoRelease(deferred: seq<Frame>) {
    forall i :: 0 <= i < |deferred| ==> !IsRelease(deferred[i].message)
  }

  predicate BackendLife(s: State) {
    && (!s.live ==> s.inflight == map[] && s.callbacks == {} && s.toBackend == [] && s.closing.None? && s.privateId.None?)
    && (s.privateId.Some? ==> s.inflight == map[] && s.closing.None? && s.initialized.Some? && s.identity.Some?)
    && (s.releasing ==> !s.live && s.deferred == [])
    && NoRelease(s.deferred)
  }

  predicate OnlyCallbacks(sent: seq<Sent>, lo: int, hi: int) {
    forall i :: lo <= i < hi && 0 <= i < |sent| ==> sent[i].Callback?
  }

  /** Generation k + 1 begins privately and is sent nothing but callback replies until it is greeted. */
  predicate Greeted(sent: seq<Sent>, start: nat, greeting: nat) {
    && start < greeting < |sent|
    && sent[start].Private? && sent[greeting].Replay?
    && OnlyCallbacks(sent, start + 1, greeting)
  }

  predicate Greeting(sent: seq<Sent>, starts: seq<nat>, greeted: seq<nat>, pending: bool) {
    var n := |greeted|;
    && |starts| == n + 1 + (if pending then 1 else 0)
    && starts[0] == 0
    && (forall k :: 0 <= k < n ==> Greeted(sent, starts[k + 1], greeted[k]))
    && (forall k :: 0 <= k < n && k + 2 < |starts| ==> greeted[k] < starts[k + 2])
    && (pending ==> starts[n + 1] < |sent| && sent[starts[n + 1]].Private? &&
                    OnlyCallbacks(sent, starts[n + 1] + 1, |sent|))
  }

  // ----- order of the deferred lines, and the bytes on both wires

  predicate Ordered(arrivals: seq<Frame>, waiting: seq<nat>, left: seq<nat>, deferred: seq<Frame>) {
    && |waiting| == |deferred|
    && Increasing(left + waiting)
    && (forall i :: 0 <= i < |waiting| ==> waiting[i] < |arrivals| && deferred[i] == arrivals[waiting[i]])
    && (forall i :: 0 <= i < |left| ==> left[i] < |arrivals|)
  }

  function LineBytes(outbox: seq<Line>): Bytes {
    if outbox == [] then [] else LineBytes(outbox[..|outbox| - 1]) + outbox[|outbox| - 1].raw
  }

  function SentBytes(sent: seq<Sent>): Bytes {
    if sent == [] then [] else SentBytes(sent[..|sent| - 1]) + sent[|sent| - 1].raw
  }

  predicate Wires(s: State) {
    && s.history.delivered + s.toClient == LineBytes(s.history.outbox)
    && s.history.written + s.toBackend == SentBytes(s.history.sent)
  }

  function LastStart(starts: seq<nat>): nat {
    if starts == [] then 0 else starts[|starts| - 1]
  }

  // ----- the invariant

  ghost predicate Books(requests: set<Id>, h: History) {
    && h.open.Keys == requests
    && Ledger(h.accepted, h.open, Answers(h.outbox))
    && SentOnce(|h.accepted|, Tickets(h.sent), h.dropped)
  }

  /** What holds even in a state where a handler has raised. */
  ghost predicate Safe(s: State) {
    Books(s.requests.Keys, s.history) && Wires(s)
  }

  ghost predicate Whereabouts(s: State, l: Loose) {
    var h := s.history;
    && Tracked(h.open, Tickets(h.sent), h.dropped, s.inflight.Keys, s.closing, l)
    && Replied(h.accepted, h.open, Tickets(h.sent), h.replied, s.inflight.Keys)
    && Places(s.requests.Keys, s.inflight.Keys, s.deferred, s.closing, l)
    && Faithful(h.accepted, h.open, h.sent, s.deferred, s.closing)
  }

  predicate Lanes(s: State) {
    && BackendLife(s)
    && Greeting(s.history.sent, s.history.starts, s.history.greeted, s.privateId.Some?)
    && EarlierSettled(s.history.sent, LastStart(s.history.starts), s.history.replied, s.history.written)
    && Ordered(s.history.arrivals, s.history.waiting, s.history.left, s.deferred)
  }

  ghost predicate Inv(s: State, l: Loose) {
    Safe(s) && Whereabouts(s, l) && Lanes(s)
  }

  ghost predicate Good(o: Outcome) {
    Safe(o.s) && (o.Running? ==> Inv(o.s, Nobody))
  }

  // ----- the history alone

  lemma {:induction false} TicketsOfAppend(sent: seq<Sent>, x: Sent)
    ensures Tickets(sent + [x]) == Tickets(sent) + if x.Forwarded? then [x.ticket] else []
    ensures SentBytes(sent + [x]) == SentBytes(sent) + x.raw
  {
    assert (sent + [x])[..|sent|] == sent;
  }

  lemma {:induction false} AnswersOfAppend(outbox: seq<Line>, x: Line)
    ensures Answers(outbox + [x]) == Answers(outbox) + if x.Answer? then [x.ticket] else []
    ensures LineBytes(outbox + [x]) == LineBytes(outbox) + x.raw
  {
    assert (outbox + [x])[..|outbox|] == outbox;
  }

  lemma LedgerAccept(h: History, answered: seq<nat>, id: Id, raw: Bytes)
    requires Ledger(h.accepted, h.open, answered) && id !in h.open
    ensures var h1 := h.Accept(id, raw); Ledger(h1.accepted, h1.open, answered)
  {
    var h1 := h.Accept(id, raw);
    forall t: nat | t < |h1.accepted|
      ensures IsOpen(h1.accepted, h1.open, t) <==> IsOpen(h.accepted, h.open, t) || t == |h.accepted|
    {
    }
  }

  lemma LedgerAnswer(h: History, answered: seq<nat>, id: Id)
    requires Ledger(h.accepted, h.open, answered) && id in h.open
    ensures Ledger(h.accepted, h.open - {id}, answered + [h.open[id]])
  {
    var open, mine := h.open - {id}, h.open[id];
    assert IsOpen(h.accepted, h.open, mine);
    forall t: nat | t < |h.accepted|
      ensures IsOpen(h.accepted, open, t) <==> IsOpen(h.accepted, h.open, t) && t != mine
    {
    }
  }
}
