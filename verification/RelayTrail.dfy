/**
 Where every line for the client comes from. Each is an answer of the relay's own to the request it answers, or
 what a backend said: the reply to that very request, or a notification or request of the backend's; the reply
 to a private initialize is none of them.
 */
module RelayTrail {
  import opened Common
  import opened Mcp
  import opened Frames
  import opened RelayModel
  import opened RelayInvariants
  import opened RelaySteps
  import opened RelayHandlers

  predicate Decoded(c: Codec, f: Frame) {
    f.raw != [] && c.decode(f.raw) == Some(f.message)
  }

  /** What the bytes of a client request ask for. */
  function CallOf(c: Codec, raw: Bytes): Option<Call> {
    var m := c.decode(raw);
    if m.Some? && m.value.Request? then Some(m.value.call) else None
  }

  predicate IsRequest(c: Codec, a: Asked) {
    var m := c.decode(a.raw);
    m.Some? && m.value.Request? && m.value.id == a.id
  }

  // ----- where a line comes from

  predicate OwnLine(c: Codec, m: Local, id: Id, raw: Bytes) {
    !m.PrivateInitialize? && !m.ToolsReply? && m.id == id && c.encode(m) == raw
  }

  ghost predicate Own(c: Codec, id: Id, raw: Bytes) {
    exists m :: OwnLine(c, m, id, raw)
  }

  /** The reply as the client is shown it: the backend's bytes, except that a tool list names the release tool too. */
  function ReplyText(c: Codec, a: Asked, f: Frame): Bytes
    requires f.message.Response?
  {
    if CallOf(c, a.raw) == Some(ListTools) && f.message.body.Success? && f.message.body.inventory.Some? then
      c.encode(ToolsReply(a.id, f.message.body.inventory.value))
    else f.raw
  }

  predicate Replies(c: Codec, a: Asked, f: Frame, raw: Bytes) {
    && f.message.Response? && f.message.ident == Some(a.id) && raw == ReplyText(c, a, f)
    && (CallOf(c, a.raw) == Some(ListTools) && f.message.body.Success? ==> f.message.body.inventory.Some?)
  }

  /** Line n came from a backend and was not a private reply. */
  predicate Public(tr: Trail, n: int) {
    0 <= n < |tr.heard| && n !in tr.private
  }

  ghost predicate FromBackend(c: Codec, a: Asked, tr: Trail, raw: Bytes) {
    exists n :: Public(tr, n) && Replies(c, a, tr.heard[n], raw)
  }

  ghost predicate Passed(tr: Trail, raw: Bytes) {
    exists n :: Public(tr, n) && !tr.heard[n].message.Response? && tr.heard[n].raw == raw
  }

  ghost predicate LineOk(c: Codec, accepted: seq<Asked>, tr: Trail, line: Line) {
    match line
    case Answer(t, raw) => t < |accepted| && (Own(c, accepted[t].id, raw) || FromBackend(c, accepted[t], tr, raw))
    case Pass(raw) => Passed(tr, raw)
  }

  ghost predicate Shown(c: Codec, accepted: seq<Asked>, outbox: seq<Line>, tr: Trail) {
    && (forall t :: 0 <= t < |accepted| ==> IsRequest(c, accepted[t]))
    && (forall n :: 0 <= n < |tr.heard| ==> Decoded(c, tr.heard[n]))
    && (forall n :: n in tr.private ==> 0 <= n < |tr.heard|)
    && (forall i :: 0 <= i < |outbox| ==> LineOk(c, accepted, tr, outbox[i]))
  }

  // ----- what is on its way

  predicate Asks(c: Codec, accepted: seq<Asked>, t: nat, call: Call) {
    t < |accepted| && CallOf(c, accepted[t].raw) == Some(call)
  }

  predicate Calls(c: Codec, accepted: seq<Asked>, open: map<Id, nat>, inflight: map<Id, Call>) {
    forall id :: id in inflight && id in open ==> Asks(c, accepted, open[id], inflight[id])
  }

  ghost predicate HeldOk(c: Codec, accepted: seq<Asked>, open: map<Id, nat>, tr: Trail, closing: Option<Closing>) {
    closing.Some? && closing.value.id in open ==>
      && Asks(c, accepted, open[closing.value.id], Close)
      && (closing.value.response.Some? ==> FromBackend(c, accepted[open[closing.value.id]], tr, closing.value.response.value))
  }

  predicate DeferredOk(c: Codec, deferred: seq<Frame>) {
    forall i :: 0 <= i < |deferred| ==> Decoded(c, deferred[i])
  }

  ghost predicate Underway(c: Codec, s: State) {
    && Calls(c, s.history.accepted, s.history.open, s.inflight)
    && HeldOk(c, s.history.accepted, s.history.open, s.history.trail, s.closing)
    && DeferredOk(c, s.deferred)
  }

  // ----- restored handshakes

  predicate Teaches(c: Codec, a: Asked, f: Frame, identity: Option<Identity>) {
    && f.message.Response? && f.message.ident == Some(a.id) && f.message.body.Success?
    && CallOf(c, a.raw).Some? && CallOf(c, a.raw).value.Initialize?
    && f.message.body.identity == identity && identity.Some?
  }

  /** A backend gave this identity in reply to an initialize of the client's. */
  predicate Learned(c: Codec, accepted: seq<Asked>, tr: Trail, identity: Option<Identity>, from: Lesson) {
    0 <= from.ticket < |accepted| && Public(tr, from.line) && Teaches(c, accepted[from.ticket], tr.heard[from.line], identity)
  }

  predicate Taught(c: Codec, accepted: seq<Asked>, tr: Trail, saved: Saved) {
    Learned(c, accepted, tr, saved.identity, saved.lesson)
  }

  /** The line is the reply to the private initialize of this restart, with the identity saved for it. */
  predicate Restores(f: Frame, saved: Saved) {
    && f.message.Response? && f.message.ident == Some(saved.id)
    && f.message.body.Success? && f.message.body.identity == saved.identity && saved.identity.Some?
  }

  predicate PrivateAt(c: Codec, sent: seq<Sent>, start: nat, saved: Saved) {
    && saved.params.Some? && start < |sent|
    && sent[start] == Private(c.encode(PrivateInitialize(saved.id, saved.params.value)))
  }

  predicate PrivatelyGreeted(c: Codec, sent: seq<Sent>, starts: seq<nat>, restarts: seq<Saved>) {
    && |starts| == |restarts| + 1
    && forall k :: 0 <= k < |restarts| ==> PrivateAt(c, sent, starts[k + 1], restarts[k])
  }

  /** The line replied to the private initialize of its restart. */
  predicate Secret(tr: Trail, n: int) {
    && n in tr.private && 0 <= n < |tr.heard| && 0 <= tr.private[n] < |tr.restarts|
    && tr.heard[n].message.Response? && tr.heard[n].message.ident == Some(tr.restarts[tr.private[n]].id)
  }

  /** The handshakes that were ended, each by its own private reply. */
  predicate Ended(tr: Trail) {
    && |tr.matched| <= |tr.restarts|
    && forall k :: 0 <= k < |tr.matched| ==>
         && tr.matched[k] in tr.private && 0 <= tr.matched[k] < |tr.heard|
         && Restores(tr.heard[tr.matched[k]], tr.restarts[k])
  }

  ghost predicate Restored(c: Codec, accepted: seq<Asked>, greeted: nat, tr: Trail) {
    && |tr.matched| == greeted && Ended(tr)
    && (forall k :: 0 <= k < |tr.restarts| ==> Taught(c, accepted, tr, tr.restarts[k]))
    && (forall n {:trigger Secret(tr, n)} :: n in tr.private ==> Secret(tr, n))
  }

  predicate Pending(tr: Trail, privateId: Option<Id>, identity: Option<Identity>) {
    privateId.Some? ==>
      && |tr.restarts| == |tr.matched| + 1
      && tr.restarts[|tr.matched|].id == privateId.value && tr.restarts[|tr.matched|].identity == identity
  }

  // ----- the invariant

  /** What holds even in a state where a handler has raised. */
  ghost predicate Told(c: Codec, h: History) {
    && Shown(c, h.accepted, h.outbox, h.trail)
    && Restored(c, h.accepted, |h.greeted|, h.trail)
    && PrivatelyGreeted(c, h.sent, h.starts, h.trail.restarts)
  }

  ghost predicate Saying(c: Codec, s: State) {
    && Underway(c, s)
    && Pending(s.history.trail, s.privateId, s.identity)
    && (s.identity.Some? ==> Learned(c, s.history.accepted, s.history.trail, s.identity, s.history.trail.lesson))
  }

  ghost predicate Truthful(c: Codec, s: State) {
    Told(c, s.history) && Saying(c, s)
  }

  ghost predicate Honest(c: Codec, o: Outcome) {
    Told(c, o.s.history) && (o.Running? ==> Saying(c, o.s))
  }

  // ----- the history grows

  /** More requests, and more backend lines none of whose predecessors becomes private. */
  predicate Grows(accepted: seq<Asked>, tr: Trail, accepted1: seq<Asked>, tr1: Trail) {
    && accepted <= accepted1 && tr.heard <= tr1.heard
    && (forall n :: 0 <= n < |tr.heard| ==> (n in tr1.private <==> n in tr.private) && (n in tr.private ==> tr1.private[n] == tr.private[n]))
  }

  lemma FromBackendGrows(c: Codec, a: Asked, tr: Trail, tr1: Trail, raw: Bytes)
    requires FromBackend(c, a, tr, raw) && Grows([], tr, [], tr1)
    ensures FromBackend(c, a, tr1, raw)
  {
    var n :| Public(tr, n) && Replies(c, a, tr.heard[n], raw);
    assert Public(tr1, n) && tr1.heard[n] == tr.heard[n];
  }

  lemma LineGrows(c: Codec, accepted: seq<Asked>, tr: Trail, accepted1: seq<Asked>, tr1: Trail, line: Line)
    requires LineOk(c, accepted, tr, line) && Grows(accepted, tr, accepted1, tr1)
    ensures LineOk(c, accepted1, tr1, line)
  {
    match line
    case Answer(t, raw) =>
      if FromBackend(c, accepted[t], tr, raw) { FromBackendGrows(c, accepted[t], tr, tr1, raw); }
    case Pass(raw) =>
      var n :| Public(tr, n) && !tr.heard[n].message.Response? && tr.heard[n].raw == raw;
      assert Public(tr1, n) && tr1.heard[n] == tr.heard[n];
  }

  lemma LearnedGrows(c: Codec, accepted: seq<Asked>, tr: Trail, accepted1: seq<Asked>, tr1: Trail, identity: Option<Identity>, from: Lesson)
    requires Learned(c, accepted, tr, identity, from) && Grows(accepted, tr, accepted1, tr1)
    ensures Learned(c, accepted1, tr1, identity, from)
  {
    assert tr1.heard[from.line] == tr.heard[from.line] && accepted1[from.ticket] == accepted[from.ticket];
  }

  lemma ShownGrows(c: Codec, accepted: seq<Asked>, outbox: seq<Line>, tr: Trail, accepted1: seq<Asked>, tr1: Trail)
    requires Shown(c, accepted, outbox, tr) && Grows(accepted, tr, accepted1, tr1)
    requires forall t :: |accepted| <= t < |accepted1| ==> IsRequest(c, accepted1[t])
    requires forall n :: |tr.heard| <= n < |tr1.heard| ==> Decoded(c, tr1.heard[n])
    requires forall n :: n in tr1.private ==> 0 <= n < |tr1.heard|
    ensures Shown(c, accepted1, outbox, tr1)
  {
    forall i | 0 <= i < |outbox| ensures LineOk(c, accepted1, tr1, outbox[i]) {
      LineGrows(c, accepted, tr, accepted1, tr1, outbox[i]);
    }
  }

  lemma RestoredGrows(c: Codec, accepted: seq<Asked>, greeted: nat, tr: Trail, accepted1: seq<Asked>, tr1: Trail)
    requires Restored(c, accepted, greeted, tr) && Grows(accepted, tr, accepted1, tr1)
    requires tr1.matched == tr.matched && tr1.restarts == tr.restarts
    requires forall n :: n in tr1.private && n !in tr.private ==> Secret(tr1, n)
    ensures Restored(c, accepted1, greeted, tr1)
  {
    forall n | n in tr.private ensures Secret(tr1, n) { assert Secret(tr, n) && tr1.heard[n] == tr.heard[n]; }
    forall k | 0 <= k < |tr.restarts| ensures Taught(c, accepted1, tr1, tr.restarts[k]) {
      LearnedGrows(c, accepted, tr, accepted1, tr1, tr.restarts[k].identity, tr.restarts[k].lesson);
    }
  }

  lemma HeldGrows(c: Codec, accepted: seq<Asked>, open: map<Id, nat>, tr: Trail, closing: Option<Closing>, accepted1: seq<Asked>, tr1: Trail)
    requires HeldOk(c, accepted, open, tr, closing) && Grows(accepted, tr, accepted1, tr1)
    ensures HeldOk(c, accepted1, open, tr1, closing)
  {
    if closing.Some? && closing.value.id in open && closing.value.response.Some? {
      FromBackendGrows(c, accepted[open[closing.value.id]], tr, tr1, closing.value.response.value);
    }
  }

  // ----- a line is queued for the client

  lemma Queued(c: Codec, h: History, line: Line)
    requires Told(c, h) && LineOk(c, h.accepted, h.trail, line)
    ensures Told(c, h.Queue(line))
  {
  }

  /** The books know which request the identity stands for. */
  predicate Known(h: History, id: Id) {
    id in h.open && h.open[id] < |h.accepted| && h.accepted[h.open[id]].id == id
  }

  lemma OwnAnswer(c: Codec, h: History, id: Id, m: Local)
    requires Told(c, h) && Known(h, id) && OwnLine(c, m, id, c.encode(m))
    ensures Told(c, h.Close(id).Queue(Answer(h.Ticket(id), c.encode(m))))
  {
    Queued(c, h.Close(id), Answer(h.Ticket(id), c.encode(m)));
  }

  lemma ErrorAnswer(c: Codec, s: State, id: Id, text: string, code: int)
    requires Told(c, s.history) && Known(s.history, id)
    ensures Told(c, Fail(c, s, id, text, code).s.history)
  {
    OwnAnswer(c, s.history, id, ErrorReply(id, code, text));
  }

  /** Fewer open requests, fewer deferred lines, a held close at most given up: nothing new to account for. */
  predicate Fewer(s: State, s1: State) {
    && s1.history.accepted == s.history.accepted && s1.history.trail == s.history.trail
    && (forall id :: id in s1.history.open ==> id in s.history.open && s1.history.open[id] == s.history.open[id])
    && (forall id :: id in s1.inflight ==> id in s.inflight && s1.inflight[id] == s.inflight[id])
    && (s1.closing.Some? ==> s.closing.Some? && s1.closing.value.(cancelled := false) == s.closing.value.(cancelled := false))
    && (forall f :: f in s1.deferred ==> f in s.deferred)
    && s1.privateId == s.privateId && s1.identity == s.identity
  }

  lemma FewerKeeps(c: Codec, s: State, s1: State)
    requires Saying(c, s) && Fewer(s, s1)
    ensures Saying(c, s1)
  {
    forall i | 0 <= i < |s1.deferred| ensures Decoded(c, s1.deferred[i]) {
      assert s1.deferred[i] in s.deferred;
    }
  }

  lemma SentMore(c: Codec, s: State, x: Sent)
    requires Told(c, s.history)
    ensures Told(c, PutBackend(s, x).history)
  {
    StillGreeted(c, s.history.sent, s.history.starts, s.history.trail.restarts, x);
  }

  lemma StillGreeted(c: Codec, sent: seq<Sent>, starts: seq<nat>, restarts: seq<Saved>, x: Sent)
    requires PrivatelyGreeted(c, sent, starts, restarts)
    ensures PrivatelyGreeted(c, sent + [x], starts, restarts)
  {
    forall k | 0 <= k < |restarts| ensures PrivateAt(c, sent + [x], starts[k + 1], restarts[k]) {
      assert PrivateAt(c, sent, starts[k + 1], restarts[k]);
    }
  }

  /** What the invariant says about the requests a handler may meet. */
  ghost predicate Ready(s: State) {
    && (forall id :: id in s.requests || Unknown(s, id))
    && (forall i, id :: DeferredAt(s.deferred, i, id) ==> Known(s.history, id))
    && (forall id :: id in s.inflight ==> Known(s.history, id) && s.privateId.None?)
    && (s.privateId.Some? ==> s.initialized.Some?)
    && (s.releasing ==> s.requests == map[])
  }

  predicate Unknown(s: State, id: Id) {
    id !in s.history.open && id !in s.inflight && !Holds(s.closing, id)
  }

  lemma InvIsReady(s: State)
    requires Inv(s, Nobody)
    ensures Ready(s)
  {
    if s.releasing { ReleasingHasNothing(s); }
    forall i, id | DeferredAt(s.deferred, i, id) ensures Known(s.history, id) { DeferredIsKnown(s, i, id); }
  }

  // ----- Relay.client

  lemma AcceptTold(c: Codec, h: History, f: Frame, id: Id)
    requires Told(c, h) && Decoded(c, f) && f.message.Request? && f.message.id == id && id !in h.open
    ensures Told(c, h.Accept(id, f.raw)) && Known(h.Accept(id, f.raw), id)
  {
    var a := h.accepted + [Asked(id, f.raw)];
    ShownGrows(c, h.accepted, h.outbox, h.trail, a, h.trail);
    RestoredGrows(c, h.accepted, |h.greeted|, h.trail, a, h.trail);
  }

  lemma AcceptSaying(c: Codec, s: State, id: Id, raw: Bytes)
    requires Saying(c, s) && Unknown(s, id)
    ensures Saying(c, Accept(s, id, raw))
  {
    var h := s.history;
    var a := h.accepted + [Asked(id, raw)];
    HeldGrows(c, h.accepted, h.open, h.trail, s.closing, a, h.trail);
    if s.identity.Some? { LearnedGrows(c, h.accepted, h.trail, a, h.trail, s.identity, h.trail.lesson); }
  }

  /** A request answered on the spot. */
  lemma AtOnce(c: Codec, s: State, f: Frame, id: Id, m: Local)
    requires Truthful(c, s) && Decoded(c, f) && f.message.Request? && f.message.id == id
    requires Unknown(s, id)
    requires !m.PrivateInitialize? && !m.ToolsReply? && m.id == id
    ensures Honest(c, Reply(Accept(s, id, f.raw), id, c.encode(m)))
  {
    AcceptTold(c, s.history, f, id);
    AcceptSaying(c, s, id, f.raw);
    OwnAnswer(c, Accept(s, id, f.raw).history, id, m);
    FewerKeeps(c, Accept(s, id, f.raw), Reply(Accept(s, id, f.raw), id, c.encode(m)).s);
  }

  lemma ReleasedTrail(c: Codec, s: State, f: Frame)
    requires Ready(s) && Truthful(c, s) && Decoded(c, f) && s.releasing
    ensures Honest(c, ClientReleased(c, s, f))
  {
    if f.message.Request? && s.releaseId != Some(f.message.id) {
      assert Unknown(s, f.message.id);
      AtOnce(c, s, f, f.message.id, ErrorReply(f.message.id, -32603, "Browser connection is permanently released; use a fresh thread."));
    }
  }

  lemma SendTrail(c: Codec, s: State, x: Sent)
    requires Truthful(c, s)
    ensures Honest(c, QueueBackend(s, x))
  {
    SentMore(c, s, x);
    FewerKeeps(c, s, PutBackend(s, x));
  }

  lemma CallbackTrail(c: Codec, s: State, f: Frame, ident: Option<Id>)
    requires Truthful(c, s)
    ensures Honest(c, ClientCallback(s, f, ident))
  {
    if ident.Some? && ident.value in s.callbacks {
      FewerKeeps(c, s, s.(callbacks := s.callbacks - {ident.value}));
      SendTrail(c, s.(callbacks := s.callbacks - {ident.value}), Callback(f.raw));
    }
  }

  lemma DeferTrail(c: Codec, s: State, f: Frame)
    requires Truthful(c, s) && Decoded(c, f)
    ensures Truthful(c, Defer(s, f))
  {
    assert DeferredOk(c, s.deferred + [f]);
  }

  lemma PassNoticeTrail(c: Codec, s: State, f: Frame)
    requires Truthful(c, s) && Decoded(c, f)
    ensures Honest(c, PassNotice(s, f))
  {
    if Suspended(s) { DeferTrail(c, s, f); } else { SendTrail(c, s, Notified(f.raw)); }
  }

  lemma WithoutHolds(deferred: seq<Frame>, i: nat)
    requires i < |deferred|
    ensures forall f :: f in Without(deferred, i) ==> f in deferred
  {
  }

  lemma ErrorTrail(c: Codec, s: State, id: Id, text: string, code: int)
    requires Truthful(c, s) && Known(s.history, id)
    ensures Honest(c, Fail(c, s, id, text, code))
  {
    ErrorAnswer(c, s, id, text, code);
    FewerKeeps(c, s, Fail(c, s, id, text, code).s);
  }

  lemma RemoveTrail(c: Codec, s: State, i: nat, id: Id)
    requires Truthful(c, s) && i < |s.deferred| && Known(s.history, id)
    ensures Truthful(c, RemoveDeferred(s, i, id)) && Known(RemoveDeferred(s, i, id).history, id)
  {
    WithoutHolds(s.deferred, i);
    FewerKeeps(c, s, RemoveDeferred(s, i, id));
  }

  lemma DropTrail(c: Codec, s: State, i: nat, id: Id)
    requires Truthful(c, s) && i < |s.deferred| && Known(s.history, id)
    ensures Honest(c, DropDeferred(c, s, i, id))
  {
    RemoveTrail(c, s, i, id);
    ErrorTrail(c, RemoveDeferred(s, i, id), id, "MCP request cancelled before execution.", -32800);
  }

  lemma DeferredIsKnown(s: State, i: nat, id: Id)
    requires Inv(s, Nobody) && DeferredAt(s.deferred, i, id)
    ensures Known(s.history, id) && IsAsked(s.history.accepted, s.history.open[id], s.deferred[i].raw)
  {
  }

  lemma NoticeTrail(c: Codec, s: State, f: Frame, n: Notice)
    requires Ready(s) && Truthful(c, s) && Decoded(c, f)
    ensures Honest(c, ClientNotice(c, s, f, n))
  {
    match n
    case Plain => PassNoticeTrail(c, s, f);
    case Initialized =>
      FewerKeeps(c, s, s.(initialized := Some(f.raw)));
      SendTrail(c, s.(initialized := Some(f.raw)), Notified(f.raw));
    case Cancelled(None) =>
    case Cancelled(Some(id)) => CancelTrail(c, s, f, id);
  }

  lemma CancelTrail(c: Codec, s: State, f: Frame, id: Id)
    requires Ready(s) && Truthful(c, s) && Decoded(c, f)
    ensures Honest(c, ClientNotice(c, s, f, Cancelled(Some(id))))
  {
    var i := FindDeferred(s.deferred, id);
    assert i < |s.deferred| ==> DeferredAt(s.deferred, i, id);
    MarkTrail(c, s, id);
    MarkedTrail(c, MarkClosing(s, id), f, id, i);
    CancelIs(c, s, f, id);
  }

  lemma MarkTrail(c: Codec, s: State, id: Id)
    requires Truthful(c, s)
    ensures var s1 := MarkClosing(s, id); Truthful(c, s1) && s1.history == s.history && s1.deferred == s.deferred
  {
    FewerKeeps(c, s, MarkClosing(s, id));
  }

  lemma CancelIs(c: Codec, s: State, f: Frame, id: Id)
    ensures var s1, i := MarkClosing(s, id), FindDeferred(s.deferred, id);
      s1.deferred == s.deferred &&
      ClientNotice(c, s, f, Cancelled(Some(id))) == if i < |s1.deferred| then DropDeferred(c, s1, i, id) else PassNotice(s1, f)
  {
  }

  lemma MarkedTrail(c: Codec, s: State, f: Frame, id: Id, i: nat)
    requires Truthful(c, s) && Decoded(c, f) && (i < |s.deferred| ==> Known(s.history, id))
    ensures Honest(c, if i < |s.deferred| then DropDeferred(c, s, i, id) else PassNotice(s, f))
  {
    if i < |s.deferred| { DropTrail(c, s, i, id); } else { PassNoticeTrail(c, s, f); }
  }

  lemma ReleaseTrail(c: Codec, s: State, f: Frame, id: Id, wellFormed: bool, w: World)
    requires Ready(s) && Truthful(c, s) && Decoded(c, f) && f.message.Request? && f.message.id == id && id !in s.requests
    ensures Honest(c, ReleaseRequest(c, Accept(s, id, f.raw), id, wellFormed, w))
  {
    assert Unknown(s, id);
    if !wellFormed {
      AtOnce(c, s, f, id, ErrorReply(id, -32602, "browser_release accepts no target or arguments."));
    } else if !Quiescent(Accept(s, id, f.raw), w.unread) {
      AtOnce(c, s, f, id, ErrorReply(id, -32603, "Browser connection is busy; release was not performed."));
    } else {
      PerformTrail(c, s, f, id, w.closes);
    }
  }

  lemma PerformTrail(c: Codec, s: State, f: Frame, id: Id, closes: bool)
    requires Truthful(c, s) && Decoded(c, f) && f.message.Request? && f.message.id == id
    requires Unknown(s, id)
    ensures Honest(c, PerformRelease(c, Releasing(Accept(s, id, f.raw), id), id, closes))
  {
    var s1 := s.(releasing := true, releaseId := Some(id), live := false);
    FewerKeeps(c, s, s1);
    assert Releasing(Accept(s, id, f.raw), id) == Accept(s1, id, f.raw);
    AtOnce(c, s1, f, id, ReleaseReply(id));
    AtOnce(c, s1, f, id, ErrorReply(id, -32603, "Owned browser resources could not be released."));
  }

  /** The request may be forwarded or held: its bytes ask for this call. */
  predicate Askable(c: Codec, h: History, id: Id, call: Call) {
    id in h.open && Asks(c, h.accepted, h.open[id], call)
  }

  lemma ForwardTrail(c: Codec, s: State, id: Id, call: Call, raw: Bytes)
    requires Truthful(c, s) && Askable(c, s.history, id, call)
    ensures Honest(c, Forward(s, id, call, raw))
  {
    var s1 := s.(inflight := s.inflight[id := call]);
    assert Saying(c, s1);
    SendTrail(c, s1, Forwarded(s.history.Ticket(id), raw));
  }

  lemma DispatchTrail(c: Codec, s: State, f: Frame, id: Id, call: Call)
    requires Truthful(c, s) && Askable(c, s.history, id, call) && Decoded(c, f)
    ensures Honest(c, Dispatch(s, f, id, call))
  {
    if s.closing.Some? || Suspended(s) {
      DeferTrail(c, s, f);
    } else if call.Close? {
      assert HeldOk(c, s.history.accepted, s.history.open, s.history.trail, Some(Closing(id, f.raw, None, false)));
    } else {
      var s1 := if call.Initialize? then s.(initialize := call.params) else s;
      FewerKeeps(c, s, s1);
      ForwardTrail(c, s1, id, call, f.raw);
    }
  }

  lemma RequestTrail(c: Codec, s: State, f: Frame, id: Id, call: Call, w: World)
    requires Ready(s) && Truthful(c, s) && Decoded(c, f) && f.message == Request(id, call)
    ensures Honest(c, ClientRequest(c, s, f, id, call, w))
  {
    if id in s.requests {
    } else if call.Release? {
      ReleaseTrail(c, s, f, id, call.wellFormed, w);
    } else {
      assert Unknown(s, id);
      if !s.live && call.Ping? {
        AtOnce(c, s, f, id, PingReply(id));
      } else {
        AcceptTold(c, s.history, f, id);
        AcceptSaying(c, s, id, f.raw);
        var s1 := Admit(s, id, call, f.raw);
        FewerKeeps(c, Accept(s, id, f.raw), s1);
        DispatchTrail(c, s1, f, id, call);
      }
    }
  }

  lemma ClientTrail(c: Codec, s: State, f: Frame, w: World)
    requires Ready(s) && Truthful(c, s) && Decoded(c, f)
    ensures Honest(c, Client(c, s, f, w))
  {
    if s.releasing {
      ReleasedTrail(c, s, f);
    } else {
      match f.message
      case Response(ident, _) => CallbackTrail(c, s, f, ident);
      case Notification(n) => NoticeTrail(c, s, f, n);
      case Request(id, call) => RequestTrail(c, s, f, id, call, w);
    }
  }

  lemma ListenTrail(c: Codec, s: State, f: Frame, w: World)
    requires Ready(s) && Truthful(c, s) && Decoded(c, f)
    ensures Honest(c, Listen(c, s, f, w))
  {
    NoteTold(c, s.history, f);
    TrailSaying(c, s, s.history.Note(f).trail);
    ClientTrail(c, s.(history := s.history.Note(f)), f, w);
  }

  lemma NoteTold(c: Codec, h: History, f: Frame)
    requires Told(c, h)
    ensures Told(c, h.Note(f))
  {
    var tr := h.Note(f).trail;
    ShownGrows(c, h.accepted, h.outbox, h.trail, h.accepted, tr);
    RestoredGrows(c, h.accepted, |h.greeted|, h.trail, h.accepted, tr);
  }

  // ----- Relay.server

  lemma HeardTold(c: Codec, h: History, f: Frame)
    requires Told(c, h) && Decoded(c, f)
    ensures Told(c, h.Hear(f)) && Public(h.Hear(f).trail, |h.trail.heard|)
  {
    var tr := h.Hear(f).trail;
    ShownGrows(c, h.accepted, h.outbox, h.trail, h.accepted, tr);
    RestoredGrows(c, h.accepted, |h.greeted|, h.trail, h.accepted, tr);
  }

  /** Later backend lines, private or not, leave what is on its way as it was. */
  lemma TrailSaying(c: Codec, s: State, tr: Trail)
    requires Saying(c, s) && Grows(s.history.accepted, s.history.trail, s.history.accepted, tr)
    requires tr.matched == s.history.trail.matched && tr.restarts == s.history.trail.restarts && tr.lesson == s.history.trail.lesson
    ensures Saying(c, s.(history := s.history.(trail := tr)))
  {
    var h := s.history;
    HeldGrows(c, h.accepted, h.open, h.trail, s.closing, h.accepted, tr);
    if s.identity.Some? { LearnedGrows(c, h.accepted, h.trail, h.accepted, tr, s.identity, h.trail.lesson); }
  }

  lemma PassTrail(c: Codec, s: State, f: Frame)
    requires Truthful(c, s) && !f.message.Response?
    requires Public(s.history.trail, |s.history.trail.heard| - 1) && s.history.trail.heard[|s.history.trail.heard| - 1] == f
    ensures Honest(c, QueueClient(s, Pass(f.raw)))
  {
    assert Passed(s.history.trail, f.raw);
    Queued(c, s.history, Pass(f.raw));
    FewerKeeps(c, s, PutClient(s, Pass(f.raw)));
  }

  lemma HoldTrail(c: Codec, s: State, raw: Bytes)
    requires Saying(c, s) && s.closing.Some? && Known(s.history, s.closing.value.id)
    requires FromBackend(c, s.history.accepted[s.history.open[s.closing.value.id]], s.history.trail, raw)
    ensures Saying(c, s.(closing := Some(s.closing.value.(response := Some(raw)))))
  {
  }

  lemma RelayedTrail(c: Codec, s: State, id: Id, raw: Bytes)
    requires Truthful(c, s) && Known(s.history, id) && FromBackend(c, s.history.accepted[s.history.open[id]], s.history.trail, raw)
    ensures Honest(c, Reply(s, id, raw))
  {
    Queued(c, s.history.Close(id), Answer(s.history.Ticket(id), raw));
    FewerKeeps(c, s, Reply(s, id, raw).s);
  }

  lemma DeliverTrail(c: Codec, s: State, id: Id, closed: bool, raw: Bytes)
    requires Truthful(c, s) && Known(s.history, id) && FromBackend(c, s.history.accepted[s.history.open[id]], s.history.trail, raw)
    ensures Honest(c, Deliver(s, id, closed, raw))
  {
    if s.closing.Some? && s.closing.value.id == id && closed && !s.closing.value.cancelled {
      HoldTrail(c, s, raw);
    } else {
      var closing := if s.closing.Some? && s.closing.value.id == id then None else s.closing;
      var s1 := s.(closing := closing, requests := s.requests - {id});
      FewerKeeps(c, s, s1);
      RelayedTrail(c, s1, id, raw);
    }
  }

  /** The last line heard is a reply to this request. */
  predicate JustHeard(s: State, id: Id, f: Frame) {
    var tr := s.history.trail;
    Public(tr, |tr.heard| - 1) && tr.heard[|tr.heard| - 1] == f && f.message.Response? && f.message.ident == Some(id)
  }

  lemma TakenTrail(c: Codec, s: State, id: Id, f: Frame)
    requires Truthful(c, s) && Known(s.history, id) && JustHeard(s, id, f) && id in s.inflight
    ensures var s1 := TakeReply(s, id);
      Truthful(c, s1) && Known(s1.history, id) && JustHeard(s1, id, f) && Askable(c, s1.history, id, s.inflight[id])
  {
    TakenAsks(c, s.history.accepted, s.history.open, s.inflight, id);
    TakenTruthful(c, s, id);
  }

  lemma TakenAsks(c: Codec, accepted: seq<Asked>, open: map<Id, nat>, inflight: map<Id, Call>, id: Id)
    requires Calls(c, accepted, open, inflight) && id in inflight && id in open
    ensures Asks(c, accepted, open[id], inflight[id])
  {
  }

  lemma TakenTruthful(c: Codec, s: State, id: Id)
    requires Truthful(c, s)
    ensures Truthful(c, TakeReply(s, id))
  {
    FewerKeeps(c, s, TakeReply(s, id));
  }

  lemma InterpretTrail(c: Codec, s: State, id: Id, call: Call, f: Frame)
    requires Truthful(c, s) && Known(s.history, id) && Askable(c, s.history, id, call) && JustHeard(s, id, f)
    requires s.privateId.None?
    ensures Honest(c, Interpret(c, s, id, call, f.message.body, f.raw))
  {
    var body := f.message.body;
    if call.Initialize? && body.Success? {
      if body.identity.Some? {
        LearnTrail(c, s, id, call, f);
        DeliverTrail(c, s.(identity := body.identity, history := s.history.Learn(id)), id, body.closed, f.raw);
      }
    } else if call.ListTools? && body.Success? {
      if body.inventory.Some? {
        ShownReply(c, s.history, id, call, f, c.encode(ToolsReply(id, body.inventory.value)));
        DeliverTrail(c, s, id, body.closed, c.encode(ToolsReply(id, body.inventory.value)));
      }
    } else {
      ShownReply(c, s.history, id, call, f, f.raw);
      DeliverTrail(c, s, id, body.Success? && body.closed, f.raw);
    }
  }

  lemma ShownReply(c: Codec, h: History, id: Id, call: Call, f: Frame, raw: Bytes)
    requires Known(h, id) && Askable(c, h, id, call) && f.message.Response? && f.message.ident == Some(id)
    requires Public(h.trail, |h.trail.heard| - 1) && h.trail.heard[|h.trail.heard| - 1] == f
    requires call.ListTools? && f.message.body.Success? ==> f.message.body.inventory.Some?
    requires raw == if call.ListTools? && f.message.body.Success? then c.encode(ToolsReply(id, f.message.body.inventory.value)) else f.raw
    ensures FromBackend(c, h.accepted[h.open[id]], h.trail, raw)
  {
    HeardReply(c, h.accepted[h.open[id]], h.trail, f);
  }

  lemma HeardReply(c: Codec, a: Asked, tr: Trail, f: Frame)
    requires Public(tr, |tr.heard| - 1) && tr.heard[|tr.heard| - 1] == f && f.message.Response? && f.message.ident == Some(a.id)
    requires CallOf(c, a.raw) == Some(ListTools) && f.message.body.Success? ==> f.message.body.inventory.Some?
    ensures FromBackend(c, a, tr, ReplyText(c, a, f))
  {
    assert Replies(c, a, tr.heard[|tr.heard| - 1], ReplyText(c, a, f));
  }

  lemma LearnTrail(c: Codec, s: State, id: Id, call: Call, f: Frame)
    requires Truthful(c, s) && Known(s.history, id) && Askable(c, s.history, id, call) && JustHeard(s, id, f)
    requires s.privateId.None? && call.Initialize? && f.message.body.Success? && f.message.body.identity.Some?
    ensures var s1 := s.(identity := f.message.body.identity, history := s.history.Learn(id));
      Truthful(c, s1) && FromBackend(c, s.history.accepted[s.history.open[id]], s1.history.trail, f.raw)
  {
    var h, tr := s.history, s.history.Learn(id).trail;
    assert Teaches(c, h.accepted[h.open[id]], tr.heard[|tr.heard| - 1], f.message.body.identity);
    LearnTold(c, h, tr.lesson);
    HeldGrows(c, h.accepted, h.open, h.trail, s.closing, h.accepted, tr);
    HeardReply(c, h.accepted[h.open[id]], tr, f);
  }

  lemma LearnTold(c: Codec, h: History, lesson: Lesson)
    requires Told(c, h)
    ensures Told(c, h.(trail := h.trail.(lesson := lesson)))
  {
    var tr := h.trail.(lesson := lesson);
    ShownGrows(c, h.accepted, h.outbox, h.trail, h.accepted, tr);
    RestoredGrows(c, h.accepted, |h.greeted|, h.trail, h.accepted, tr);
  }

  lemma ServeTrail(c: Codec, s: State, f: Frame)
    requires Truthful(c, s) && (forall id :: id in s.inflight ==> Known(s.history, id) && s.privateId.None?)
    requires Public(s.history.trail, |s.history.trail.heard| - 1) && s.history.trail.heard[|s.history.trail.heard| - 1] == f
    requires !(f.message.Response? && f.message.ident.Some? && f.message.ident == s.privateId)
    ensures Honest(c, Serve(c, s, f))
  {
    match f.message
    case Notification(_) => PassTrail(c, s, f);
    case Request(id, _) => ServeAskTrail(c, s, f, id);
    case Response(None, _) =>
    case Response(Some(id), _) =>
      assert JustHeard(s, id, f);
      ServeReplyTrail(c, s, id, f);
  }

  lemma ServeAskTrail(c: Codec, s: State, f: Frame, id: Id)
    requires Truthful(c, s) && !f.message.Response?
    requires Public(s.history.trail, |s.history.trail.heard| - 1) && s.history.trail.heard[|s.history.trail.heard| - 1] == f
    ensures Honest(c, QueueClient(s.(callbacks := s.callbacks + {id}), Pass(f.raw)))
  {
    FewerKeeps(c, s, s.(callbacks := s.callbacks + {id}));
    PassTrail(c, s.(callbacks := s.callbacks + {id}), f);
  }

  lemma ServeReplyTrail(c: Codec, s: State, id: Id, f: Frame)
    requires Truthful(c, s) && JustHeard(s, id, f) && s.privateId != Some(id)
    requires id in s.inflight ==> Known(s.history, id) && s.privateId.None?
    ensures Honest(c, ServerReply(c, s, id, f.message.body, f.raw))
  {
    if id in s.inflight {
      TakenTrail(c, s, id, f);
      InterpretTrail(c, TakeReply(s, id), id, s.inflight[id], f);
    }
  }

  lemma ConfidedTold(c: Codec, h: History, f: Frame)
    requires Told(c, h) && Decoded(c, f) && f.message.Response?
    requires h.trail.restarts != [] && f.message.ident == Some(h.trail.restarts[|h.trail.restarts| - 1].id)
    ensures Told(c, h.Hear(f).Confide()) && |h.trail.heard| in h.Hear(f).Confide().trail.private
  {
    var tr := h.Hear(f).Confide().trail;
    ShownGrows(c, h.accepted, h.outbox, h.trail, h.accepted, tr);
    RestoredGrows(c, h.accepted, |h.greeted|, h.trail, h.accepted, tr);
  }

  lemma StillSecret(tr: Trail, tr1: Trail)
    requires tr1.heard == tr.heard && tr1.private == tr.private && tr.restarts <= tr1.restarts
    requires forall n :: n in tr.private ==> Secret(tr, n)
    ensures forall n :: n in tr1.private ==> Secret(tr1, n)
  {
    forall n | n in tr.private ensures Secret(tr1, n) {
      assert Secret(tr, n);
    }
  }

  lemma MatchedRestored(c: Codec, accepted: seq<Asked>, greeted: nat, tr: Trail)
    requires Restored(c, accepted, greeted, tr) && |tr.heard| > 0 && |tr.heard| - 1 in tr.private
    requires |tr.restarts| == |tr.matched| + 1 && Restores(tr.heard[|tr.heard| - 1], tr.restarts[|tr.matched|])
    ensures Restored(c, accepted, greeted + 1, tr.(matched := tr.matched + [|tr.heard| - 1], asOf := tr.asOf + [|tr.said|]))
  {
    var tr1 := tr.(matched := tr.matched + [|tr.heard| - 1], asOf := tr.asOf + [|tr.said|]);
    StillLearned(c, accepted, tr, tr1);
    StillSecret(tr, tr1);
    assert Ended(tr);
    assert Ended(tr1);
  }

  lemma StillLearned(c: Codec, accepted: seq<Asked>, tr: Trail, tr1: Trail)
    requires tr1.heard == tr.heard && tr1.private == tr.private && tr1.restarts == tr.restarts
    requires forall k :: 0 <= k < |tr.restarts| ==> Taught(c, accepted, tr, tr.restarts[k])
    ensures forall k :: 0 <= k < |tr1.restarts| ==> Taught(c, accepted, tr1, tr1.restarts[k])
  {
    forall k | 0 <= k < |tr.restarts| ensures Taught(c, accepted, tr1, tr.restarts[k]) {
      LearnedGrows(c, accepted, tr, accepted, tr1, tr.restarts[k].identity, tr.restarts[k].lesson);
    }
  }

  lemma MatchedTold(c: Codec, h: History, raw: Bytes)
    requires Told(c, h) && |h.trail.heard| > 0 && |h.trail.heard| - 1 in h.trail.private
    requires |h.trail.restarts| == |h.trail.matched| + 1
    requires Restores(h.trail.heard[|h.trail.heard| - 1], h.trail.restarts[|h.trail.matched|])
    ensures var h1 := h.Greet(); Told(c, h1.(sent := h1.sent + [Replay(raw)]))
  {
    ShownGrows(c, h.accepted, h.outbox, h.trail, h.accepted, h.Greet().trail);
    StillGreeted(c, h.sent, h.starts, h.trail.restarts, Replay(raw));
    MatchedRestored(c, h.accepted, |h.greeted|, h.trail);
  }

  /** The private reply is heard, and at most ends its handshake. */
  lemma PrivateTrail(c: Codec, s: State, f: Frame, id: Id)
    requires Truthful(c, s) && Decoded(c, f) && f.message.Response? && f.message.ident == Some(id) && s.privateId == Some(id)
    requires s.initialized.Some?
    ensures Honest(c, PrivateReply(s.(history := s.history.Hear(f)), f.message.body))
  {
    var s1 := s.(history := s.history.Hear(f).Confide());
    ConfideTrail(c, s, f, id);
    ConfidedTrail(c, s1, f, id);
  }

  lemma ConfideTrail(c: Codec, s: State, f: Frame, id: Id)
    requires Truthful(c, s) && Decoded(c, f) && f.message.Response? && f.message.ident == Some(id) && s.privateId == Some(id)
    ensures Truthful(c, s.(history := s.history.Hear(f).Confide()))
  {
    ConfidedTold(c, s.history, f);
    TrailSaying(c, s, s.history.Hear(f).Confide().trail);
  }

  lemma ConfidedTrail(c: Codec, s: State, f: Frame, id: Id)
    requires Truthful(c, s) && s.privateId == Some(id) && s.initialized.Some? && f.message.Response? && f.message.ident == Some(id)
    requires var tr := s.history.trail; |tr.heard| > 0 && tr.heard[|tr.heard| - 1] == f && |tr.heard| - 1 in tr.private
    ensures Honest(c, ConfidedReply(s, f.message.body))
  {
    var body := f.message.body;
    if body.Success? && body.identity.Some? && body.identity == s.identity {
      MatchedTrail(c, s, f, id);
    }
  }

  lemma MatchedTrail(c: Codec, s: State, f: Frame, id: Id)
    requires Truthful(c, s) && s.privateId == Some(id) && s.initialized.Some? && f.message.Response? && f.message.ident == Some(id)
    requires var tr := s.history.trail; |tr.heard| > 0 && tr.heard[|tr.heard| - 1] == f && |tr.heard| - 1 in tr.private
    requires f.message.body.Success? && f.message.body.identity.Some? && f.message.body.identity == s.identity
    ensures Truthful(c, PutBackend(s.(privateId := None, history := s.history.Greet()), Replay(s.initialized.value)))
  {
    MatchedTold(c, s.history, s.initialized.value);
    MatchedSaying(c, s, PutBackend(s.(privateId := None, history := s.history.Greet()), Replay(s.initialized.value)));
  }

  lemma MatchedSaying(c: Codec, s: State, s1: State)
    requires Saying(c, s) && s1.privateId.None? && s1.identity == s.identity
    requires s1.history.accepted == s.history.accepted && s1.history.open == s.history.open
    requires s1.history.trail == s.history.trail.(matched := s1.history.trail.matched, asOf := s1.history.trail.asOf)
    requires s1.inflight == s.inflight && s1.closing == s.closing && s1.deferred == s.deferred
    ensures Saying(c, s1)
  {
    HeldGrows(c, s.history.accepted, s.history.open, s.history.trail, s.closing, s.history.accepted, s1.history.trail);
    if s.identity.Some? { LearnedGrows(c, s.history.accepted, s.history.trail, s.history.accepted, s1.history.trail, s.identity, s.history.trail.lesson); }
  }

  lemma HearTrail(c: Codec, s: State, f: Frame)
    requires Ready(s) && Truthful(c, s) && Decoded(c, f)
    ensures var s1 := s.(history := s.history.Hear(f));
      Ready(s1) && Truthful(c, s1) && Public(s1.history.trail, |s1.history.trail.heard| - 1)
  {
    HeardTold(c, s.history, f);
    TrailSaying(c, s, s.history.Hear(f).trail);
  }

  lemma ServerTrail(c: Codec, s: State, f: Frame)
    requires Ready(s) && Truthful(c, s) && Decoded(c, f)
    ensures Honest(c, Server(c, s, f))
  {
    if f.message.Response? && f.message.ident.Some? && f.message.ident == s.privateId {
      PrivateTrail(c, s, f, f.message.ident.value);
    } else {
      HearTrail(c, s, f);
      ServeTrail(c, s.(history := s.history.Hear(f)), f);
    }
  }

  // ----- Relay.progress

  lemma FinishTrail(c: Codec, s: State, held: Closing, w: World)
    requires Truthful(c, s) && s.closing == Some(held) && Known(s.history, held.id)
    ensures Honest(c, FinishClosing(c, s, held, w))
  {
    if held.response.Some? {
      FinishRepliedTrail(c, s, held, w);
    } else if held.cancelled {
      FinishCancelledTrail(c, s, held.id);
    } else {
      ForwardTrail(c, s, held.id, Close, held.raw);
    }
  }

  lemma EndTrail(c: Codec, s: State, id: Id)
    requires Truthful(c, s)
    ensures Truthful(c, EndClosing(s, id)) && Truthful(c, EndClosing(CloseBackend(s), id))
    ensures Truthful(c, EndClosing(s, id).(history := s.history.Drop(id)))
  {
    FewerKeeps(c, s, EndClosing(s, id));
    FewerKeeps(c, s, EndClosing(CloseBackend(s), id));
    FewerKeeps(c, s, EndClosing(s, id).(history := s.history.Drop(id)));
  }

  lemma FinishRepliedTrail(c: Codec, s: State, held: Closing, w: World)
    requires Truthful(c, s) && s.closing == Some(held) && Known(s.history, held.id) && held.response.Some?
    ensures Honest(c, FinishClosing(c, s, held, w))
  {
    EndTrail(c, s, held.id);
    if held.cancelled {
      RelayedTrail(c, EndClosing(s, held.id), held.id, held.response.value);
    } else if w.closes {
      RelayedTrail(c, EndClosing(CloseBackend(s), held.id), held.id, held.response.value);
    } else {
      ErrorTrail(c, EndClosing(CloseBackend(s), held.id), held.id, "Owned browser resources could not be released.", -32603);
    }
  }

  lemma FinishCancelledTrail(c: Codec, s: State, id: Id)
    requires Truthful(c, s) && Known(s.history, id)
    ensures Honest(c, EndCancelled(c, s, id))
  {
    EndTrail(c, s, id);
    ErrorTrail(c, EndClosing(s, id).(history := s.history.Drop(id)), id, "MCP request cancelled before execution.", -32800);
  }

  lemma RestartTold(c: Codec, h: History, saved: Saved)
    requires Told(c, h) && saved.params.Some? && Taught(c, h.accepted, h.trail, saved)
    ensures var h1 := h.Start(saved);
      Told(c, h1.(sent := h1.sent + [Private(c.encode(PrivateInitialize(saved.id, saved.params.value)))]))
  {
    var x := Private(c.encode(PrivateInitialize(saved.id, saved.params.value)));
    var tr := h.Start(saved).trail;
    ShownGrows(c, h.accepted, h.outbox, h.trail, h.accepted, tr);
    StillGreeted(c, h.sent, h.starts, h.trail.restarts, x);
    forall k | 0 <= k < |tr.restarts| ensures PrivateAt(c, h.sent + [x], (h.starts + [|h.sent|])[k + 1], tr.restarts[k]) {
      assert k < |h.trail.restarts| ==> PrivateAt(c, h.sent + [x], h.starts[k + 1], h.trail.restarts[k]);
    }
    forall k | 0 <= k < |tr.restarts| ensures Taught(c, h.accepted, tr, tr.restarts[k]) {
      LearnedGrows(c, h.accepted, h.trail, h.accepted, tr, tr.restarts[k].identity, tr.restarts[k].lesson);
    }
    StillSecret(h.trail, tr);
  }

  /** No handshake is open and every earlier one was matched. */
  lemma RestartTrail(c: Codec, s: State, w: World)
    requires Truthful(c, s) && |s.history.trail.restarts| == |s.history.trail.matched|
    ensures Honest(c, Restart(c, s, w))
  {
    if s.initialize.Some? && s.identity.Some? && s.initialized.Some? && w.starts {
      var saved := Saved(PrivateIdOf(w), s.initialize, s.identity, s.history.trail.lesson);
      RestartTold(c, s.history, saved);
      RestartSaying(c, s, PrivateIdOf(w));
    }
  }

  lemma RestartSaying(c: Codec, s: State, id: Id)
    requires Saying(c, s) && s.identity.Some? && |s.history.trail.restarts| == |s.history.trail.matched|
    ensures Saying(c, NextGeneration(s, id))
  {
    var h, tr := s.history, NextGeneration(s, id).history.trail;
    HeldGrows(c, h.accepted, h.open, h.trail, s.closing, h.accepted, tr);
    LearnedGrows(c, h.accepted, h.trail, h.accepted, tr, s.identity, h.trail.lesson);
  }

  lemma UndeferTrail(c: Codec, s: State)
    requires Truthful(c, s) && s.deferred != []
    ensures Truthful(c, Undefer(s))
  {
    FewerKeeps(c, s, Undefer(s));
  }

  /** A deferred request comes back under the ticket it has. */
  lemma ReadmitTrail(c: Codec, s: State, f: Frame, id: Id, call: Call, w: World)
    requires Truthful(c, s) && Decoded(c, f) && f.message == Request(id, call) && !call.Release? && s.live
    requires id !in s.requests && id in s.history.open && IsAsked(s.history.accepted, s.history.open[id], f.raw)
    ensures Honest(c, ClientRequest(c, s, f, id, call, w))
  {
    var s1 := Admit(s, id, call, f.raw);
    assert s1.history == s.history;
    FewerKeeps(c, s, s1);
    DispatchTrail(c, s1, f, id, call);
  }

  lemma DrainOneTrail(c: Codec, s: State, w: World)
    requires Inv(s, Nobody) && Truthful(c, s) && Drainable(s) && s.deferred != []
    ensures Honest(c, Client(c, Undefer(s), s.deferred[0], w))
  {
    var f, s1 := s.deferred[0], Undefer(s);
    UndeferTrail(c, s);
    match f.message
    case Request(id, call) =>
      assert !IsRelease(f.message);
      UndeferKeeps(s, call);
      ReadmitTrail(c, s1, f, id, call, w);
    case Response(ident, _) => CallbackTrail(c, s1, f, ident);
    case Notification(n) =>
      UndeferNoticeKeeps(s);
      InvIsReady(s1);
      NoticeTrail(c, s1, f, n);
  }

  lemma {:induction false} DrainTrail(c: Codec, s: State, w: World)
    requires Inv(s, Nobody) && Truthful(c, s) && Drainable(s)
    ensures Honest(c, Drain(c, s, w))
    decreases |s.deferred|
  {
    if s.deferred != [] && s.closing.None? {
      DrainShrinks(c, s, w);
      DrainOneGood(c, s, w);
      DrainOneTrail(c, s, w);
      var o := Client(c, Undefer(s), s.deferred[0], w);
      if o.Running? { DrainTrail(c, o.s, w); }
    }
  }

  lemma AllMatched(c: Codec, s: State)
    requires Inv(s, Nobody) && Told(c, s.history) && s.privateId.None?
    ensures |s.history.trail.restarts| == |s.history.trail.matched|
  {
  }

  lemma ResumeTrail(c: Codec, s: State, w: World)
    requires Inv(s, Nobody) && Truthful(c, s)
    ensures NoRelease(s.deferred) && Honest(c, Resume(c, s, w))
  {
    if s.releasing || s.closing.Some? || s.privateId.Some? || s.deferred == [] {
    } else if s.live {
      DrainTrail(c, s, w);
    } else {
      AllMatched(c, s);
      RestartTrail(c, s, w);
    }
  }

  lemma HeldIsKnown(s: State)
    requires Inv(s, Nobody) && s.closing.Some?
    ensures Known(s.history, s.closing.value.id)
  {
  }

  lemma ProgressTrail(c: Codec, s: State, w: World)
    requires Inv(s, Nobody) && Truthful(c, s)
    ensures NoRelease(s.deferred) && Honest(c, Progress(c, s, w))
  {
    if s.releasing {
    } else if s.closing.Some? && Drained(s) {
      var held := s.closing.value;
      HeldIsKnown(s);
      FinishTrail(c, s, held, w);
      FinishClosingGood(c, s, held, w);
      var o := FinishClosing(c, s, held, w);
      if o.Running? { ResumeTrail(c, o.s, w); }
    } else {
      ResumeTrail(c, s, w);
    }
  }
}
