/** In every run of the relay: who said each line that the client is shown, and how handshakes are restored. */
module RelayAccounts {
  import opened Common
  import opened Mcp
  import opened Frames
  import opened RelayModel
  import opened RelayInvariants
  import opened RelaySteps
  import opened RelayHandlers
  import opened RelayRuns
  import opened RelayTrail
  import opened RelayMemory

  // ----- every run

  lemma TakeTrail(c: Codec, s: State, fromClient: bool, w: World)
    requires Inv(s, Nobody) && Truthful(c, s)
    ensures Honest(c, Take(c, s, fromClient, w))
  {
    var next := TakeLine(c.decode, if fromClient then s.clientBuffer else s.backendBuffer);
    if !next.Incomplete? {
      var s1 := if fromClient then s.(clientBuffer := next.rest) else s.(backendBuffer := next.rest);
      FewerKeeps(c, s, s1);
      if next.Taken? {
        BuffersKeep(s, next.rest, next.rest);
        InvIsReady(s1);
        HandleTrail(c, s1, fromClient, next.frame, w);
      }
    }
  }

  lemma HandleTrail(c: Codec, s: State, fromClient: bool, f: Frame, w: World)
    requires Ready(s) && Truthful(c, s) && Decoded(c, f)
    ensures Honest(c, Handle(c, s, fromClient, f, w))
  {
    if fromClient { ListenTrail(c, s, f, w); } else { ServerTrail(c, s, f); }
  }

  lemma StepTrail(c: Codec, s: State, e: Event)
    requires Inv(s, Nobody) && Truthful(c, s) && Enabled(s, e)
    ensures Honest(c, Step(c, s, e))
  {
    match e
    case TakeClient(w) => TakeTrail(c, s, true, w);
    case TakeBackend => TakeTrail(c, s, false, World(false, false, false, ""));
    case Work(w) => ProgressTrail(c, s, w);
    case _ => WireTrail(c, s, e);
  }

  lemma WireTrail(c: Codec, s: State, e: Event)
    requires Truthful(c, s) && Enabled(s, e) && !e.TakeClient? && !e.TakeBackend? && !e.Work?
    ensures Honest(c, Step(c, s, e))
  {
    FewerKeeps(c, s, Step(c, s, e).s);
  }

  lemma {:induction false} RunTrail(c: Codec, s: State, events: seq<Event>)
    requires Inv(s, Nobody) && Truthful(c, s)
    ensures Honest(c, Run(c, s, events))
    decreases |events|
  {
    if events != [] && Enabled(s, events[0]) {
      StepGood(c, s, events[0]);
      StepTrail(c, s, events[0]);
      var o := Step(c, s, events[0]);
      if o.Running? { RunTrail(c, o.s, events[1..]); }
    }
  }

  lemma InitIsTruthful(c: Codec)
    ensures Inv(Init(), Nobody) && Truthful(c, Init()) && Mindful(c, Init())
  {
    InitGood();
  }

  lemma EveryRunIsHonest(c: Codec, events: seq<Event>)
    ensures Honest(c, Run(c, Init(), events))
  {
    InitIsTruthful(c);
    RunTrail(c, Init(), events);
  }

  lemma StepMindful(c: Codec, s: State, e: Event)
    requires Inv(s, Nobody) && Mindful(c, s) && Enabled(s, e)
    ensures Mindful(c, Step(c, s, e).s)
  {
    match e
    case TakeClient(w) => TakeMindful(c, s, true, w);
    case TakeBackend => TakeMindful(c, s, false, World(false, false, false, ""));
    case Work(w) => ProgressMindful(c, s, w);
    case _ => QuietKeeps(c, s, Step(c, s, e).s);
  }

  lemma TakeMindful(c: Codec, s: State, fromClient: bool, w: World)
    requires Inv(s, Nobody) && Mindful(c, s)
    ensures Mindful(c, Take(c, s, fromClient, w).s)
  {
    InvIsReady(s);
    var next := TakeLine(c.decode, if fromClient then s.clientBuffer else s.backendBuffer);
    if !next.Incomplete? {
      var s1 := if fromClient then s.(clientBuffer := next.rest) else s.(backendBuffer := next.rest);
      QuietKeeps(c, s, s1);
      if next.Taken? { HandleMindful(c, s1, fromClient, next.frame, w); }
    }
  }

  lemma HandleMindful(c: Codec, s: State, fromClient: bool, f: Frame, w: World)
    requires Mindful(c, s) && Decoded(c, f) && (s.privateId.Some? ==> s.initialized.Some? && !s.releasing)
    ensures Mindful(c, Handle(c, s, fromClient, f, w).s)
  {
    if fromClient { ListenMindful(c, s, f, w); } else { ServerMindful(c, s, f); }
  }

  lemma {:induction false} RunMindful(c: Codec, s: State, events: seq<Event>)
    requires Inv(s, Nobody) && Mindful(c, s)
    ensures Mindful(c, Run(c, s, events).s)
    decreases |events|
  {
    if events != [] && Enabled(s, events[0]) {
      StepGood(c, s, events[0]);
      StepMindful(c, s, events[0]);
      var o := Step(c, s, events[0]);
      if o.Running? { RunMindful(c, o.s, events[1..]); }
    }
  }

  lemma EveryRunIsMindful(c: Codec, events: seq<Event>)
    ensures Mindful(c, Run(c, Init(), events).s)
  {
    InitGood();
    RunMindful(c, Init(), events);
  }

  // ----- who said what

  /**
   In every run, raised or not, each line queued for the client is one of three: the relay's own answer, made out
   to the identity of the very request it answers; the reply of a backend to that request, with the backend's bytes
   or, for a tool list, the backend's list with the release tool; or a notification or request of a backend's,
   byte for byte. None of them is the reply to a private initialize.
   */
  lemma EveryLineIsAccountedFor(c: Codec, events: seq<Event>, i: nat)
    requires i < |Run(c, Init(), events).s.history.outbox|
    ensures var h := Run(c, Init(), events).s.history; var line, tr := h.outbox[i], h.trail;
      && (line.Answer? ==>
            && line.ticket < |h.accepted| && IsRequest(c, h.accepted[line.ticket])
            && (Own(c, h.accepted[line.ticket].id, line.raw) ||
                exists n :: 0 <= n < |tr.heard| && n !in tr.private && c.decode(tr.heard[n].raw) == Some(tr.heard[n].message)
                            && Replies(c, h.accepted[line.ticket], tr.heard[n], line.raw)))
      && (line.Pass? ==>
            exists n :: 0 <= n < |tr.heard| && n !in tr.private && c.decode(line.raw) == Some(tr.heard[n].message)
                        && !tr.heard[n].message.Response?)
      && (forall n :: n in tr.private ==> Secret(tr, n))
  {
    EveryRunIsHonest(c, events);
    var h := Run(c, Init(), events).s.history;
    LineSource(c, h.accepted, h.outbox, h.trail, i);
  }

  lemma LineSource(c: Codec, accepted: seq<Asked>, outbox: seq<Line>, tr: Trail, i: nat)
    requires Shown(c, accepted, outbox, tr) && i < |outbox|
    ensures outbox[i].Answer? ==>
              && outbox[i].ticket < |accepted| && IsRequest(c, accepted[outbox[i].ticket])
              && (Own(c, accepted[outbox[i].ticket].id, outbox[i].raw) ||
                  exists n :: 0 <= n < |tr.heard| && n !in tr.private && c.decode(tr.heard[n].raw) == Some(tr.heard[n].message)
                              && Replies(c, accepted[outbox[i].ticket], tr.heard[n], outbox[i].raw))
    ensures outbox[i].Pass? ==>
              exists n :: 0 <= n < |tr.heard| && n !in tr.private && c.decode(outbox[i].raw) == Some(tr.heard[n].message)
                          && !tr.heard[n].message.Response?
  {
    assert LineOk(c, accepted, tr, outbox[i]);
    match outbox[i]
    case Answer(t, raw) =>
      assert IsRequest(c, accepted[t]);
      if FromBackend(c, accepted[t], tr, raw) {
        var n :| Public(tr, n) && Replies(c, accepted[t], tr.heard[n], raw);
        assert Decoded(c, tr.heard[n]);
      }
    case Pass(raw) =>
      var n :| Public(tr, n) && !tr.heard[n].message.Response? && tr.heard[n].raw == raw;
      assert Decoded(c, tr.heard[n]);
  }

  /** The failure branch adds only answers of the relay's own, each made out to the request it answers. */
  lemma {:induction false} FailureTrail(c: Codec, s: State, order: seq<Id>)
    requires Ledger(s.history.accepted, s.history.open, Answers(s.history.outbox)) && ListsPending(s, order) && Told(c, s.history)
    ensures Told(c, FailAll(c, s, order).s.history)
    decreases |order|
  {
    if order != [] {
      var s1 := FailOne(c, s, order[0]);
      assert Known(s.history, order[0]);
      ErrorAnswer(c, s, order[0], "Browser transport failed; the request was not replayed.", -32603);
      FailAllUnfolds(c, s, order);
      FailOneFacts(c, s, order);
      FailOneLedger(s.history, order[0], FailureText(c, order[0]));
      if WithinBudget(s1) { FailureTrail(c, s1, order[1..]); }
    }
  }

  // ----- restored handshakes

  /** Line i is the last initialize request of the client's among the first n, and asks with these parameters. */
  ghost predicate LastAsked(c: Codec, sent: seq<Sent>, n: nat, i: nat, params: Value) {
    && i < n <= |sent| && sent[i].Forwarded?
    && IsInitialize(c, sent[i]) && c.decode(sent[i].raw).value.call == Initialize(Some(params))
    && (forall j :: i < j < n ==> !IsInitialize(c, sent[j]))
  }

  /** Line i is the last `initialized` notification among the first n lines of the client's. */
  predicate LastGreeting(said: seq<Frame>, n: nat, i: nat) {
    && i < n <= |said| && said[i].message == Notification(Initialized)
    && forall j :: i < j < n ==> said[j].message != Notification(Initialized)
  }

  ghost predicate RestartedAsAsked(c: Codec, sent: seq<Sent>, n: nat, saved: Saved) {
    saved.params.Some? && exists i: nat :: LastAsked(c, sent, n, i, saved.params.value)
  }

  ghost predicate GreetedAsSaid(sent: seq<Sent>, greeting: nat, said: seq<Frame>, n: nat) {
    greeting < |sent| && exists i: nat :: LastGreeting(said, n, i) && sent[greeting] == Replay(said[i].raw)
  }

  /**
   In every run: a generation is restarted, under a private identity, with the parameters of the last initialize
   request of the client's that had been sent to a backend by then; it is greeted only upon a reply to that private
   identity carrying the identity that was saved at the restart, and then with the client's last `initialized` line,
   byte for byte; and what was saved had been given by a backend in reply to the client's own initialize.
   */
  lemma HandshakesAreRestored(c: Codec, events: seq<Event>)
    ensures var h := Run(c, Init(), events).s.history; var tr := h.trail;
      && |h.starts| == |tr.restarts| + 1 && |h.greeted| == |tr.matched| == |tr.asOf| <= |tr.restarts|
      && (forall k :: 0 <= k < |tr.restarts| ==>
            && PrivateAt(c, h.sent, h.starts[k + 1], tr.restarts[k]) && Taught(c, h.accepted, tr, tr.restarts[k])
            && RestartedAsAsked(c, h.sent, h.starts[k + 1], tr.restarts[k]))
      && (forall k :: 0 <= k < |tr.matched| ==>
            && tr.matched[k] in tr.private && 0 <= tr.matched[k] < |tr.heard| && Restores(tr.heard[tr.matched[k]], tr.restarts[k])
            && GreetedAsSaid(h.sent, h.greeted[k], tr.said, tr.asOf[k]))
  {
    EveryRunIsHonest(c, events);
    EveryRunIsMindful(c, events);
    KeptIsSaid(c, Run(c, Init(), events).s.history);
  }

  lemma KeptIsSaid(c: Codec, h: History)
    requires Kept(c, h) && PrivatelyGreeted(c, h.sent, h.starts, h.trail.restarts)
    ensures forall k :: 0 <= k < |h.trail.restarts| ==> RestartedAsAsked(c, h.sent, h.starts[k + 1], h.trail.restarts[k])
    ensures forall k :: 0 <= k < |h.greeted| ==> GreetedAsSaid(h.sent, h.greeted[k], h.trail.said, h.trail.asOf[k])
  {
    forall k | 0 <= k < |h.trail.restarts| ensures RestartedAsAsked(c, h.sent, h.starts[k + 1], h.trail.restarts[k]) {
      assert PrivateAt(c, h.sent, h.starts[k + 1], h.trail.restarts[k]) && RestartAt(c, h.sent, h.starts[k + 1], h.trail.restarts[k]);
      AskedLast(c, h.sent, h.starts[k + 1], h.trail.restarts[k].params.value);
    }
    forall k | 0 <= k < |h.greeted| ensures GreetedAsSaid(h.sent, h.greeted[k], h.trail.said, h.trail.asOf[k]) {
      assert ReplayAt(h.sent, h.greeted[k], h.trail.said, h.trail.asOf[k]);
      GreetedLast(h.trail.said, h.trail.asOf[k]);
    }
  }

  lemma AskedLast(c: Codec, sent: seq<Sent>, n: nat, params: Value)
    requires n <= |sent| && LastInitialize(c, sent[..n]) == Some(params)
    ensures exists i: nat :: LastAsked(c, sent, n, i, params)
  {
    LastInitializeIs(c, sent[..n]);
    var i :| 0 <= i < n && IsInitialize(c, sent[..n][i]) && CallOf(c, sent[..n][i].raw).value.params == Some(params)
             && forall j :: i < j < n ==> !IsInitialize(c, sent[..n][j]);
    assert sent[..n][i] == sent[i];
    assert forall j :: i < j < n ==> sent[..n][j] == sent[j];
    assert LastAsked(c, sent, n, i, params);
  }

  lemma GreetedLast(said: seq<Frame>, n: nat)
    requires n <= |said| && LastInitialized(said[..n]).Some?
    ensures exists i: nat :: LastGreeting(said, n, i) && said[i].raw == LastInitialized(said[..n]).value
  {
    LastInitializedIs(said[..n]);
    var i :| 0 <= i < n && IsInitialized(said[..n][i]) && said[..n][i].raw == LastInitialized(said[..n]).value
             && forall j :: i < j < n ==> !IsInitialized(said[..n][j]);
    assert forall j :: i < j < n ==> said[j] == said[..n][j];
    assert LastGreeting(said, n, i);
  }

  /**
   In every run, when the reply to the open private initialize is handled, nothing is queued for the client and no
   request changes; the handshake ends exactly when the reply carries the identity saved at the restart.
   */
  lemma PrivateReplyStaysPrivate(c: Codec, events: seq<Event>, f: Frame, id: Id)
    requires Run(c, Init(), events).Running? && Run(c, Init(), events).s.privateId == Some(id)
    requires f.message.Response? && f.message.ident == Some(id)
    ensures var s := Run(c, Init(), events).s; var tr, o := s.history.trail, Server(c, s, f);
      && |tr.restarts| == |tr.matched| + 1 && s.initialized.Some?
      && o.s.history.outbox == s.history.outbox && o.s.toClient == s.toClient && o.s.requests == s.requests
      && o.s.history.trail.private == tr.private[|tr.heard| := |tr.matched|]
      && (o.s.privateId.None? <==> Restores(f, tr.restarts[|tr.matched|]))
      && (o.s.privateId.None? ==> o.s.history.sent == s.history.sent + [Replay(s.initialized.value)])
      && (o.s.privateId.Some? ==> o.Raised?)
  {
    EveryRunIsGood(c, events);
    EveryRunIsHonest(c, events);
    var s := Run(c, Init(), events).s;
    HandshakeIsOpen(c, s, id);
    PrivateShape(c, s, f, id);
  }

  lemma HandshakeIsOpen(c: Codec, s: State, id: Id)
    requires Inv(s, Nobody) && Truthful(c, s) && s.privateId == Some(id)
    ensures s.initialized.Some? && s.identity.Some?
    ensures var tr := s.history.trail;
      |tr.restarts| == |tr.matched| + 1 && tr.restarts[|tr.matched|].id == id && tr.restarts[|tr.matched|].identity == s.identity
  {
  }

  lemma PrivateShape(c: Codec, s: State, f: Frame, id: Id)
    requires s.privateId == Some(id) && f.message.Response? && f.message.ident == Some(id) && s.initialized.Some? && s.identity.Some?
    ensures var o := Server(c, s, f); var h := s.history.Hear(f).Confide();
      if f.message.body.Success? && f.message.body.identity == s.identity then
        o.s == PutBackend(s.(privateId := None, history := h.Greet()), Replay(s.initialized.value))
      else o == Raised(s.(history := h))
  {
  }

  // ----- the protocol itself

  /**
   With JSON lines read as JSON-RPC envelopes: a backend's answer to a tool list reaches the client with exactly the
   backend's tools followed by the release tool, which the backend did not offer itself, or as the backend's error.
   */
  lemma ToolListsNameTheReleaseTool(parse: Bytes -> Option<Value>, encode: Local -> Bytes, events: seq<Event>, i: nat)
    requires var c := Protocol(parse, encode); var h := Run(c, Init(), events).s.history;
      && i < |h.outbox| && h.outbox[i].Answer? && h.outbox[i].ticket < |h.accepted|
      && CallOf(c, h.accepted[h.outbox[i].ticket].raw) == Some(ListTools)
      && !Own(c, h.accepted[h.outbox[i].ticket].id, h.outbox[i].raw)
    ensures var c := Protocol(parse, encode); var h := Run(c, Init(), events).s.history;
      exists n :: 0 <= n < |h.trail.heard| &&
        ShowsTools(parse, encode, h.accepted[h.outbox[i].ticket].id, h.trail.heard[n].raw, h.outbox[i].raw)
  {
    var c := Protocol(parse, encode);
    var h := Run(c, Init(), events).s.history;
    EveryLineIsAccountedFor(c, events, i);
    var a, tr, raw := h.accepted[h.outbox[i].ticket], h.trail, h.outbox[i].raw;
    var n :| 0 <= n < |tr.heard| && n !in tr.private && c.decode(tr.heard[n].raw) == Some(tr.heard[n].message)
             && Replies(c, a, tr.heard[n], raw);
    ProtocolReply(parse, encode, a, tr.heard[n], raw);
  }

  /** The shown line is the backend's error, or its tool list with the release tool appended. */
  predicate ShowsTools(parse: Bytes -> Option<Value>, encode: Local -> Bytes, id: Id, heard: Bytes, shown: Bytes) {
    parse(heard).Some? &&
    var v := parse(heard).value;
    || (Field(v, "error").Some? && shown == heard)
    || (Field(v, "result").Some? && Inventory(Field(v, "result").value).Some?
        && shown == encode(ToolsReply(id, Inventory(Field(v, "result").value).value)))
  }

  lemma ProtocolReply(parse: Bytes -> Option<Value>, encode: Local -> Bytes, a: Asked, f: Frame, raw: Bytes)
    requires var c := Protocol(parse, encode);
      c.decode(f.raw) == Some(f.message) && Replies(c, a, f, raw) && CallOf(c, a.raw) == Some(ListTools)
    ensures ShowsTools(parse, encode, a.id, f.raw, raw)
  {
    var v := parse(f.raw);
    assert v.Some? && Envelope(v.value) == Some(f.message);
    assert Field(v.value, "method").None?;
  }
}
