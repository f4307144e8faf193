/** A run that overfills the relay: 257 requests that no backend answers. */
module RelayWitness {
  import opened Common
  import opened Mcp
  import opened Frames
  import opened RelayModel
  import opened RelayInvariants
  import opened RelaySteps
  import opened RelayHandlers
  import opened RelayRuns

  /** Lines of different lengths are requests of different identities. */
  function Unary(): Codec {
    Codec((raw: Bytes) => Some(Request(IntId(|raw|), Other)), (m: Local) => [])
  }

  function LineOf(k: nat): Bytes {
    seq(k, _ => 1 as Byte) + [NEWLINE]
  }

  function FrameOf(k: nat): Frame {
    Frame(Request(IntId(k + 1), Other), LineOf(k))
  }

  const NOTHING: World := World(false, false, false, "")

  /** The client sends the requests from number n on, one line at a time. */
  function Flood(n: nat): seq<Event>
    decreases 257 - n
  {
    if n > 256 then [] else [ReadClient(LineOf(n)), TakeClient(NOTHING)] + Flood(n + 1)
  }

  /** The first n requests are pending and forwarded, and nothing else has happened. */
  predicate Filled(s: State, n: nat) {
    && |s.requests| == n && (forall id :: id in s.requests ==> id.IntId? && id.n <= n)
    && s.callbacks == {} && s.deferred == [] && s.closing.None? && s.privateId.None? && s.live && !s.releasing
    && s.toClient == [] && s.clientBuffer == [] && s.backendBuffer == [] && |s.toBackend| <= 300 * n
  }

  lemma LineIsTaken(n: nat)
    requires n <= 256
    ensures TakeLine(Unary().decode, LineOf(n)) == Taken(FrameOf(n), [])
  {
    TakeFramedLine(Unary().decode, FrameOf(n), []);
    assert LineOf(n) + [] == LineOf(n);
  }

  /** Within the budget one more request is admitted and forwarded. */
  lemma OneMore(s: State, n: nat)
    requires Filled(s, n) && n < MAX_PENDING_REQUESTS
    ensures var o := Listen(Unary(), s, FrameOf(n), NOTHING); o.Running? && Filled(o.s, n + 1) && WithinBudget(o.s)
  {
    var id := IntId(n + 1);
    var s1 := Admit(s.(history := s.history.Note(FrameOf(n))), id, Other, LineOf(n));
    GrownMap(s.requests, id, Other);
    assert WithinBudget(s1);
    var s2 := Forward(s1, id, Other, LineOf(n)).s;
    assert Filled(s2, n + 1);
    assert WithinBudget(s2);
  }

  lemma ReadAndTake(s: State, n: nat, rest: seq<Event>)
    requires Filled(s, n) && n <= 256
    ensures var c := Unary(); var o := Handle(c, s, true, FrameOf(n), NOTHING);
      Run(c, s, [ReadClient(LineOf(n)), TakeClient(NOTHING)] + rest) == if o.Raised? then o else Run(c, o.s, rest)
  {
    var c := Unary();
    var events := [ReadClient(LineOf(n)), TakeClient(NOTHING)] + rest;
    var s1 := s.(clientBuffer := LineOf(n));
    assert [] + LineOf(n) == LineOf(n);
    assert Step(c, s, events[0]) == Running(s1);
    RunUnfolds(c, s, events);
    assert events[1..] == [TakeClient(NOTHING)] + rest;
    RunUnfolds(c, s1, events[1..]);
    assert events[1..][1..] == rest;
    LineIsTaken(n);
    assert s1.(clientBuffer := []) == s;
  }

  /** Requests 1 to 256 fill the relay; the 257th raises, and the failure branch leaves requests unanswered. */
  lemma {:induction false} FloodOverfills(s: State, n: nat)
    requires Filled(s, n) && Inv(s, Nobody) && n <= 256
    ensures var o := Run(Unary(), s, Flood(n));
      o.Raised? && forall order :: ListsPending(o.s, order) ==> !AllAnswered(FailAll(Unary(), o.s, order).s)
    decreases 257 - n
  {
    var c, f := Unary(), FrameOf(n);
    ReadAndTake(s, n, Flood(n + 1));
    if n < 256 {
      OneMore(s, n);
      ListenGood(c, s, f, NOTHING);
      FloodOverfills(Listen(c, s, f, NOTHING).s, n + 1);
    } else {
      LastOne(s);
    }
  }

  lemma LastOne(s: State)
    requires Filled(s, 256) && Inv(s, Nobody)
    ensures var o := Handle(Unary(), s, true, FrameOf(256), NOTHING);
      o.Raised? && forall order :: ListsPending(o.s, order) ==> !AllAnswered(FailAll(Unary(), o.s, order).s)
  {
    var c, f, s1 := Unary(), FrameOf(256), s.(history := s.history.Note(FrameOf(256)));
    TrailKeeps(s, Nobody, s1.history.trail);
    assert s1.requests != map[] && f.message.id !in s1.requests;
    OverfullRaises(s1, f, f.message.id);
    var o := Client(c, s1, f, NOTHING);
    assert o.Raised?;
    forall order | ListsPending(o.s, order) ensures !AllAnswered(FailAll(c, o.s, order).s) {
      OverfullRelayLeavesRequestsUnanswered(c, s1, f, NOTHING, order);
    }
  }

  /** Such a run exists. */
  lemma SomeRunLeavesRequestsUnanswered()
    ensures var o := Run(Unary(), Init(), Flood(0));
      o.Raised? && forall order :: ListsPending(o.s, order) ==> !AllAnswered(FailAll(Unary(), o.s, order).s)
  {
    InitGood();
    FloodOverfills(Init(), 0);
  }
}
