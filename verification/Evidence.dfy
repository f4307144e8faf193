/** Test evidence logs: their schema, and the counts and verdict that `summarize` derives from them. */
module Evidence {
  import opened Common

  datatype Outcome = Passed | Failed | TimedOut | Skipped | Cancelled | NotRun

  datatype Terminal = SessionPassed | SessionFailed | SessionTimedOut | SessionCancelled | CollectionError | SessionError

  datatype Meta = Meta(schema: int, sourceSha: Option<string>, runId: int, runAttempt: int,
                       lane: string, project: string, shard: int)

  /** One attempt at a test. */
  datatype Try = Try(test: string, source: string, line: int, attempt: int, outcome: Outcome, skip: bool,
                     setup: real, execution: real, teardown: real)

  /** One line of a log. `Junk` is a line without exactly the typed fields and vocabulary of a known kind. */
  datatype Record =
    | Start(meta: Meta, planned: Option<int>)
    | Plan(meta: Meta, test: string)
    | Attempt(meta: Meta, run: Try)
    | End(meta: Meta, session: Terminal, wall: real)
    | Junk

  predicate MetaValid(m: Meta) {
    && m.schema == 1 && (m.sourceSha.Some? ==> Hex(m.sourceSha.value, 40))
    && Whole(m.runId) && Whole(m.runAttempt) && Whole(m.shard)
    && m.lane in {"node", "python", "postgres", "browser"}
    && (if m.lane == "browser" then m.project in {"desktop-chromium", "android-chromium"} && m.shard <= 6
        else m.project == "none" && m.shard == 0)
  }

  predicate TryValid(t: Try) {
    && Hex(t.test, 64) && Hex(t.source, 64) && Whole(t.line) && Whole(t.attempt)
    && t.skip == t.outcome.Skipped? && Number(t.setup) && Number(t.execution) && Number(t.teardown)
  }

  predicate Valid(r: Record) {
    && !r.Junk? && MetaValid(r.meta)
    && match r
       case Start(_, planned) => planned.Some? ==> Whole(planned.value)
       case Plan(_, test) => Hex(test, 64)
       case Attempt(_, run) => TryValid(run)
       case End(_, _, wall) => Number(wall)
  }

  // ----- parts of a log

  function Starts(log: seq<Record>): seq<Record> {
    if log == [] then [] else Starts(log[..|log| - 1]) + if log[|log| - 1].Start? then [log[|log| - 1]] else []
  }

  function Ends(log: seq<Record>): seq<Record> {
    if log == [] then [] else Ends(log[..|log| - 1]) + if log[|log| - 1].End? then [log[|log| - 1]] else []
  }

  function Plans(log: seq<Record>): seq<string> {
    if log == [] then [] else Plans(log[..|log| - 1]) + if log[|log| - 1].Plan? then [log[|log| - 1].test] else []
  }

  function Attempts(log: seq<Record>): seq<Try> {
    if log == [] then [] else Attempts(log[..|log| - 1]) + if log[|log| - 1].Attempt? then [log[|log| - 1].run] else []
  }

  predicate Distinct(tests: seq<string>) {
    forall i, j :: 0 <= i < j < |tests| ==> tests[i] != tests[j]
  }

  function Elements(tests: seq<string>): set<string> {
    set t | t in tests
  }

  function Tests(attempts: seq<Try>): set<string> {
    set i | 0 <= i < |attempts| :: attempts[i].test
  }

  /** The outcomes of one test's attempts, in order. */
  function Group(attempts: seq<Try>, test: string): seq<Outcome> {
    if attempts == [] then []
    else
      var last := attempts[|attempts| - 1];
      Group(attempts[..|attempts| - 1], test) + if last.test == test then [last.outcome] else []
  }

  /** Every attempt is numbered by the attempts of its test before it. */
  predicate Numbered(attempts: seq<Try>) {
    forall i :: 0 <= i < |attempts| ==> attempts[i].attempt == |Group(attempts[..i], attempts[i].test)|
  }

  predicate SameMeta(log: seq<Record>, m: Meta) {
    forall i :: 0 <= i < |log| ==> Valid(log[i]) && log[i].meta == m
  }

  /** The logs that `summarize` does not reject. */
  predicate Accepts(log: seq<Record>) {
    && log != [] && !log[0].Junk? && SameMeta(log, log[0].meta)
    && |Starts(log)| == 1 && |Ends(log)| <= 1
    && Distinct(Plans(log))
    && Tests(Attempts(log)) <= Elements(Plans(log))
    && Numbered(Attempts(log))
  }

  // ----- counts

  /** The counters kept per test, by what the test's attempts must satisfy. */
  datatype Counter = Observed | Eligible | FirstPass | FirstFail | Recovered

  predicate Counts(c: Counter, g: seq<Outcome>) {
    g != [] &&
    match c
    case Observed => true
    case Eligible => !g[0].Skipped? && !g[0].NotRun? && !g[0].Cancelled?
    case FirstPass => g[0].Passed?
    case FirstFail => g[0].Failed? || g[0].TimedOut?
    case Recovered => (g[0].Failed? || g[0].TimedOut?) && g[|g| - 1].Passed?
  }

  function Selected(attempts: seq<Try>, c: Counter): set<string>
  {
    set t | t in Tests(attempts) && Counts(c, Group(attempts, t))
  }

  function OutcomeCount(attempts: seq<Try>, o: Outcome): nat
  {
    if attempts == [] then 0
    else OutcomeCount(attempts[..|attempts| - 1], o) + if attempts[|attempts| - 1].outcome == o then 1 else 0
  }

  function Missing(log: seq<Record>): set<string> {
    Elements(Plans(log)) - Tests(Attempts(log))
  }

  /** Individual results do not establish that their session completed. */
  predicate Complete(log: seq<Record>) {
    && Plans(log) != [] && Ends(log) != []
    && (Ends(log)[0].End? && Ends(log)[0].session in {SessionPassed, SessionFailed})
    && Missing(log) == {}
    && OutcomeCount(Attempts(log), Cancelled) == 0 && OutcomeCount(Attempts(log), NotRun) == 0
    && (Starts(log) != [] && Starts(log)[0].Start? && Starts(log)[0].planned.Some? ==>
          Starts(log)[0].planned.value == |Plans(log)|)
  }

  function SessionOutcome(log: seq<Record>): Option<Terminal> {
    if Ends(log) != [] && Ends(log)[0].End? then Some(Ends(log)[0].session) else None
  }

  function SessionWall(log: seq<Record>): Option<real> {
    if Ends(log) != [] && Ends(log)[0].End? then Some(Ends(log)[0].wall) else None
  }

  /** A test is observed when it has an attempt. */
  lemma ObservedAreTests(attempts: seq<Try>)
    ensures Selected(attempts, Observed) == Tests(attempts)
  {
    forall t | t in Tests(attempts) ensures Group(attempts, t) != [] { GroupIsEmpty(attempts, t); }
  }

  // ----- concatenation

  lemma {:induction false} EdgesOfAppend(a: seq<Record>, b: seq<Record>)
    ensures Starts(a + b) == Starts(a) + Starts(b) && Ends(a + b) == Ends(a) + Ends(b)
    decreases |b|
  {
    if b == [] {
      assert a + b == a;
    } else {
      var n := |b| - 1;
      EdgesOfAppend(a, b[..n]);
      assert (a + b)[..|a + b| - 1] == a + b[..n];
      assert (a + b)[|a + b| - 1] == b[n];
    }
  }

  lemma {:induction false} PlansOfAppend(a: seq<Record>, b: seq<Record>)
    ensures Plans(a + b) == Plans(a) + Plans(b)
    decreases |b|
  {
    if b == [] {
      assert a + b == a;
    } else {
      var n := |b| - 1;
      PlansOfAppend(a, b[..n]);
      assert (a + b)[..|a + b| - 1] == a + b[..n];
      assert (a + b)[|a + b| - 1] == b[n];
    }
  }

  lemma {:induction false} TriesOfAppend(a: seq<Record>, b: seq<Record>)
    ensures Attempts(a + b) == Attempts(a) + Attempts(b)
    decreases |b|
  {
    if b == [] {
      assert a + b == a;
    } else {
      var n := |b| - 1;
      TriesOfAppend(a, b[..n]);
      assert (a + b)[..|a + b| - 1] == a + b[..n];
      assert (a + b)[|a + b| - 1] == b[n];
    }
  }

  lemma PartsOfAppend(a: seq<Record>, b: seq<Record>)
    ensures Starts(a + b) == Starts(a) + Starts(b) && Ends(a + b) == Ends(a) + Ends(b)
    ensures Plans(a + b) == Plans(a) + Plans(b) && Attempts(a + b) == Attempts(a) + Attempts(b)
  {
    EdgesOfAppend(a, b);
    PlansOfAppend(a, b);
    TriesOfAppend(a, b);
  }

  function PlanRecords(m: Meta, tests: seq<string>): seq<Record> {
    seq(|tests|, i requires 0 <= i < |tests| => Plan(m, tests[i]))
  }

  function AttemptRecords(m: Meta, attempts: seq<Try>): seq<Record> {
    seq(|attempts|, i requires 0 <= i < |attempts| => Attempt(m, attempts[i]))
  }

  lemma {:induction false} PartsOfPlans(m: Meta, tests: seq<string>)
    ensures var log := PlanRecords(m, tests);
            Plans(log) == tests && Attempts(log) == [] && Starts(log) == [] && Ends(log) == []
    decreases |tests|
  {
    if tests != [] {
      var n := |tests| - 1;
      PartsOfPlans(m, tests[..n]);
      assert PlanRecords(m, tests)[..n] == PlanRecords(m, tests[..n]);
      assert tests == tests[..n] + [tests[n]];
    }
  }

  lemma {:induction false} PartsOfAttempts(m: Meta, attempts: seq<Try>)
    ensures var log := AttemptRecords(m, attempts);
            Attempts(log) == attempts && Plans(log) == [] && Starts(log) == [] && Ends(log) == []
    decreases |attempts|
  {
    if attempts != [] {
      var n := |attempts| - 1;
      PartsOfAttempts(m, attempts[..n]);
      assert AttemptRecords(m, attempts)[..n] == AttemptRecords(m, attempts[..n]);
      assert attempts == attempts[..n] + [attempts[n]];
    }
  }

  lemma {:induction false} GroupOfAppend(a: seq<Try>, b: seq<Try>, test: string)
    ensures Group(a + b, test) == Group(a, test) + Group(b, test)
    decreases |b|
  {
    if b == [] {
      assert a + b == a;
    } else {
      var n := |b| - 1;
      GroupOfAppend(a, b[..n], test);
      assert (a + b)[..|a + b| - 1] == a + b[..n];
    }
  }

  lemma {:induction false} OutcomesOfAppend(a: seq<Try>, b: seq<Try>, o: Outcome)
    ensures OutcomeCount(a + b, o) == OutcomeCount(a, o) + OutcomeCount(b, o)
    decreases |b|
  {
    if b == [] {
      assert a + b == a;
    } else {
      var n := |b| - 1;
      OutcomesOfAppend(a, b[..n], o);
      assert (a + b)[..|a + b| - 1] == a + b[..n];
    }
  }

  lemma {:induction false} GroupIsEmpty(attempts: seq<Try>, test: string)
    ensures Group(attempts, test) == [] <==> test !in Tests(attempts)
    decreases |attempts|
  {
    if attempts != [] {
      var n := |attempts| - 1;
      GroupIsEmpty(attempts[..n], test);
      assert Tests(attempts) == Tests(attempts[..n]) + {attempts[n].test};
    }
  }

  // ----- a log in its usual order

  function Shape(m: Meta, planned: Option<int>, tests: seq<string>, attempts: seq<Try>, session: Terminal, wall: real): seq<Record> {
    [Start(m, planned)] + PlanRecords(m, tests) + AttemptRecords(m, attempts) + [End(m, session, wall)]
  }

  lemma ShapeParts(m: Meta, planned: Option<int>, tests: seq<string>, attempts: seq<Try>, session: Terminal, wall: real)
    ensures var log := Shape(m, planned, tests, attempts, session, wall);
      && Starts(log) == [Start(m, planned)] && Ends(log) == [End(m, session, wall)]
      && Plans(log) == tests && Attempts(log) == attempts
  {
    var start, end := Start(m, planned), End(m, session, wall);
    var plans, tries := PlanRecords(m, tests), AttemptRecords(m, attempts);
    PartsOfPlans(m, tests);
    PartsOfAttempts(m, attempts);
    PartsOfOne(start);
    PartsOfOne(end);
    PartsOfFour([start], plans, tries, [end]);
    Padded(Starts([start]), Ends([end]), tests, attempts);
  }

  lemma Padded(starts: seq<Record>, ends: seq<Record>, tests: seq<string>, attempts: seq<Try>)
    ensures starts + [] + [] + [] == starts && [] + [] + [] + ends == ends
    ensures [] + tests + [] + [] == tests && [] + [] + attempts + [] == attempts
  {
  }

  lemma PartsOfFour(a: seq<Record>, b: seq<Record>, c: seq<Record>, d: seq<Record>)
    ensures Starts(a + b + c + d) == Starts(a) + Starts(b) + Starts(c) + Starts(d)
    ensures Ends(a + b + c + d) == Ends(a) + Ends(b) + Ends(c) + Ends(d)
    ensures Plans(a + b + c + d) == Plans(a) + Plans(b) + Plans(c) + Plans(d)
    ensures Attempts(a + b + c + d) == Attempts(a) + Attempts(b) + Attempts(c) + Attempts(d)
  {
    PartsOfAppend(a, b);
    PartsOfAppend(a + b, c);
    PartsOfAppend(a + b + c, d);
  }

  lemma PartsOfOne(r: Record)
    ensures Starts([r]) == (if r.Start? then [r] else []) && Ends([r]) == (if r.End? then [r] else [])
    ensures Plans([r]) == (if r.Plan? then [r.test] else []) && Attempts([r]) == (if r.Attempt? then [r.run] else [])
  {
    assert [r][..0] == [];
  }

  predicate ValidParts(m: Meta, planned: Option<int>, tests: seq<string>, attempts: seq<Try>, wall: real) {
    && MetaValid(m) && (planned.Some? ==> Whole(planned.value)) && Number(wall)
    && (forall i :: 0 <= i < |tests| ==> Hex(tests[i], 64))
    && (forall i :: 0 <= i < |attempts| ==> TryValid(attempts[i]))
  }

  lemma ShapeIsValid(m: Meta, planned: Option<int>, tests: seq<string>, attempts: seq<Try>, session: Terminal, wall: real)
    ensures SameMeta(Shape(m, planned, tests, attempts, session, wall), m) <==> ValidParts(m, planned, tests, attempts, wall)
  {
    var log := Shape(m, planned, tests, attempts, session, wall);
    var p, a := |tests|, |attempts|;
    assert log[0] == Start(m, planned) && log[1 + p + a] == End(m, session, wall);
    assert forall i :: 0 <= i < p ==> log[1 + i] == Plan(m, tests[i]);
    assert forall i :: 0 <= i < a ==> log[1 + p + i] == Attempt(m, attempts[i]);
    if ValidParts(m, planned, tests, attempts, wall) {
      forall k | 0 <= k < |log| ensures Valid(log[k]) && log[k].meta == m {
        if 1 <= k <= p { assert log[k] == Plan(m, tests[k - 1]); }
        if 1 + p <= k <= p + a { assert log[k] == Attempt(m, attempts[k - 1 - p]); }
      }
    }
    if SameMeta(log, m) {
      forall i | 0 <= i < p ensures Hex(tests[i], 64) { assert Valid(log[1 + i]); }
      forall i | 0 <= i < a ensures TryValid(attempts[i]) { assert Valid(log[1 + p + i]); }
      assert Valid(log[0]) && Valid(log[1 + p + a]);
    }
  }

  /** Exactly when a log in its usual order is accepted. */
  lemma ShapeAccepts(m: Meta, planned: Option<int>, tests: seq<string>, attempts: seq<Try>, session: Terminal, wall: real)
    ensures Accepts(Shape(m, planned, tests, attempts, session, wall)) <==>
      && ValidParts(m, planned, tests, attempts, wall)
      && Distinct(tests) && Tests(attempts) <= Elements(tests) && Numbered(attempts)
  {
    ShapeParts(m, planned, tests, attempts, session, wall);
    ShapeIsValid(m, planned, tests, attempts, session, wall);
  }
}
