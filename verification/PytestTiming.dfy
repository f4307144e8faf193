/** The pytest plugin that writes the evidence logs, hook by hook. */
module PytestTiming {
  import opened Common
  import opened Evidence

  // ----- what the plugin sees

  datatype Report = Report(failed: bool, skipped: bool, duration: real)

  /** The reports of one test, by phase; pytest's "call" is the execution phase. */
  datatype Reports = Reports(setup: Option<Report>, execution: Option<Report>, teardown: Option<Report>)

  datatype When = Setup | Call | Teardown

  datatype Item = Item(node: string, source: string, line: int)

  predicate FailedIn(r: Option<Report>) {
    r.Some? && r.value.failed
  }

  predicate SkippedIn(r: Option<Report>) {
    r.Some? && r.value.skipped
  }

  predicate AnyFailed(r: Reports) {
    FailedIn(r.setup) || FailedIn(r.execution) || FailedIn(r.teardown)
  }

  predicate AnySkipped(r: Reports) {
    SkippedIn(r.setup) || SkippedIn(r.execution) || SkippedIn(r.teardown)
  }

  function OutcomeOf(r: Reports, missing: Option<Outcome>): Outcome {
    if missing.Some? then missing.value
    else if AnyFailed(r) then Failed
    else if AnySkipped(r) then Skipped
    else if r.execution.Some? then Passed
    else NotRun
  }

  function Duration(r: Option<Report>): real {
    if r.Some? then r.value.duration else 0.0
  }

  function SessionOf(collectionFailed: bool, interrupted: bool, exit: int): Terminal {
    if collectionFailed then CollectionError
    else if interrupted then SessionCancelled
    else if exit == 0 then SessionPassed
    else if exit == 1 then SessionFailed
    else if exit == 2 then SessionCancelled
    else SessionError
  }

  /** Which outcome a session has, for every way it can end. */
  lemma SessionOutcomeExactly(collectionFailed: bool, interrupted: bool, exit: int)
    ensures var outcome := SessionOf(collectionFailed, interrupted, exit); var stopped := collectionFailed || interrupted;
      && (outcome == CollectionError <==> collectionFailed)
      && (outcome == SessionCancelled <==> !collectionFailed && (interrupted || exit == 2))
      && (outcome == SessionPassed <==> !stopped && exit == 0)
      && (outcome == SessionFailed <==> !stopped && exit == 1)
      && (outcome == SessionError <==> !stopped && exit !in {0, 1, 2})
  {
  }

  /** The metadata of a run. Run numbers of up to twenty digits are taken as they are. */
  function MetaOf(sha: string, runId: string, runAttempt: string, lane: string): Meta {
    Meta(1, if Hex(sha, 40) then Some(sha) else None, Numeric(runId, 20), Numeric(runAttempt, 20), lane, "none", 0)
  }

  // ----- the logs it produces

  /** Identifiers are digests: 64 hexadecimal digits. */
  ghost predicate Digest(hash: string -> string) {
    forall s :: Hex(hash(s), 64)
  }

  /** No two of the names have the same digest. */
  ghost predicate Separates(hash: string -> string, names: seq<string>) {
    forall s, t :: s in names && t in names && hash(s) == hash(t) ==> s == t
  }

  function Hashes(hash: string -> string, nodes: seq<string>): seq<string> {
    seq(|nodes|, i requires 0 <= i < |nodes| => hash(nodes[i]))
  }

  /** The attempts are first attempts, at the given tests in order. */
  predicate FirstAttempts(hash: string -> string, nodes: seq<string>, attempts: seq<Try>) {
    && |attempts| == |nodes|
    && forall i :: 0 <= i < |nodes| ==> attempts[i].test == hash(nodes[i]) && attempts[i].attempt == 0
                                        && attempts[i].skip == attempts[i].outcome.Skipped? && Hex(attempts[i].source, 64)
  }

  lemma HashesAreDistinct(hash: string -> string, nodes: seq<string>)
    ensures Distinct(Hashes(hash, nodes)) ==> Separates(hash, nodes) && Distinct(nodes)
    ensures Separates(hash, nodes) && Distinct(nodes) ==> Distinct(Hashes(hash, nodes))
  {
    var h := Hashes(hash, nodes);
    if Distinct(h) {
      forall i, j | 0 <= i < j < |nodes| ensures nodes[i] != nodes[j] { assert h[i] != h[j]; }
      forall s, t | s in nodes && t in nodes && hash(s) == hash(t) ensures s == t {
        var i :| 0 <= i < |nodes| && nodes[i] == s;
        var j :| 0 <= j < |nodes| && nodes[j] == t;
        assert h[i] == h[j];
      }
    }
    if Separates(hash, nodes) && Distinct(nodes) {
      forall i, j | 0 <= i < j < |h| ensures h[i] != h[j] { assert nodes[i] != nodes[j]; }
    }
  }

  /** No test is attempted twice. */
  predicate OnePerTest(attempts: seq<Try>) {
    forall i, j :: 0 <= i < j < |attempts| ==> attempts[i].test != attempts[j].test
  }

  lemma FirstAttemptsOnce(hash: string -> string, nodes: seq<string>, attempts: seq<Try>)
    requires FirstAttempts(hash, nodes, attempts)
    ensures OnePerTest(attempts) <==> Distinct(Hashes(hash, nodes))
  {
    var h := Hashes(hash, nodes);
    assert forall i :: 0 <= i < |attempts| ==> attempts[i].test == h[i];
  }

  lemma {:induction false} OneAttemptGroup(attempts: seq<Try>, test: string)
    requires OnePerTest(attempts)
    ensures |Group(attempts, test)| == if test in Tests(attempts) then 1 else 0
    decreases |attempts|
  {
    if attempts != [] {
      var n := |attempts| - 1;
      OneAttemptGroup(attempts[..n], test);
      GroupIsEmpty(attempts, test);
      assert attempts[n].test !in Tests(attempts[..n]);
    }
  }

  /** First attempts are properly numbered exactly when no test has two of them. */
  lemma FirstAttemptsNumbered(hash: string -> string, nodes: seq<string>, attempts: seq<Try>)
    requires FirstAttempts(hash, nodes, attempts)
    ensures Numbered(attempts) <==> OnePerTest(attempts)
  {
    if OnePerTest(attempts) {
      forall i | 0 <= i < |attempts| ensures attempts[i].attempt == |Group(attempts[..i], attempts[i].test)| {
        GroupIsEmpty(attempts[..i], attempts[i].test);
        assert attempts[i].test !in Tests(attempts[..i]);
      }
    }
    if Numbered(attempts) {
      forall i, j | 0 <= i < j < |attempts| ensures attempts[i].test != attempts[j].test {
        GroupIsEmpty(attempts[..j], attempts[j].test);
        assert attempts[..j][i].test in Tests(attempts[..j]);
      }
    }
  }

  lemma FirstAttemptsTests(hash: string -> string, nodes: seq<string>, attempts: seq<Try>)
    requires FirstAttempts(hash, nodes, attempts)
    ensures Tests(attempts) == Elements(Hashes(hash, nodes))
  {
    var h := Hashes(hash, nodes);
    forall t | t in Elements(h) ensures t in Tests(attempts) {
      var i :| 0 <= i < |h| && h[i] == t;
      assert attempts[i].test == t;
    }
    forall t | t in Tests(attempts) ensures t in Elements(h) {
      var i :| 0 <= i < |attempts| && attempts[i].test == t;
      assert h[i] == t;
    }
  }

  /** Every number the log carries is within the limit of the public schema. */
  predicate InRange(m: Meta, items: seq<string>, attempts: seq<Try>, wall: real) {
    && Whole(m.runId) && Whole(m.runAttempt) && |items| <= LIMIT && Number(wall)
    && forall i :: 0 <= i < |attempts| ==>
         Whole(attempts[i].line) && Number(attempts[i].setup) && Number(attempts[i].execution) && Number(attempts[i].teardown)
  }

  predicate ProducedMeta(m: Meta) {
    && m.schema == 1 && (m.sourceSha.Some? ==> Hex(m.sourceSha.value, 40)) && m.lane in {"python", "postgres"}
    && m.project == "none" && m.shard == 0
  }

  function ProducedLog(hash: string -> string, m: Meta, items: seq<string>, attempts: seq<Try>, session: Terminal, wall: real): seq<Record> {
    Shape(m, Some(|items|), Hashes(hash, items), attempts, session, wall)
  }

  /** `emitted` lists every collected test, in the order in which the attempts were written. */
  ghost predicate Produced(hash: string -> string, m: Meta, items: seq<string>, emitted: seq<string>, attempts: seq<Try>) {
    && Digest(hash) && ProducedMeta(m) && Distinct(items) && Elements(items) <= Elements(emitted)
    && FirstAttempts(hash, emitted, attempts)
  }

  /** No test was torn down twice, and none that was not collected. */
  predicate Orderly(items: seq<string>, emitted: seq<string>) {
    Distinct(emitted) && Elements(emitted) <= Elements(items)
  }

  /**
   A produced log is accepted exactly when no two collected names share a digest, the session was orderly
   and the numbers are within the limit.
   */
  lemma ProducedIsAccepted(hash: string -> string, m: Meta, items: seq<string>, emitted: seq<string>,
                           attempts: seq<Try>, session: Terminal, wall: real)
    requires Produced(hash, m, items, emitted, attempts)
    ensures Accepts(ProducedLog(hash, m, items, attempts, session, wall)) <==>
            Separates(hash, items) && Orderly(items, emitted) && InRange(m, items, attempts, wall)
  {
    FirstAttemptsTests(hash, emitted, attempts);
    FirstAttemptsOnce(hash, emitted, attempts);
    FirstAttemptsNumbered(hash, emitted, attempts);
    DigestsAreOrderly(hash, items, emitted);
    ShapeAccepts(m, Some(|items|), Hashes(hash, items), attempts, session, wall);
    ProducedParts(hash, m, items, emitted, attempts, wall);
  }

  /** What the reader can check on digests is what holds of the names. */
  lemma DigestsAreOrderly(hash: string -> string, items: seq<string>, emitted: seq<string>)
    requires Distinct(items) && Elements(items) <= Elements(emitted)
    ensures (&& Distinct(Hashes(hash, items)) && Distinct(Hashes(hash, emitted))
             && Elements(Hashes(hash, emitted)) <= Elements(Hashes(hash, items))) <==>
            Separates(hash, items) && Orderly(items, emitted)
  {
    HashesAreDistinct(hash, items);
    HashesAreDistinct(hash, emitted);
    ElementsAreMembers(items);
    ElementsAreMembers(emitted);
    if Separates(hash, items) && Orderly(items, emitted) {
      HashesStay(hash, emitted, items);
    }
    if Separates(hash, emitted) && Elements(Hashes(hash, emitted)) <= Elements(Hashes(hash, items)) {
      forall s | s in Elements(emitted) ensures s in Elements(items) { DigestIsCollected(hash, items, emitted, s); }
    }
  }

  lemma ElementsAreMembers(names: seq<string>)
    ensures forall s :: s in Elements(names) <==> s in names
  {
  }

  lemma DigestIsCollected(hash: string -> string, items: seq<string>, emitted: seq<string>, s: string)
    requires Separates(hash, emitted) && Elements(items) <= Elements(emitted) && s in emitted
    requires Elements(Hashes(hash, emitted)) <= Elements(Hashes(hash, items))
    ensures s in items
  {
    var k :| 0 <= k < |emitted| && emitted[k] == s;
    assert Hashes(hash, emitted)[k] in Elements(Hashes(hash, emitted));
    assert hash(s) in Elements(Hashes(hash, items));
    var i :| 0 <= i < |items| && hash(items[i]) == hash(s);
    assert items[i] in Elements(items);
    assert items[i] in emitted;
  }

  lemma ProducedParts(hash: string -> string, m: Meta, items: seq<string>, emitted: seq<string>, attempts: seq<Try>, wall: real)
    requires Digest(hash) && ProducedMeta(m) && FirstAttempts(hash, emitted, attempts)
    ensures ValidParts(m, Some(|items|), Hashes(hash, items), attempts, wall) <==> InRange(m, items, attempts, wall)
  {
    if ValidParts(m, Some(|items|), Hashes(hash, items), attempts, wall) {
      forall i | 0 <= i < |attempts|
        ensures Whole(attempts[i].line) && Number(attempts[i].setup) && Number(attempts[i].execution) && Number(attempts[i].teardown)
      {
        assert TryValid(attempts[i]);
      }
    }
    if InRange(m, items, attempts, wall) {
      forall i | 0 <= i < |attempts| ensures TryValid(attempts[i]) {
        assert attempts[i].test == hash(emitted[i]);
      }
    }
  }

  lemma HashesStay(hash: string -> string, a: seq<string>, b: seq<string>)
    requires Elements(a) <= Elements(b)
    ensures Elements(Hashes(hash, a)) <= Elements(Hashes(hash, b))
  {
    forall t | t in Elements(Hashes(hash, a)) ensures t in Elements(Hashes(hash, b)) {
      var i :| 0 <= i < |a| && hash(a[i]) == t;
      assert a[i] in Elements(b);
      var j :| 0 <= j < |b| && b[j] == a[i];
      assert Hashes(hash, b)[j] == t;
    }
  }

  /**
   In a produced log no planned test is missing, after an orderly session without a collision each has exactly one attempt, and the log
   is complete exactly when something was collected, the session passed or failed, and no test was cancelled or not run.
   */
  lemma ProducedIsComplete(hash: string -> string, m: Meta, items: seq<string>, emitted: seq<string>,
                           attempts: seq<Try>, session: Terminal, wall: real)
    requires Produced(hash, m, items, emitted, attempts)
    ensures var log := ProducedLog(hash, m, items, attempts, session, wall);
      && Plans(log) == Hashes(hash, items) && Attempts(log) == attempts && Missing(log) == {}
      && (Separates(hash, items) && Orderly(items, emitted) ==> forall t :: t in Elements(Plans(log)) ==> |Group(attempts, t)| == 1)
      && (Complete(log) <==>
            && items != [] && session in {SessionPassed, SessionFailed}
            && forall i :: 0 <= i < |attempts| ==> !attempts[i].outcome.Cancelled? && !attempts[i].outcome.NotRun?)
  {
    ShapeParts(m, Some(|items|), Hashes(hash, items), attempts, session, wall);
    FirstAttemptsTests(hash, emitted, attempts);
    HashesStay(hash, items, emitted);
    if Separates(hash, items) && Orderly(items, emitted) {
      DigestsAreOrderly(hash, items, emitted);
      FirstAttemptsOnce(hash, emitted, attempts);
      forall t | t in Elements(Hashes(hash, items)) ensures |Group(attempts, t)| == 1 {
        OneAttemptGroup(attempts, t);
      }
    }
    NoneOf(attempts, Cancelled);
    NoneOf(attempts, NotRun);
  }

  lemma {:induction false} NoneOf(attempts: seq<Try>, o: Outcome)
    ensures OutcomeCount(attempts, o) == 0 <==> forall i :: 0 <= i < |attempts| ==> attempts[i].outcome != o
    decreases |attempts|
  {
    if attempts != [] {
      var n := |attempts| - 1;
      NoneOf(attempts[..n], o);
      assert attempts == attempts[..n] + [attempts[n]];
    }
  }

  /** The producer admits run numbers that the schema does not: the log of such a run is always rejected. */
  lemma LongRunNumbersAreRejected(hash: string -> string, sha: string, runId: string, runAttempt: string, lane: string,
                                  items: seq<string>, emitted: seq<string>, attempts: seq<Try>, session: Terminal, wall: real)
    requires Digits(runId) && 1 <= |runId| <= 20 && runId[0] != '0' && TooLong(runId)
    requires Produced(hash, MetaOf(sha, runId, runAttempt, lane), items, emitted, attempts)
    ensures !Accepts(ProducedLog(hash, MetaOf(sha, runId, runAttempt, lane), items, attempts, session, wall))
  {
    TooLongExactly(runId);
    ProducedIsAccepted(hash, MetaOf(sha, runId, runAttempt, lane), items, emitted, attempts, session, wall);
  }

  /** More than sixteen digits, or sixteen that are not a one and fifteen zeros. */
  predicate TooLong(s: string) {
    |s| > 16 || (|s| == 16 && !OneAndZeros(s))
  }

  predicate OneAndZeros(s: string) {
    |s| > 0 && s[0] == '1' && forall i :: 1 <= i < |s| ==> s[i] == '0'
  }

  lemma TooLongExactly(s: string)
    requires Digits(s) && s != "" && s[0] != '0'
    ensures DecimalValue(s) > LIMIT <==> TooLong(s)
  {
    DecimalLowerBound(s);
    DecimalBound(s);
    Power10Of15();
    if |s| > 16 {
      Power10Grows(16, |s| - 1);
    } else if |s| < 16 {
      Power10Grows(|s|, 15);
    }
  }

  lemma {:induction false} DecimalLowerBound(s: string)
    requires Digits(s) && s != "" && s[0] != '0'
    ensures DecimalValue(s) >= Power10(|s| - 1)
    ensures DecimalValue(s) == Power10(|s| - 1) <==> OneAndZeros(s)
    decreases |s|
  {
    var n := |s| - 1;
    if n > 0 {
      DecimalLowerBound(s[..n]);
      assert OneAndZeros(s) <==> OneAndZeros(s[..n]) && s[n] == '0';
    } else {
      assert s[..0] == "";
    }
  }

  // ----- the plugin

  /** Keep the first occurrence of every name, as a dictionary's keys do. */
  function Dedup(nodes: seq<string>): seq<string> {
    if nodes == [] then []
    else
      var n := |nodes| - 1;
      var d := Dedup(nodes[..n]);
      if nodes[n] in d then d else d + [nodes[n]]
  }

  lemma {:induction false} DedupKeeps(nodes: seq<string>)
    ensures Distinct(Dedup(nodes)) && Elements(Dedup(nodes)) == Elements(nodes)
    decreases |nodes|
  {
    if nodes != [] {
      var n := |nodes| - 1;
      var d := Dedup(nodes[..n]);
      DedupKeeps(nodes[..n]);
      ElementsOfLast(nodes[..n], nodes[n]);
      assert nodes == nodes[..n] + [nodes[n]];
      assert nodes[n] in d <==> nodes[n] in Elements(d);
      ElementsOfLast(d, nodes[n]);
    }
  }

  lemma ElementsOfLast(s: seq<string>, x: string)
    ensures Elements(s + [x]) == Elements(s) + {x}
  {
    assert forall y :: y in s + [x] <==> y in s || y == x;
  }

  function Nodes(found: seq<Item>): seq<string> {
    seq(|found|, i requires 0 <= i < |found| => found[i].node)
  }

  /** Where each collected test was found; the last item of a name counts. */
  function Placed(found: seq<Item>): map<string, Item> {
    if found == [] then map[]
    else
      var n := |found| - 1;
      Placed(found[..n])[found[n].node := found[n]]
  }

  function PlaceOf(places: map<string, Item>, node: string): Item {
    if node in places then places[node] else Item(node, "unknown", 0)
  }

  function ReportsOf(phases: map<string, Reports>, node: string): Reports {
    if node in phases then phases[node] else Reports(None, None, None)
  }

  function WithReport(r: Reports, when: When, report: Report): Reports {
    match when
    case Setup => r.(setup := Some(report))
    case Call => r.(execution := Some(report))
    case Teardown => r.(teardown := Some(report))
  }

  /** The names not yet done, in order. */
  function Unfinished(names: seq<string>, done: set<string>): seq<string> {
    if names == [] then []
    else
      var n := |names| - 1;
      Unfinished(names[..n], done) + if names[n] in done then [] else [names[n]]
  }

  function FirstTry(hash: string -> string, place: Item, node: string, outcome: Outcome, r: Reports): Try {
    Try(hash(node), hash(place.source), place.line + 1, 0, outcome, outcome.Skipped?,
        Duration(r.setup), Duration(r.execution), Duration(r.teardown))
  }

  lemma FirstAttemptsMore(hash: string -> string, nodes: seq<string>, attempts: seq<Try>, node: string, run: Try)
    requires Digest(hash) && FirstAttempts(hash, nodes, attempts)
    requires run.test == hash(node) && run.attempt == 0 && run.skip == run.outcome.Skipped? && Hex(run.source, 64)
    ensures FirstAttempts(hash, nodes + [node], attempts + [run])
  {
  }

  // ----- verdicts, told from the reports alone

  /** A report as the plugin receives it. */
  datatype Got = Got(node: string, when: When, report: Report)

  /** The last report on this phase of this test, if there was one. */
  function LastReport(got: seq<Got>, node: string, when: When): Option<Report> {
    if got == [] then None
    else
      var last := got[|got| - 1];
      if last.node == node && last.when == when then Some(last.report) else LastReport(got[..|got| - 1], node, when)
  }

  predicate PhaseFailed(got: seq<Got>, node: string, when: When) {
    var r := LastReport(got, node, when);
    r.Some? && r.value.failed
  }

  predicate PhaseSkipped(got: seq<Got>, node: string, when: When) {
    var r := LastReport(got, node, when);
    r.Some? && r.value.skipped
  }

  /**
   The outcome that the reports call for: failed if a phase failed; else skipped if a phase was skipped; else passed if
   the test's own phase was reported; else not run.
   */
  predicate Judges(got: seq<Got>, node: string, outcome: Outcome) {
    var failed := PhaseFailed(got, node, Setup) || PhaseFailed(got, node, Call) || PhaseFailed(got, node, Teardown);
    var skipped := PhaseSkipped(got, node, Setup) || PhaseSkipped(got, node, Call) || PhaseSkipped(got, node, Teardown);
    && (outcome.Failed? <==> failed)
    && (outcome.Skipped? <==> !failed && skipped)
    && (outcome.Passed? <==> !failed && !skipped && LastReport(got, node, Call).Some?)
    && (outcome.NotRun? <==> !failed && !skipped && LastReport(got, node, Call).None?)
  }

  function LastDuration(got: seq<Got>, node: string, when: When): real {
    var r := LastReport(got, node, when);
    if r.Some? then r.value.duration else 0.0
  }

  /** The attempt names the test and its place, and carries the durations of the reports. */
  predicate Tells(hash: string -> string, places: map<string, Item>, got: seq<Got>, node: string, run: Try) {
    && run.test == hash(node) && run.attempt == 0 && run.skip == run.outcome.Skipped?
    && (if node in places then run.source == hash(places[node].source) && run.line == places[node].line + 1
        else run.source == hash("unknown") && run.line == 1)
    && run.setup == LastDuration(got, node, Setup) && run.execution == LastDuration(got, node, Call)
    && run.teardown == LastDuration(got, node, Teardown)
  }

  /** What the plugin has kept of the reports is the last one of each phase. */
  ghost predicate Remembered(got: seq<Got>, phases: map<string, Reports>) {
    forall node :: Lasts(got, node) == ReportsOf(phases, node)
  }

  function Lasts(got: seq<Got>, node: string): Reports {
    Reports(LastReport(got, node, Setup), LastReport(got, node, Call), LastReport(got, node, Teardown))
  }

  lemma RememberMore(got: seq<Got>, phases: map<string, Reports>, g: Got)
    requires Remembered(got, phases)
    ensures Remembered(got + [g], phases[g.node := WithReport(ReportsOf(phases, g.node), g.when, g.report)])
  {
    assert (got + [g])[..|got|] == got;
    var phases1 := phases[g.node := WithReport(ReportsOf(phases, g.node), g.when, g.report)];
    forall node ensures Lasts(got + [g], node) == ReportsOf(phases1, node) {
      assert Lasts(got, node) == ReportsOf(phases, node);
    }
  }

  lemma OutcomeIsJudged(got: seq<Got>, node: string)
    ensures Judges(got, node, OutcomeOf(Lasts(got, node), None))
  {
  }

  lemma FirstTryTells(hash: string -> string, places: map<string, Item>, got: seq<Got>, phases: map<string, Reports>, node: string,
                      missing: Option<Outcome>)
    requires Remembered(got, phases)
    ensures var r := ReportsOf(phases, node); var outcome := OutcomeOf(r, missing);
      && Tells(hash, places, got, node, FirstTry(hash, PlaceOf(places, node), node, outcome, r))
      && (missing.None? ==> Judges(got, node, outcome))
  {
    OutcomeIsJudged(got, node);
    assert Lasts(got, node) == ReportsOf(phases, node);
  }

  /** After this many reports the test was torn down, and they call for this outcome. */
  predicate JudgedAt(got: seq<Got>, node: string, cut: int, outcome: Outcome) {
    && 0 < cut <= |got| && got[cut - 1].node == node && got[cut - 1].when.Teardown?
    && Judges(got[..cut], node, outcome)
  }

  lemma JudgedStill(got: seq<Got>, node: string, cut: int, outcome: Outcome, g: Got)
    requires JudgedAt(got, node, cut, outcome)
    ensures JudgedAt(got + [g], node, cut, outcome)
  {
    assert (got + [g])[..cut] == got[..cut];
  }

  /**
   Attempt k was written at a teardown, upon the first `judged[k]` reports, which call for its outcome; every teardown has
   its attempt; and any other attempt was filled in.
   */
  ghost predicate Fair(got: seq<Got>, emitted: seq<string>, attempts: seq<Try>, judged: map<int, int>) {
    && |emitted| == |attempts|
    && (forall k :: k in judged ==> 0 <= k < |attempts| && JudgedAt(got, emitted[k], judged[k], attempts[k].outcome))
    && (forall k :: 0 <= k < |attempts| && k !in judged ==> Filled(attempts[k].outcome))
    && (forall j :: 0 <= j < |got| && got[j].when.Teardown? ==> HasAttempt(judged, j + 1))
  }

  predicate Filled(outcome: Outcome) {
    outcome.NotRun? || outcome.Cancelled?
  }

  ghost predicate HasAttempt(judged: map<int, int>, cut: int) {
    exists k :: k in judged && judged[k] == cut
  }

  lemma FairReport(got: seq<Got>, emitted: seq<string>, attempts: seq<Try>, judged: map<int, int>, g: Got)
    requires Fair(got, emitted, attempts, judged) && !g.when.Teardown?
    ensures Fair(got + [g], emitted, attempts, judged)
  {
    forall k | k in judged ensures JudgedAt(got + [g], emitted[k], judged[k], attempts[k].outcome) {
      JudgedStill(got, emitted[k], judged[k], attempts[k].outcome, g);
    }
  }

  lemma FairTeardown(got: seq<Got>, emitted: seq<string>, attempts: seq<Try>, judged: map<int, int>, g: Got, run: Try)
    requires Fair(got, emitted, attempts, judged) && g.when.Teardown? && Judges(got + [g], g.node, run.outcome)
    ensures Fair(got + [g], emitted + [g.node], attempts + [run], judged[|attempts| := |got| + 1])
  {
    var got1, judged1 := got + [g], judged[|attempts| := |got| + 1];
    assert got1[..|got| + 1] == got1;
    forall k | k in judged1 ensures 0 <= k <= |attempts| && JudgedAt(got1, (emitted + [g.node])[k], judged1[k], (attempts + [run])[k].outcome) {
      if k < |attempts| { JudgedStill(got, emitted[k], judged[k], attempts[k].outcome, g); }
    }
    forall j | 0 <= j < |got1| && got1[j].when.Teardown? ensures HasAttempt(judged1, j + 1) {
      if j < |got| {
        StillHas(judged, |attempts|, |got| + 1, j + 1);
      } else {
        assert |attempts| in judged1;
      }
    }
  }

  lemma StillHas(judged: map<int, int>, n: int, cut: int, wanted: int)
    requires HasAttempt(judged, wanted) && n !in judged
    ensures HasAttempt(judged[n := cut], wanted)
  {
    var k :| k in judged && judged[k] == wanted;
    assert k in judged[n := cut];
  }

  lemma FairFill(got: seq<Got>, emitted: seq<string>, attempts: seq<Try>, judged: map<int, int>, emitted1: seq<string>, attempts1: seq<Try>)
    requires Fair(got, emitted, attempts, judged) && emitted <= emitted1 && attempts <= attempts1 && |emitted1| == |attempts1|
    requires forall k :: |attempts| <= k < |attempts1| ==> Filled(attempts1[k].outcome)
    ensures Fair(got, emitted1, attempts1, judged)
  {
  }

  class Timing {
    const hash: string -> string
    const meta: Meta
    var items: seq<string>
    var places: map<string, Item>
    var phases: map<string, Reports>
    var completed: set<string>
    var collectionFailed: bool
    var interrupted: bool
    var log: seq<Record>
    /** Whether collection has finished, and the tests and attempts written since, in order. */
    ghost var collected: bool
    ghost var emitted: seq<string>
    ghost var attempts: seq<Try>
    /** The reports received so far, and how many of them each attempt at a teardown rests on. */
    ghost var received: seq<Got>
    ghost var judged: map<int, int>

    /** The log so far is a start, the plan, and the first attempts at the completed tests. */
    ghost predicate Ready()
      reads this
    {
      && Digest(hash) && ProducedMeta(meta) && Distinct(items)
      && Elements(emitted) == completed && FirstAttempts(hash, emitted, attempts)
      && Remembered(received, phases)
      && (!collected ==> log == [] && emitted == [] && items == [])
      && (collected ==>
            log == [Start(meta, Some(|items|))] + PlanRecords(meta, Hashes(hash, items)) + AttemptRecords(meta, attempts))
    }

    /** Every attempt so far has the outcome that the reports before it call for. */
    ghost predicate Just()
      reads this
    {
      Fair(received, emitted, attempts, judged)
    }

    constructor (hash: string -> string, sha: string, runId: string, runAttempt: string, lane: string)
      requires Digest(hash) && lane in {"python", "postgres"}
      ensures Ready() && Just() && received == [] && !collected && !collectionFailed && !interrupted
      ensures this.hash == hash && meta == MetaOf(sha, runId, runAttempt, lane)
    {
      this.hash, meta := hash, MetaOf(sha, runId, runAttempt, lane);
      items, places, phases, completed, log := [], map[], map[], {}, [];
      collectionFailed, interrupted := false, false;
      collected, emitted, attempts, received, judged := false, [], [], [], map[];
    }

    method Write(r: Record)
      modifies this`log
      ensures log == old(log) + [r]
    {
      log := log + [r];
    }

    method CollectionFinish(found: seq<Item>)
      requires Ready() && !collected
      modifies this`items, this`places, this`log, this`collected
      ensures Ready() && collected && completed == {} && emitted == []
      ensures items == Dedup(Nodes(found)) && places == Placed(found)
    {
      items, places := Dedup(Nodes(found)), map[];
      DedupKeeps(Nodes(found));
      for i := 0 to |found|
        invariant items == Dedup(Nodes(found)) && log == [] && places == Placed(found[..i])
      {
        assert found[..i + 1][..i] == found[..i];
        places := places[found[i].node := found[i]];
      }
      assert found[..|found|] == found;
      WritePlan();
      collected := true;
      assert AttemptRecords(meta, attempts) == [];
    }

    method WritePlan()
      modifies this`log
      ensures log == old(log) + [Start(meta, Some(|items|))] + PlanRecords(meta, Hashes(hash, items))
    {
      Write(Start(meta, Some(|items|)));
      ghost var plan := PlanRecords(meta, Hashes(hash, items));
      for i := 0 to |items|
        invariant log == old(log) + [Start(meta, Some(|items|))] + plan[..i]
      {
        Write(Plan(meta, hash(items[i])));
        assert plan[..i + 1] == plan[..i] + [Plan(meta, hash(items[i]))];
      }
      assert plan[..|items|] == plan;
    }

    method CollectReport(failed: bool)
      modifies this`collectionFailed
      ensures collectionFailed == (old(collectionFailed) || failed)
    {
      if failed {
        collectionFailed := true;
      }
    }

    method KeyboardInterrupt()
      modifies this`interrupted
      ensures interrupted
    {
      interrupted := true;
    }

    method Emit(node: string, missing: Option<Outcome>)
      requires Ready() && collected
      modifies this`log, this`completed, this`emitted, this`attempts
      ensures Ready() && completed == old(completed) + {node} && emitted == old(emitted) + [node]
      ensures |attempts| == |old(attempts)| + 1 && old(attempts) <= attempts
      ensures Tells(hash, places, received, node, attempts[|attempts| - 1])
      ensures if missing.Some? then attempts[|attempts| - 1].outcome == missing.value
              else Judges(received, node, attempts[|attempts| - 1].outcome)
    {
      var reports := ReportsOf(phases, node);
      var outcome := OutcomeOf(reports, missing);
      var run := FirstTry(hash, PlaceOf(places, node), node, outcome, reports);
      FirstTryTells(hash, places, received, phases, node, missing);
      Write(Attempt(meta, run));
      AttemptsMore(meta, attempts, run);
      FirstAttemptsMore(hash, emitted, attempts, node, run);
      completed := completed + {node};
      emitted := emitted + [node];
      attempts := attempts + [run];
      ElementsOfLast(old(emitted), node);
    }

    /** An attempt with the given outcome, unless the test has one. */
    method FillOne(node: string, missing: Outcome)
      requires Ready() && collected
      modifies this`log, this`completed, this`emitted, this`attempts
      ensures Ready() && completed == old(completed) + {node}
      ensures emitted == old(emitted) + if node in old(completed) then [] else [node]
      ensures old(attempts) <= attempts && forall k :: |old(attempts)| <= k < |attempts| ==> attempts[k].outcome == missing
    {
      if node !in completed {
        Emit(node, Some(missing));
      }
    }

    /**
     A report is kept. At a teardown one attempt is written, which names the test and its place and carries the verdict
     and the durations of the last report on each phase.
     */
    method LogReport(node: string, when: When, report: Report)
      requires Ready() && Just() && collected
      modifies this`phases, this`log, this`completed, this`emitted, this`attempts, this`received, this`judged
      ensures Ready() && Just()
      ensures received == old(received) + [Got(node, when, report)]
      ensures emitted == old(emitted) + if when.Teardown? then [node] else []
      ensures |attempts| == |emitted| && old(attempts) <= attempts
      ensures when.Teardown? ==>
        Tells(hash, places, received, node, attempts[|attempts| - 1]) && Judges(received, node, attempts[|attempts| - 1].outcome)
    {
      Keep(node, when, report);
      if when.Teardown? {
        TearDown(Got(node, when, report), old(received));
      } else {
        FairReport(old(received), emitted, attempts, judged, Got(node, when, report));
      }
    }

    /** The attempt at a teardown; `before` are the reports before it. */
    method TearDown(g: Got, ghost before: seq<Got>)
      requires Ready() && collected && g.when.Teardown? && received == before + [g] && Fair(before, emitted, attempts, judged)
      modifies this`log, this`completed, this`emitted, this`attempts, this`judged
      ensures Ready() && Just() && emitted == old(emitted) + [g.node]
      ensures |attempts| == |old(attempts)| + 1 && old(attempts) <= attempts
      ensures Tells(hash, places, received, g.node, attempts[|attempts| - 1]) && Judges(received, g.node, attempts[|attempts| - 1].outcome)
    {
      Emit(g.node, None);
      ghost var run := attempts[|attempts| - 1];
      assert attempts == old(attempts) + [run];
      FairTeardown(before, old(emitted), old(attempts), judged, g, run);
      judged := judged[|old(attempts)| := |received|];
    }

    method Keep(node: string, when: When, report: Report)
      requires Ready() && collected
      modifies this`phases, this`received
      ensures Ready() && received == old(received) + [Got(node, when, report)]
      ensures phases == old(phases)[node := WithReport(ReportsOf(old(phases), node), when, report)]
    {
      RememberMore(received, phases, Got(node, when, report));
      phases := phases[node := WithReport(ReportsOf(phases, node), when, report)];
      received := received + [Got(node, when, report)];
    }

    /** Every collected test without an attempt gets one, in the order of collection. */
    method FillIn(missing: Outcome)
      requires Ready() && (collected || items == [])
      modifies this`log, this`completed, this`emitted, this`attempts
      ensures Ready() && emitted == old(emitted) + Unfinished(items, old(completed))
      ensures old(attempts) <= attempts
      ensures forall k :: |old(attempts)| <= k < |attempts| ==> attempts[k].outcome == missing
    {
      for i := 0 to |items|
        invariant Ready() && (collected || items == [])
        invariant forall k :: i <= k < |items| ==> (items[k] in completed <==> items[k] in old(completed))
        invariant emitted == old(emitted) + Unfinished(items[..i], old(completed))
        invariant old(attempts) <= attempts
        invariant forall k :: |old(attempts)| <= k < |attempts| ==> attempts[k].outcome == missing
      {
        NextName(items, i, old(completed));
        FillOne(items[i], missing);
      }
      assert items[..|items|] == items;
    }

    /**
     The end of a session: nothing collected is left without an attempt, and the log is whole.
     Without a finished collection the log has no start, and is rejected.
     */
    method SessionFinish(exit: int, wall: real)
      requires Ready() && Just()
      modifies this`log, this`completed, this`emitted, this`attempts
      ensures emitted == old(emitted) + Unfinished(items, old(completed))
      ensures old(attempts) <= attempts && |attempts| == |emitted|
      ensures forall k :: |old(attempts)| <= k < |attempts| ==>
        attempts[k].outcome == if SessionOf(collectionFailed, interrupted, exit).SessionCancelled? then Cancelled else NotRun
      ensures Just() && (old(Orderly(items, emitted)) ==> Orderly(items, emitted))
      ensures collected ==> Produced(hash, meta, items, emitted, attempts)
      ensures collected ==> log == ProducedLog(hash, meta, items, attempts, SessionOf(collectionFailed, interrupted, exit), wall)
      ensures !collected ==> log == [End(meta, SessionOf(collectionFailed, interrupted, exit), wall)] && !Accepts(log)
    {
      var outcome := SessionOf(collectionFailed, interrupted, exit);
      FillIn(if outcome.SessionCancelled? then Cancelled else NotRun);
      UnfinishedCompletes(items, old(emitted));
      FairFill(received, old(emitted), old(attempts), judged, emitted, attempts);
      Write(End(meta, outcome, wall));
      NoStartIsRejected(meta, outcome, wall);
    }
  }

  lemma NoStartIsRejected(m: Meta, session: Terminal, wall: real)
    ensures !Accepts([End(m, session, wall)])
  {
    PartsOfOne(End(m, session, wall));
  }

  lemma NextName(names: seq<string>, i: nat, done: set<string>)
    requires i < |names| && Distinct(names)
    ensures Elements(names[..i + 1]) == Elements(names[..i]) + {names[i]} && names[i] !in Elements(names[..i])
    ensures Unfinished(names[..i + 1], done) == Unfinished(names[..i], done) + if names[i] in done then [] else [names[i]]
  {
    assert names[..i + 1] == names[..i] + [names[i]] && names[..i + 1][..i] == names[..i];
    ElementsOfLast(names[..i], names[i]);
  }

  lemma {:induction false} UnfinishedAre(names: seq<string>, done: set<string>)
    requires Distinct(names)
    ensures Distinct(Unfinished(names, done)) && Elements(Unfinished(names, done)) == Elements(names) - done
    decreases |names|
  {
    if names != [] {
      var n := |names| - 1;
      UnfinishedAre(names[..n], done);
      assert names[..n + 1] == names;
      NextName(names, n, done);
      ElementsOfLast(Unfinished(names[..n], done), names[n]);
      assert forall x :: x in Unfinished(names[..n], done) <==> x in Elements(Unfinished(names[..n], done));
    }
  }

  lemma UnfinishedCompletes(items: seq<string>, emitted: seq<string>)
    requires Distinct(items)
    ensures var all := emitted + Unfinished(items, Elements(emitted));
      Elements(items) <= Elements(all) && (Orderly(items, emitted) ==> Orderly(items, all))
  {
    var rest := Unfinished(items, Elements(emitted));
    UnfinishedAre(items, Elements(emitted));
    assert Elements(emitted + rest) == Elements(emitted) + Elements(rest) by {
      assert forall x :: x in emitted + rest <==> x in emitted || x in rest;
    }
    if Orderly(items, emitted) {
      forall i, j | 0 <= i < j < |emitted + rest| ensures (emitted + rest)[i] != (emitted + rest)[j] {
        assert i < |emitted| <= j ==> emitted[i] in Elements(emitted) && rest[j - |emitted|] in Elements(rest);
      }
    }
  }

  /** The premises can be met: one passing test makes an accepted and complete log, whatever the digest. */
  lemma OneTestIsAccepted(hash: string -> string, m: Meta)
    requires Digest(hash) && ProducedMeta(m) && Whole(m.runId) && Whole(m.runAttempt)
    ensures var fine := Some(Report(false, false, 0.0));
      var run := FirstTry(hash, Item("test", "file", 0), "test", Passed, Reports(fine, fine, fine));
      var log := ProducedLog(hash, m, ["test"], [run], SessionPassed, 0.0);
      Produced(hash, m, ["test"], ["test"], [run]) && Accepts(log) && Complete(log)
  {
    var fine := Some(Report(false, false, 0.0));
    var run := FirstTry(hash, Item("test", "file", 0), "test", Passed, Reports(fine, fine, fine));
    ProducedIsAccepted(hash, m, ["test"], ["test"], [run], SessionPassed, 0.0);
    ProducedIsComplete(hash, m, ["test"], ["test"], [run], SessionPassed, 0.0);
    assert Separates(hash, ["test"]);
    assert InRange(m, ["test"], [run], 0.0);
  }

  /** A digest that tells up to 64 names apart. */
  function Spread(names: seq<string>, s: string): string {
    seq(64, k requires 0 <= k < 64 => if k < |names| && names[k] == s then '1' else '0')
  }

  lemma DigestsExist(names: seq<string>)
    requires |names| <= 64
    ensures exists hash :: Digest(hash) && Separates(hash, names)
  {
    var hash := (s: string) => Spread(names, s);
    forall s, t | s in names && t in names && hash(s) == hash(t) ensures s == t {
      var k :| 0 <= k < |names| && names[k] == s;
      assert Spread(names, t)[k] == '1';
    }
    assert Digest(hash) && Separates(hash, names);
  }

  lemma AttemptsMore(m: Meta, attempts: seq<Try>, run: Try)
    ensures AttemptRecords(m, attempts + [run]) == AttemptRecords(m, attempts) + [Attempt(m, run)]
  {
  }
}
