/** The summarizer as it runs: group the attempts by test, check their numbering, then count group by group. */
module Summarize {
  import opened Common
  import opened Evidence

  datatype Summary = Summary(meta: Meta, collected: nat, observed: nat, attempts: nat, outcomes: map<Outcome, nat>,
                             eligible: nat, passes: nat, failures: nat, recovered: nat, complete: bool, missing: nat,
                             outcome: Option<Terminal>, wall: Option<real>)

  /** The attempts of one test, in order. */
  function Runs(attempts: seq<Try>, test: string): seq<Try> {
    if attempts == [] then []
    else
      var last := attempts[|attempts| - 1];
      Runs(attempts[..|attempts| - 1], test) + if last.test == test then [last] else []
  }

  predicate InSequence(runs: seq<Try>) {
    forall k :: 0 <= k < |runs| ==> runs[k].attempt == k
  }

  lemma {:induction false} RunsAreGroup(attempts: seq<Try>, test: string)
    ensures |Runs(attempts, test)| == |Group(attempts, test)|
    ensures forall k :: 0 <= k < |Runs(attempts, test)| ==> Runs(attempts, test)[k].outcome == Group(attempts, test)[k]
    decreases |attempts|
  {
    if attempts != [] { RunsAreGroup(attempts[..|attempts| - 1], test); }
  }

  lemma RunsOfLast(attempts: seq<Try>, x: Try, test: string)
    ensures Runs(attempts + [x], test) == Runs(attempts, test) + if x.test == test then [x] else []
  {
    assert (attempts + [x])[..|attempts|] == attempts;
  }

  ghost predicate EachInSequence(attempts: seq<Try>) {
    forall t :: t in Tests(attempts) ==> InSequence(Runs(attempts, t))
  }

  /** Numbering every attempt is numbering every test's attempts. */
  lemma {:induction false} NumberedByTest(attempts: seq<Try>)
    ensures Numbered(attempts) <==> EachInSequence(attempts)
    decreases |attempts|
  {
    if attempts != [] {
      var n := |attempts| - 1;
      var before, x := attempts[..n], attempts[n];
      assert attempts == before + [x];
      NumberedByTest(before);
      NumberedOfLast(before, x);
      RunsAreGroup(before, x.test);
      EachInSequenceOfLast(before, x);
    }
  }

  lemma EachInSequenceOfLast(before: seq<Try>, x: Try)
    ensures EachInSequence(before + [x]) <==> EachInSequence(before) && x.attempt == |Runs(before, x.test)|
  {
    var all := before + [x];
    TestsOfLast(before, x);
    RunsOfLast(before, x, x.test);
    InSequenceOfLast(Runs(before, x.test), x);
    NoRunsOutside(before, x.test);
    forall t | t != x.test ensures Runs(all, t) == Runs(before, t) {
      RunsOfLast(before, x, t);
    }
    if EachInSequence(all) {
      assert InSequence(Runs(all, x.test));
      forall t | t in Tests(before) ensures InSequence(Runs(before, t)) {
        assert InSequence(Runs(all, t));
      }
    }
    if EachInSequence(before) && x.attempt == |Runs(before, x.test)| {
      forall t | t in Tests(all) ensures InSequence(Runs(all, t)) {
        if t in Tests(before) { assert InSequence(Runs(before, t)); }
      }
    }
  }

  lemma InSequenceOfLast(runs: seq<Try>, x: Try)
    ensures InSequence(runs + [x]) <==> InSequence(runs) && x.attempt == |runs|
  {
    if InSequence(runs + [x]) {
      assert (runs + [x])[|runs|] == x;
      forall k | 0 <= k < |runs| ensures runs[k].attempt == k { assert (runs + [x])[k] == runs[k]; }
    }
  }

  lemma NumberedOfLast(before: seq<Try>, x: Try)
    ensures Numbered(before + [x]) <==> Numbered(before) && x.attempt == |Group(before, x.test)|
  {
    var all := before + [x];
    assert forall i :: 0 <= i <= |before| ==> all[..i] == before[..i];
    assert before[..|before|] == before;
    if Numbered(all) {
      forall i | 0 <= i < |before| ensures before[i].attempt == |Group(before[..i], before[i].test)| {
        assert all[i] == before[i];
      }
      assert all[|before|] == x;
    }
  }

  lemma TestsOfLast(before: seq<Try>, x: Try)
    ensures Tests(before + [x]) == Tests(before) + {x.test}
  {
    var all := before + [x];
    assert all[|before|] == x;
    forall t | t in Tests(before) ensures t in Tests(all) {
      var i :| 0 <= i < |before| && before[i].test == t;
      assert all[i].test == t;
    }
  }

  lemma NoRunsOutside(attempts: seq<Try>, t: string)
    ensures Runs(attempts, t) == [] <==> t !in Tests(attempts)
  {
    RunsAreGroup(attempts, t);
    GroupIsEmpty(attempts, t);
  }

  // ----- counting within a set of tests

  /** How many attempts at the tests of a set had an outcome. */
  function CountIn(attempts: seq<Try>, o: Outcome, tests: set<string>): nat {
    if attempts == [] then 0
    else
      var last := attempts[|attempts| - 1];
      CountIn(attempts[..|attempts| - 1], o, tests) + if last.outcome == o && last.test in tests then 1 else 0
  }

  lemma {:induction false} CountInAll(attempts: seq<Try>, o: Outcome, tests: set<string>)
    requires Tests(attempts) <= tests
    ensures CountIn(attempts, o, tests) == OutcomeCount(attempts, o)
    decreases |attempts|
  {
    if attempts != [] {
      var n := |attempts| - 1;
      assert attempts == attempts[..n] + [attempts[n]];
      TestsOfLast(attempts[..n], attempts[n]);
      CountInAll(attempts[..n], o, tests);
    }
  }

  lemma {:induction false} CountInNone(attempts: seq<Try>, o: Outcome)
    ensures CountIn(attempts, o, {}) == 0
    decreases |attempts|
  {
    if attempts != [] { CountInNone(attempts[..|attempts| - 1], o); }
  }

  lemma CountInLast(before: seq<Try>, x: Try, o: Outcome, tests: set<string>)
    ensures CountIn(before + [x], o, tests) == CountIn(before, o, tests) + if x.outcome == o && x.test in tests then 1 else 0
  {
    assert (before + [x])[..|before|] == before;
  }

  lemma OutcomeOfOne(x: Try, o: Outcome)
    ensures OutcomeCount([x], o) == if x.outcome == o then 1 else 0
  {
    assert [x][..0] == [];
  }

  lemma {:induction false} CountInMore(attempts: seq<Try>, o: Outcome, tests: set<string>, t: string)
    requires t !in tests
    ensures CountIn(attempts, o, tests + {t}) == CountIn(attempts, o, tests) + OutcomeCount(Runs(attempts, t), o)
    decreases |attempts|
  {
    if attempts != [] {
      var n := |attempts| - 1;
      var before, x := attempts[..n], attempts[n];
      assert attempts == before + [x];
      CountInMore(before, o, tests, t);
      CountInLast(before, x, o, tests);
      CountInLast(before, x, o, tests + {t});
      RunsOfLast(before, x, t);
      if x.test == t {
        OutcomesOfAppend(Runs(before, t), [x], o);
        OutcomeOfOne(x, o);
      } else {
        assert Runs(before, t) + [] == Runs(before, t);
      }
    }
  }

  // ----- counting along a sequence of tests

  function Bit(b: bool): nat {
    if b then 1 else 0
  }

  /** How many tests of a sequence a counter counts. */
  function CountOver(attempts: seq<Try>, c: Counter, order: seq<string>): nat {
    if order == [] then 0
    else CountOver(attempts, c, order[..|order| - 1]) + Bit(Counts(c, Group(attempts, order[|order| - 1])))
  }

  /** How many attempts at the tests of a sequence had an outcome. */
  function OutcomesOver(attempts: seq<Try>, o: Outcome, order: seq<string>): nat {
    if order == [] then 0
    else OutcomesOver(attempts, o, order[..|order| - 1]) + OutcomeCount(Runs(attempts, order[|order| - 1]), o)
  }

  lemma CountOverLast(attempts: seq<Try>, c: Counter, order: seq<string>, t: string)
    ensures CountOver(attempts, c, order + [t]) == CountOver(attempts, c, order) + Bit(Counts(c, Group(attempts, t)))
  {
    assert (order + [t])[..|order|] == order;
  }

  lemma OutcomesOverLast(attempts: seq<Try>, o: Outcome, order: seq<string>, t: string)
    ensures OutcomesOver(attempts, o, order + [t]) == OutcomesOver(attempts, o, order) + OutcomeCount(Runs(attempts, t), o)
  {
    assert (order + [t])[..|order|] == order;
  }

  lemma ElementsLast(order: seq<string>)
    requires order != [] && Distinct(order)
    ensures var n := |order| - 1;
            Distinct(order[..n]) && Elements(order) == Elements(order[..n]) + {order[n]} && order[n] !in Elements(order[..n])
  {
    var n := |order| - 1;
    assert order == order[..n] + [order[n]];
  }

  lemma {:induction false} CountOverIsSelected(attempts: seq<Try>, c: Counter, order: seq<string>)
    requires Distinct(order) && Elements(order) <= Tests(attempts)
    ensures CountOver(attempts, c, order) == |Selected(attempts, c) * Elements(order)|
    decreases |order|
  {
    var s := Selected(attempts, c);
    if order == [] {
      assert s * Elements(order) == {};
    } else {
      var n := |order| - 1;
      ElementsLast(order);
      CountOverIsSelected(attempts, c, order[..n]);
      SelectOne(s, Elements(order[..n]), order[n]);
    }
  }

  lemma SelectOne(s: set<string>, done: set<string>, t: string)
    requires t !in done
    ensures |s * (done + {t})| == |s * done| + Bit(t in s)
  {
    if t in s {
      assert s * (done + {t}) == s * done + {t};
    } else {
      assert s * (done + {t}) == s * done;
    }
  }

  lemma {:induction false} OutcomesOverIsCountIn(attempts: seq<Try>, o: Outcome, order: seq<string>)
    requires Distinct(order)
    ensures OutcomesOver(attempts, o, order) == CountIn(attempts, o, Elements(order))
    decreases |order|
  {
    if order == [] {
      assert Elements(order) == {};
      CountInNone(attempts, o);
    } else {
      var n := |order| - 1;
      ElementsLast(order);
      OutcomesOverIsCountIn(attempts, o, order[..n]);
      CountInMore(attempts, o, Elements(order[..n]), order[n]);
    }
  }

  // ----- the summarizer

  ghost predicate Grouped(groups: map<string, seq<Try>>, attempts: seq<Try>) {
    groups.Keys == Tests(attempts) && forall t :: t in groups ==> groups[t] == Runs(attempts, t)
  }

  function AddTo(groups: map<string, seq<Try>>, x: Try): map<string, seq<Try>> {
    groups[x.test := (if x.test in groups then groups[x.test] else []) + [x]]
  }

  lemma GroupedOfLast(groups: map<string, seq<Try>>, attempts: seq<Try>, x: Try)
    requires Grouped(groups, attempts)
    ensures Grouped(AddTo(groups, x), attempts + [x])
  {
    TestsOfLast(attempts, x);
    NoRunsOutside(attempts, x.test);
    forall t | t in AddTo(groups, x) ensures AddTo(groups, x)[t] == Runs(attempts + [x], t) {
      RunsOfLast(attempts, x, t);
    }
  }

  lemma AttemptsOfLast(log: seq<Record>, i: nat)
    requires i < |log|
    ensures Attempts(log[..i + 1]) == Attempts(log[..i]) + if log[i].Attempt? then [log[i].run] else []
  {
    assert log[..i + 1][..i] == log[..i];
  }

  method GroupAttempts(log: seq<Record>) returns (groups: map<string, seq<Try>>)
    ensures Grouped(groups, Attempts(log))
  {
    groups := map[];
    for i := 0 to |log|
      invariant Grouped(groups, Attempts(log[..i]))
    {
      AttemptsOfLast(log, i);
      if log[i].Attempt? {
        GroupedOfLast(groups, Attempts(log[..i]), log[i].run);
        groups := AddTo(groups, log[i].run);
      } else {
        assert Attempts(log[..i + 1]) == Attempts(log[..i]);
      }
    }
    assert log[..|log|] == log;
  }

  method CheckNumbering(groups: map<string, seq<Try>>) returns (ok: bool)
    ensures ok <==> forall t :: t in groups ==> InSequence(groups[t])
  {
    var todo := groups.Keys;
    while todo != {}
      invariant todo <= groups.Keys
      invariant forall t :: t in groups && t !in todo ==> InSequence(groups[t])
      decreases |todo|
    {
      var t :| t in todo;
      if !InSequence(groups[t]) {
        return false;
      }
      todo := todo - {t};
    }
    return true;
  }

  method CountRuns(counts: map<Outcome, nat>, runs: seq<Try>) returns (more: map<Outcome, nat>)
    requires forall o :: o in counts
    ensures forall o :: o in more && more[o] == counts[o] + OutcomeCount(runs, o)
  {
    more := counts;
    for i := 0 to |runs|
      invariant forall o :: o in more && more[o] == counts[o] + OutcomeCount(runs[..i], o)
    {
      assert runs[..i + 1][..i] == runs[..i];
      more := more[runs[i].outcome := more[runs[i].outcome] + 1];
    }
    assert runs[..|runs|] == runs;
  }

  method AllValid(log: seq<Record>) returns (ok: bool)
    requires log != []
    ensures ok <==> !log[0].Junk? && SameMeta(log, log[0].meta)
  {
    if log[0].Junk? {
      return false;
    }
    for i := 0 to |log|
      invariant forall k :: 0 <= k < i ==> Valid(log[k]) && log[k].meta == log[0].meta
    {
      if !Valid(log[i]) || log[i].meta != log[0].meta {
        return false;
      }
    }
    return true;
  }

  /** The counters after the groups of some tests, in the order in which they were counted. */
  datatype Tally = Tally(counts: map<Outcome, nat>, eligible: nat, passes: nat, failures: nat, recovered: nat)

  ghost predicate Tallied(attempts: seq<Try>, order: seq<string>, y: Tally) {
    && (forall o :: o in y.counts && y.counts[o] == OutcomesOver(attempts, o, order))
    && y.eligible == CountOver(attempts, Eligible, order) && y.passes == CountOver(attempts, FirstPass, order)
    && y.failures == CountOver(attempts, FirstFail, order) && y.recovered == CountOver(attempts, Recovered, order)
  }

  predicate Ran(o: Outcome) {
    !o.Skipped? && !o.NotRun? && !o.Cancelled?
  }

  predicate Broke(o: Outcome) {
    o.Failed? || o.TimedOut?
  }

  /** What the first and last attempt of one more group add to the counters. */
  lemma CountersMore(attempts: seq<Try>, order: seq<string>, t: string)
    requires t in Tests(attempts)
    ensures var runs := Runs(attempts, t);
      && |runs| > 0
      && var first, last := runs[0].outcome, runs[|runs| - 1].outcome;
         && CountOver(attempts, Eligible, order + [t]) == CountOver(attempts, Eligible, order) + Bit(Ran(first))
         && CountOver(attempts, FirstPass, order + [t]) == CountOver(attempts, FirstPass, order) + Bit(first.Passed?)
         && CountOver(attempts, FirstFail, order + [t]) == CountOver(attempts, FirstFail, order) + Bit(Broke(first))
         && CountOver(attempts, Recovered, order + [t]) == CountOver(attempts, Recovered, order) + Bit(Broke(first) && last.Passed?)
  {
    GroupEnds(attempts, t);
    CountOverLast(attempts, Eligible, order, t);
    CountOverLast(attempts, FirstPass, order, t);
    CountOverLast(attempts, FirstFail, order, t);
    CountOverLast(attempts, Recovered, order, t);
  }

  /** One more group: its outcomes, and what its first and last attempt add. */
  method CountGroup(y: Tally, runs: seq<Try>, ghost attempts: seq<Try>, ghost order: seq<string>, ghost t: string) returns (z: Tally)
    requires Tallied(attempts, order, y) && t in Tests(attempts) && runs == Runs(attempts, t)
    ensures Tallied(attempts, order + [t], z)
  {
    CountersMore(attempts, order, t);
    var counts := CountRuns(y.counts, runs);
    assert forall o :: o in counts && counts[o] == OutcomesOver(attempts, o, order + [t]) by {
      forall o ensures OutcomesOver(attempts, o, order + [t]) == OutcomesOver(attempts, o, order) + OutcomeCount(runs, o) {
        OutcomesOverLast(attempts, o, order, t);
      }
    }
    var eligible, passes, failures := y.eligible, y.passes, y.failures;
    var first, last := runs[0].outcome, runs[|runs| - 1].outcome;
    if Ran(first) {
      eligible := eligible + 1;
      passes := passes + Bit(first.Passed?);
      failures := failures + Bit(Broke(first));
    }
    z := Tally(counts, eligible, passes, failures, y.recovered + Bit(Broke(first) && last.Passed?));
  }

  const NO_COUNTS: map<Outcome, nat> := map[Passed := 0, Failed := 0, TimedOut := 0, Skipped := 0, Cancelled := 0, NotRun := 0]

  lemma NothingCounted(attempts: seq<Try>)
    ensures Tallied(attempts, [], Tally(NO_COUNTS, 0, 0, 0, 0))
  {
    forall o: Outcome ensures o in NO_COUNTS && NO_COUNTS[o] == 0 {
      match o case Passed => case Failed => case TimedOut => case Skipped => case Cancelled => case NotRun =>
    }
  }

  lemma ElementsMore(order: seq<string>, t: string)
    requires Distinct(order) && t !in Elements(order)
    ensures Distinct(order + [t]) && Elements(order + [t]) == Elements(order) + {t}
  {
  }

  method CountGroups(attempts: seq<Try>, groups: map<string, seq<Try>>) returns (y: Tally)
    requires Grouped(groups, attempts)
    ensures forall o :: o in y.counts && y.counts[o] == OutcomeCount(attempts, o)
    ensures y.eligible == |Selected(attempts, Eligible)| && y.passes == |Selected(attempts, FirstPass)|
    ensures y.failures == |Selected(attempts, FirstFail)| && y.recovered == |Selected(attempts, Recovered)|
  {
    y := Tally(NO_COUNTS, 0, 0, 0, 0);
    NothingCounted(attempts);
    var todo := groups.Keys;
    ghost var order: seq<string> := [];
    while todo != {}
      invariant todo <= groups.Keys && Elements(order) == groups.Keys - todo && Distinct(order) && Tallied(attempts, order, y)
      decreases |todo|
    {
      var t :| t in todo;
      y := CountGroup(y, groups[t], attempts, order, t);
      todo := todo - {t};
      ElementsMore(order, t);
      order := order + [t];
    }
    AllCounted(attempts, order);
  }

  lemma AllCounted(attempts: seq<Try>, order: seq<string>)
    requires Distinct(order) && Elements(order) == Tests(attempts)
    ensures forall o :: OutcomesOver(attempts, o, order) == OutcomeCount(attempts, o)
    ensures forall c :: CountOver(attempts, c, order) == |Selected(attempts, c)|
  {
    forall o ensures OutcomesOver(attempts, o, order) == OutcomeCount(attempts, o) {
      OutcomesOverIsCountIn(attempts, o, order);
      CountInAll(attempts, o, Elements(order));
    }
    forall c ensures CountOver(attempts, c, order) == |Selected(attempts, c)| {
      CountOverIsSelected(attempts, c, order);
      assert Selected(attempts, c) * Elements(order) == Selected(attempts, c);
    }
  }

  lemma GroupEnds(attempts: seq<Try>, t: string)
    requires t in Tests(attempts)
    ensures var runs, g := Runs(attempts, t), Group(attempts, t);
            |runs| == |g| > 0 && runs[0].outcome == g[0] && runs[|runs| - 1].outcome == g[|g| - 1]
  {
    RunsAreGroup(attempts, t);
    GroupIsEmpty(attempts, t);
  }

  method Summarize(log: seq<Record>) returns (r: Option<Summary>)
    ensures r.Some? <==> Accepts(log)
    ensures r.Some? ==>
      var s, attempts := r.value, Attempts(log);
      && s.meta == log[0].meta && s.collected == |Plans(log)| && s.observed == |Tests(attempts)|
      && s.attempts == |attempts| && (forall o :: o in s.outcomes && s.outcomes[o] == OutcomeCount(attempts, o))
      && s.eligible == |Selected(attempts, Eligible)| && s.passes == |Selected(attempts, FirstPass)|
      && s.failures == |Selected(attempts, FirstFail)| && s.recovered == |Selected(attempts, Recovered)|
      && s.missing == |Missing(log)| && s.complete == Complete(log) && s.outcome == SessionOutcome(log) && s.wall == SessionWall(log)
  {
    if log == [] {
      return None;
    }
    var valid := AllValid(log);
    if !valid {
      return None;
    }
    var starts, ends, plans, attempts := Starts(log), Ends(log), Plans(log), Attempts(log);
    if |starts| != 1 || |ends| > 1 || !Distinct(plans) {
      return None;
    }
    var groups := GroupAttempts(log);
    if !(groups.Keys <= Elements(plans)) {
      return None;
    }
    var numbered := CheckNumbering(groups);
    NumberedByTest(attempts);
    if !numbered {
      assert !EachInSequence(attempts);
      return None;
    }
    assert EachInSequence(attempts);
    var y := CountGroups(attempts, groups);
    var counts := y.counts;
    var missing := Elements(plans) - groups.Keys;
    StartsAndEnds(log);
    OutcomesTotal(attempts);
    var complete := plans != [] && ends != [] && ends[0].session in {SessionPassed, SessionFailed} && missing == {}
                    && counts[Cancelled] == 0 && counts[NotRun] == 0;
    if starts[0].planned.Some? && starts[0].planned.value != |plans| {
      complete := false;
    }
    var total := counts[Passed] + counts[Failed] + counts[TimedOut] + counts[Skipped] + counts[Cancelled] + counts[NotRun];
    return Some(Summary(log[0].meta, |plans|, |groups.Keys|, total, counts, y.eligible, y.passes, y.failures, y.recovered,
                        complete, |missing|, if ends != [] then Some(ends[0].session) else None,
                        if ends != [] then Some(ends[0].wall) else None));
  }

  lemma {:induction false} StartsAndEnds(log: seq<Record>)
    ensures forall i :: 0 <= i < |Starts(log)| ==> Starts(log)[i].Start?
    ensures forall i :: 0 <= i < |Ends(log)| ==> Ends(log)[i].End?
    decreases |log|
  {
    if log != [] { StartsAndEnds(log[..|log| - 1]); }
  }

  lemma {:induction false} OutcomesTotal(attempts: seq<Try>)
    ensures OutcomeCount(attempts, Passed) + OutcomeCount(attempts, Failed) + OutcomeCount(attempts, TimedOut)
            + OutcomeCount(attempts, Skipped) + OutcomeCount(attempts, Cancelled) + OutcomeCount(attempts, NotRun) == |attempts|
    decreases |attempts|
  {
    if attempts != [] { OutcomesTotal(attempts[..|attempts| - 1]); }
  }
}
