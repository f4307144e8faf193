/** Joining the evidence logs of several partitions into one. */
module Merge {
  import opened Common
  import opened Evidence

  datatype Error = MissingEvidence | BadReceipt | MixedIdentities | Overlap | MergedRejected | BecameComplete

  datatype Result = Merged(log: seq<Record>) | Rejected(error: Error)

  function AllPlans(receipts: seq<seq<Record>>): seq<string> {
    if receipts == [] then [] else AllPlans(receipts[..|receipts| - 1]) + Plans(receipts[|receipts| - 1])
  }

  function AllAttempts(receipts: seq<seq<Record>>): seq<Try> {
    if receipts == [] then [] else AllAttempts(receipts[..|receipts| - 1]) + Attempts(receipts[|receipts| - 1])
  }

  predicate AllAccepted(receipts: seq<seq<Record>>) {
    forall i :: 0 <= i < |receipts| ==> Accepts(receipts[i])
  }

  predicate AllComplete(receipts: seq<seq<Record>>) {
    forall i :: 0 <= i < |receipts| ==> Complete(receipts[i])
  }

  /** The session outcome of the merged log. */
  function MergedOutcome(receipts: seq<seq<Record>>, statuses: seq<int>, cancelled: bool): Terminal
    requires |receipts| == |statuses|
  {
    if cancelled then SessionCancelled
    else if !AllComplete(receipts) || (exists i :: 0 <= i < |statuses| && statuses[i] !in {0, 1}) then
      if exists i :: 0 <= i < |receipts| && SessionOutcome(receipts[i]) == Some(CollectionError) then CollectionError
      else SessionError
    else if exists i :: 0 <= i < |receipts| && (statuses[i] == 1 || SessionOutcome(receipts[i]) == Some(SessionFailed)) then
      SessionFailed
    else if exists i :: 0 <= i < |receipts| && SessionOutcome(receipts[i]) != Some(SessionPassed) then SessionError
    else SessionPassed
  }

  /** What `merge` checks before it builds anything. */
  predicate Mergeable(receipts: seq<seq<Record>>, statuses: seq<int>, expected: Meta) {
    && receipts != [] && |receipts| == |statuses| && AllAccepted(receipts)
    && (forall i :: 0 <= i < |receipts| ==> receipts[i][0].meta == expected)
    && Distinct(AllPlans(receipts))
  }

  function MergedLog(receipts: seq<seq<Record>>, statuses: seq<int>, wall: real, m: Meta, cancelled: bool): seq<Record>
    requires |receipts| == |statuses|
  {
    Shape(m, Some(|AllPlans(receipts)|), AllPlans(receipts), AllAttempts(receipts),
          MergedOutcome(receipts, statuses, cancelled), wall)
  }

  /** `wall` is the wall time already rounded to three decimals. */
  function Merge(receipts: seq<seq<Record>>, statuses: seq<int>, wall: real, expected: Meta, cancelled: bool): Result {
    if receipts == [] || |receipts| != |statuses| then Rejected(MissingEvidence)
    else if !AllAccepted(receipts) then Rejected(BadReceipt)
    else if exists i :: 0 <= i < |receipts| && receipts[i][0].meta != expected then Rejected(MixedIdentities)
    else if !Distinct(AllPlans(receipts)) then Rejected(Overlap)
    else
      var log := MergedLog(receipts, statuses, wall, expected, cancelled);
      if !Accepts(log) then Rejected(MergedRejected)
      else if !cancelled && !AllComplete(receipts) && Complete(log) then Rejected(BecameComplete)
      else Merged(log)
  }

  // ----- disjoint partitions

  lemma DistinctAppend(a: seq<string>, b: seq<string>)
    requires Distinct(a + b)
    ensures Distinct(a) && Distinct(b) && Elements(a) !! Elements(b)
  {
    assert forall i :: 0 <= i < |a| ==> (a + b)[i] == a[i];
    assert forall i :: 0 <= i < |b| ==> (a + b)[|a| + i] == b[i];
  }

  lemma TestsOfAppend(a: seq<Try>, b: seq<Try>)
    ensures Tests(a + b) == Tests(a) + Tests(b)
  {
    forall t | t in Tests(a) + Tests(b) ensures t in Tests(a + b) {
      if t in Tests(a) {
        var i :| 0 <= i < |a| && a[i].test == t;
        assert (a + b)[i].test == t;
      } else {
        var i :| 0 <= i < |b| && b[i].test == t;
        assert (a + b)[|a| + i].test == t;
      }
    }
  }

  lemma NumberedAppend(a: seq<Try>, b: seq<Try>)
    requires Numbered(a) && Numbered(b) && Tests(a) !! Tests(b)
    ensures Numbered(a + b)
  {
    var both := a + b;
    forall i | 0 <= i < |both| ensures both[i].attempt == |Group(both[..i], both[i].test)| {
      if i < |a| {
        assert both[..i] == a[..i];
      } else {
        var k := i - |a|;
        assert both[..i] == a + b[..k];
        GroupOfAppend(a, b[..k], b[k].test);
        assert b[k].test in Tests(b);
        GroupIsEmpty(a, b[k].test);
      }
    }
  }

  /** A test's attempts all come from the one partition that planned it. */
  lemma GroupOfDisjoint(a: seq<Try>, b: seq<Try>, t: string)
    requires Tests(a) !! Tests(b)
    ensures Group(a + b, t) == if t in Tests(a) then Group(a, t) else Group(b, t)
  {
    GroupOfAppend(a, b, t);
    GroupIsEmpty(a, t);
    GroupIsEmpty(b, t);
    assert Group(a, t) + [] == Group(a, t) && [] + Group(b, t) == Group(b, t);
  }

  lemma SelectedAppend(a: seq<Try>, b: seq<Try>, c: Counter)
    requires Tests(a) !! Tests(b)
    ensures |Selected(a + b, c)| == |Selected(a, c)| + |Selected(b, c)|
  {
    TestsOfAppend(a, b);
    forall t ensures t in Selected(a + b, c) <==> t in Selected(a, c) || t in Selected(b, c) {
      GroupOfDisjoint(a, b, t);
    }
    DisjointUnion(Selected(a + b, c), Selected(a, c), Selected(b, c));
  }

  lemma DisjointUnion(whole: set<string>, a: set<string>, b: set<string>)
    requires a !! b && forall t :: t in whole <==> t in a || t in b
    ensures |whole| == |a| + |b|
  {
    assert whole == a + b;
  }

  // ----- what holds of all partitions together

  lemma AcceptedParts(log: seq<Record>)
    requires Accepts(log)
    ensures Distinct(Plans(log)) && Tests(Attempts(log)) <= Elements(Plans(log)) && Numbered(Attempts(log))
    ensures forall i :: 0 <= i < |Plans(log)| ==> Hex(Plans(log)[i], 64)
    ensures forall i :: 0 <= i < |Attempts(log)| ==> TryValid(Attempts(log)[i])
  {
    ValidPartsOf(log);
  }

  lemma {:induction false} ValidPartsOf(log: seq<Record>)
    requires forall i :: 0 <= i < |log| ==> Valid(log[i])
    ensures forall i :: 0 <= i < |Plans(log)| ==> Hex(Plans(log)[i], 64)
    ensures forall i :: 0 <= i < |Attempts(log)| ==> TryValid(Attempts(log)[i])
    decreases |log|
  {
    if log != [] {
      ValidPartsOf(log[..|log| - 1]);
      assert Valid(log[|log| - 1]);
    }
  }

  predicate GoodParts(plans: seq<string>, attempts: seq<Try>) {
    && Tests(attempts) <= Elements(plans) && Numbered(attempts)
    && (forall i :: 0 <= i < |plans| ==> Hex(plans[i], 64))
    && (forall i :: 0 <= i < |attempts| ==> TryValid(attempts[i]))
  }

  lemma {:induction false} JoinedParts(receipts: seq<seq<Record>>)
    requires AllAccepted(receipts) && Distinct(AllPlans(receipts))
    ensures GoodParts(AllPlans(receipts), AllAttempts(receipts))
    decreases |receipts|
  {
    if receipts != [] {
      var n := |receipts| - 1;
      var before, last := receipts[..n], receipts[n];
      DistinctAppend(AllPlans(before), Plans(last));
      JoinedParts(before);
      AcceptedParts(last);
      TestsOfAppend(AllAttempts(before), Attempts(last));
      NumberedAppend(AllAttempts(before), Attempts(last));
      ElementsAppend(AllPlans(before), Plans(last));
    }
  }

  lemma ElementsAppend(a: seq<string>, b: seq<string>)
    ensures Elements(a + b) == Elements(a) + Elements(b)
  {
    assert forall t :: t in a + b <==> t in a || t in b;
  }

  /**
   When the partitions pass the checks, the merged log is accepted exactly when its own two numbers are in
   range, and an incomplete partition never becomes complete, so that check can never fail.
   */
  lemma MergeRejectsOnlyItsOwnNumbers(receipts: seq<seq<Record>>, statuses: seq<int>, wall: real, expected: Meta, cancelled: bool)
    ensures var r := Merge(receipts, statuses, wall, expected, cancelled);
      && (r.Merged? <==>
            Mergeable(receipts, statuses, expected) && Number(wall) && |AllPlans(receipts)| <= LIMIT)
      && r != Rejected(BecameComplete)
  {
    if receipts != [] && |receipts| == |statuses| && AllAccepted(receipts) {
      if Mergeable(receipts, statuses, expected) {
        MergedIsAccepted(receipts, statuses, wall, expected, cancelled);
        CompleteExactly(receipts, statuses, wall, expected, cancelled);
      }
    }
  }

  lemma MergedIsAccepted(receipts: seq<seq<Record>>, statuses: seq<int>, wall: real, m: Meta, cancelled: bool)
    requires Mergeable(receipts, statuses, m)
    ensures Accepts(MergedLog(receipts, statuses, wall, m, cancelled)) <==> Number(wall) && |AllPlans(receipts)| <= LIMIT
  {
    JoinedParts(receipts);
    ShapeAccepts(m, Some(|AllPlans(receipts)|), AllPlans(receipts), AllAttempts(receipts),
                 MergedOutcome(receipts, statuses, cancelled), wall);
    assert Valid(receipts[0][0]);
  }

  // ----- counts are sums over the partitions

  function SumSelected(receipts: seq<seq<Record>>, c: Counter): nat {
    if receipts == [] then 0
    else SumSelected(receipts[..|receipts| - 1], c) + |Selected(Attempts(receipts[|receipts| - 1]), c)|
  }

  function SumOutcomes(receipts: seq<seq<Record>>, o: Outcome): nat {
    if receipts == [] then 0
    else SumOutcomes(receipts[..|receipts| - 1], o) + OutcomeCount(Attempts(receipts[|receipts| - 1]), o)
  }

  function SumCollected(receipts: seq<seq<Record>>): nat {
    if receipts == [] then 0 else SumCollected(receipts[..|receipts| - 1]) + |Plans(receipts[|receipts| - 1])|
  }

  function SumMissing(receipts: seq<seq<Record>>): nat {
    if receipts == [] then 0 else SumMissing(receipts[..|receipts| - 1]) + |Missing(receipts[|receipts| - 1])|
  }

  function SumObserved(receipts: seq<seq<Record>>): nat {
    if receipts == [] then 0 else SumObserved(receipts[..|receipts| - 1]) + |Tests(Attempts(receipts[|receipts| - 1]))|
  }

  lemma {:induction false} SumObservedIsSelected(receipts: seq<seq<Record>>)
    ensures SumObserved(receipts) == SumSelected(receipts, Observed)
    decreases |receipts|
  {
    if receipts != [] {
      SumObservedIsSelected(receipts[..|receipts| - 1]);
      ObservedAreTests(Attempts(receipts[|receipts| - 1]));
    }
  }

  /** The partitions before the last, and the last, are disjoint and well-formed. */
  lemma SplitLast(receipts: seq<seq<Record>>)
    requires AllAccepted(receipts) && Distinct(AllPlans(receipts)) && receipts != []
    ensures var n := |receipts| - 1;
      var p, a, q, b := AllPlans(receipts[..n]), AllAttempts(receipts[..n]), Plans(receipts[n]), Attempts(receipts[n]);
      && AllAccepted(receipts[..n]) && Distinct(p) && Elements(p) !! Elements(q)
      && Tests(a) <= Elements(p) && Tests(b) <= Elements(q)
  {
    var n := |receipts| - 1;
    DistinctAppend(AllPlans(receipts[..n]), Plans(receipts[n]));
    JoinedParts(receipts[..n]);
    AcceptedParts(receipts[n]);
  }

  lemma {:induction false} JoinedSelected(receipts: seq<seq<Record>>, c: Counter)
    requires AllAccepted(receipts) && Distinct(AllPlans(receipts))
    ensures |Selected(AllAttempts(receipts), c)| == SumSelected(receipts, c)
    decreases |receipts|
  {
    if receipts == [] {
      assert Selected([], c) == {};
    } else {
      var n := |receipts| - 1;
      SplitLast(receipts);
      JoinedSelected(receipts[..n], c);
      SelectedAppend(AllAttempts(receipts[..n]), Attempts(receipts[n]), c);
    }
  }

  lemma {:induction false} JoinedOutcomes(receipts: seq<seq<Record>>, o: Outcome)
    ensures OutcomeCount(AllAttempts(receipts), o) == SumOutcomes(receipts, o)
    ensures |AllPlans(receipts)| == SumCollected(receipts)
    decreases |receipts|
  {
    if receipts != [] {
      var n := |receipts| - 1;
      JoinedOutcomes(receipts[..n], o);
      OutcomesOfAppend(AllAttempts(receipts[..n]), Attempts(receipts[n]), o);
    }
  }

  lemma {:induction false} JoinedMissing(receipts: seq<seq<Record>>)
    requires AllAccepted(receipts) && Distinct(AllPlans(receipts))
    ensures |Elements(AllPlans(receipts)) - Tests(AllAttempts(receipts))| == SumMissing(receipts)
    decreases |receipts|
  {
    if receipts == [] {
      assert Elements([]) - Tests([]) == {};
    } else {
      var n := |receipts| - 1;
      SplitLast(receipts);
      JoinedMissing(receipts[..n]);
      MissingAppend(AllPlans(receipts[..n]), AllAttempts(receipts[..n]), Plans(receipts[n]), Attempts(receipts[n]));
    }
  }

  lemma MissingAppend(p: seq<string>, a: seq<Try>, q: seq<string>, b: seq<Try>)
    requires Elements(p) !! Elements(q) && Tests(a) <= Elements(p) && Tests(b) <= Elements(q)
    ensures |Elements(p + q) - Tests(a + b)| == |Elements(p) - Tests(a)| + |Elements(q) - Tests(b)|
  {
    TestsOfAppend(a, b);
    ElementsAppend(p, q);
    assert Elements(p + q) - Tests(a + b) == (Elements(p) - Tests(a)) + (Elements(q) - Tests(b));
  }

  /** Every count of the merged log is the sum of that count over the partitions. */
  lemma MergedCountsAreSums(receipts: seq<seq<Record>>, statuses: seq<int>, wall: real, m: Meta, cancelled: bool,
                            c: Counter, o: Outcome)
    requires Mergeable(receipts, statuses, m)
    ensures var log := MergedLog(receipts, statuses, wall, m, cancelled);
      && |Plans(log)| == SumCollected(receipts)
      && |Tests(Attempts(log))| == SumObserved(receipts)
      && |Selected(Attempts(log), c)| == SumSelected(receipts, c)
      && OutcomeCount(Attempts(log), o) == SumOutcomes(receipts, o)
      && |Missing(log)| == SumMissing(receipts)
  {
    MergedParts(receipts, statuses, wall, m, cancelled);
    JoinedSelected(receipts, c);
    JoinedSelected(receipts, Observed);
    ObservedAreTests(AllAttempts(receipts));
    SumObservedIsSelected(receipts);
    JoinedOutcomes(receipts, o);
    JoinedMissing(receipts);
  }

  lemma MergedParts(receipts: seq<seq<Record>>, statuses: seq<int>, wall: real, m: Meta, cancelled: bool)
    requires |receipts| == |statuses|
    ensures var log := MergedLog(receipts, statuses, wall, m, cancelled);
      && Plans(log) == AllPlans(receipts) && Attempts(log) == AllAttempts(receipts)
      && Starts(log) == [Start(m, Some(|AllPlans(receipts)|))]
      && Ends(log) == [End(m, MergedOutcome(receipts, statuses, cancelled), wall)]
  {
    ShapeParts(m, Some(|AllPlans(receipts)|), AllPlans(receipts), AllAttempts(receipts),
               MergedOutcome(receipts, statuses, cancelled), wall);
  }

  // ----- completeness

  predicate StatusesOk(statuses: seq<int>) {
    forall i :: 0 <= i < |statuses| ==> statuses[i] in {0, 1}
  }

  lemma {:induction false} CompletePartitionsJoin(receipts: seq<seq<Record>>)
    requires AllAccepted(receipts) && AllComplete(receipts) && Distinct(AllPlans(receipts))
    ensures SumMissing(receipts) == 0 && SumOutcomes(receipts, Cancelled) == 0 && SumOutcomes(receipts, NotRun) == 0
    ensures receipts != [] ==> AllPlans(receipts) != []
    decreases |receipts|
  {
    if receipts != [] {
      var n := |receipts| - 1;
      DistinctAppend(AllPlans(receipts[..n]), Plans(receipts[n]));
      CompletePartitionsJoin(receipts[..n]);
      assert Complete(receipts[n]);
    }
  }

  /**
   Without cancellation the merged log is complete exactly when every partition is complete and every exit
   status is 0 or 1, and its session passed exactly when besides every partition passed with status 0.
   */
  lemma CompleteExactly(receipts: seq<seq<Record>>, statuses: seq<int>, wall: real, m: Meta, cancelled: bool)
    requires Mergeable(receipts, statuses, m)
    ensures var log := MergedLog(receipts, statuses, wall, m, cancelled);
      && (Complete(log) <==> !cancelled && AllComplete(receipts) && StatusesOk(statuses))
      && (SessionOutcome(log) == Some(SessionPassed) <==>
            !cancelled && AllComplete(receipts) && AllPassed(receipts, statuses))
  {
    MergedParts(receipts, statuses, wall, m, cancelled);
    OutcomeExactly(receipts, statuses, cancelled);
    if AllComplete(receipts) { CompleteTogether(receipts, statuses, wall, m, cancelled); }
  }

  predicate AllPassed(receipts: seq<seq<Record>>, statuses: seq<int>)
    requires |receipts| == |statuses|
  {
    forall i :: 0 <= i < |receipts| ==> statuses[i] == 0 && SessionOutcome(receipts[i]) == Some(SessionPassed)
  }

  lemma OutcomeExactly(receipts: seq<seq<Record>>, statuses: seq<int>, cancelled: bool)
    requires |receipts| == |statuses|
    ensures var outcome := MergedOutcome(receipts, statuses, cancelled);
      && (outcome in {SessionPassed, SessionFailed} <==> !cancelled && AllComplete(receipts) && StatusesOk(statuses))
      && (outcome == SessionPassed <==> !cancelled && AllComplete(receipts) && AllPassed(receipts, statuses))
  {
    assert forall i :: 0 <= i < |receipts| && Complete(receipts[i]) ==>
             SessionOutcome(receipts[i]) in {Some(SessionPassed), Some(SessionFailed)};
  }

  lemma CompleteTogether(receipts: seq<seq<Record>>, statuses: seq<int>, wall: real, m: Meta, cancelled: bool)
    requires Mergeable(receipts, statuses, m) && AllComplete(receipts)
    ensures var log := MergedLog(receipts, statuses, wall, m, cancelled);
      && Plans(log) != [] && Missing(log) == {}
      && OutcomeCount(Attempts(log), Cancelled) == 0 && OutcomeCount(Attempts(log), NotRun) == 0
  {
    CompletePartitionsJoin(receipts);
    MergedCountsAreSums(receipts, statuses, wall, m, cancelled, Observed, Cancelled);
    MergedCountsAreSums(receipts, statuses, wall, m, cancelled, Observed, NotRun);
  }

  ghost predicate SomeCollectionError(receipts: seq<seq<Record>>) {
    exists i :: 0 <= i < |receipts| && SessionOutcome(receipts[i]) == Some(CollectionError)
  }

  /**
   Which outcome the merged session has, in every case: cancelled exactly when the run was; otherwise, when a partition is
   incomplete or a status is neither 0 nor 1, a collection error if any partition had one and an error if none had; and
   otherwise passed when all passed with status 0, and failed when not.
   */
  lemma MergedOutcomeExactly(receipts: seq<seq<Record>>, statuses: seq<int>, wall: real, m: Meta, cancelled: bool)
    requires Mergeable(receipts, statuses, m)
    ensures var outcome := SessionOutcome(MergedLog(receipts, statuses, wall, m, cancelled)); var whole := AllComplete(receipts) && StatusesOk(statuses);
      && (outcome == Some(SessionCancelled) <==> cancelled)
      && (outcome == Some(CollectionError) <==> !cancelled && !whole && SomeCollectionError(receipts))
      && (outcome == Some(SessionError) <==> !cancelled && !whole && !SomeCollectionError(receipts))
      && (outcome == Some(SessionPassed) <==> !cancelled && whole && AllPassed(receipts, statuses))
      && (outcome == Some(SessionFailed) <==> !cancelled && whole && !AllPassed(receipts, statuses))
      && SessionWall(MergedLog(receipts, statuses, wall, m, cancelled)) == Some(wall)
  {
    MergedParts(receipts, statuses, wall, m, cancelled);
    OutcomeExactly(receipts, statuses, cancelled);
    OutcomeOtherwise(receipts, statuses, cancelled);
  }

  lemma OutcomeOtherwise(receipts: seq<seq<Record>>, statuses: seq<int>, cancelled: bool)
    requires |receipts| == |statuses|
    ensures var outcome := MergedOutcome(receipts, statuses, cancelled); var whole := AllComplete(receipts) && StatusesOk(statuses);
      && (cancelled ==> outcome == SessionCancelled)
      && (!cancelled && !whole ==> outcome == if SomeCollectionError(receipts) then CollectionError else SessionError)
  {
  }
}
