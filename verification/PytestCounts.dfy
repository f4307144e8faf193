/** The counts of a whole pytest session, told from the reports that the plugin received. */
module PytestCounts {
  import opened Common
  import opened Evidence
  import opened PytestTiming

  /** The test was torn down, and the reports up to then call for this outcome. */
  ghost predicate EndedAs(got: seq<Got>, node: string, outcome: Outcome) {
    exists cut :: JudgedAt(got, node, cut, outcome)
  }

  /** The collected tests that ended so. */
  ghost function Ended(got: seq<Got>, items: seq<string>, outcome: Outcome): set<string> {
    set node | node in Elements(items) && EndedAs(got, node, outcome)
  }

  lemma VerdictIsOne(got: seq<Got>, node: string, a: Outcome, b: Outcome)
    requires Judges(got, node, a) && Judges(got, node, b) && (a.Failed? || a.Passed?)
    ensures a == b
  {
  }

  /** In a fair and orderly record a test ended so exactly when its attempt says so. */
  lemma AttemptSays(got: seq<Got>, emitted: seq<string>, attempts: seq<Try>, judged: map<int, int>, k: nat, outcome: Outcome)
    requires Fair(got, emitted, attempts, judged) && Distinct(emitted) && k < |emitted| && (outcome.Failed? || outcome.Passed?)
    ensures EndedAs(got, emitted[k], outcome) <==> attempts[k].outcome == outcome
  {
    if attempts[k].outcome == outcome {
      assert k in judged;
      assert JudgedAt(got, emitted[k], judged[k], outcome);
    }
    if EndedAs(got, emitted[k], outcome) {
      var cut :| JudgedAt(got, emitted[k], cut, outcome);
      assert got[cut - 1].when.Teardown?;
      assert HasAttempt(judged, cut - 1 + 1);
      var j :| j in judged && judged[j] == cut;
      assert JudgedAt(got, emitted[j], cut, attempts[j].outcome);
      assert emitted[j] == emitted[k];
      assert j == k;
      VerdictIsOne(got[..cut], emitted[k], outcome, attempts[k].outcome);
    }
  }

  lemma {:induction false} ImageSize(hash: string -> string, names: set<string>, image: set<string>)
    requires forall s, t :: s in names && t in names && hash(s) == hash(t) ==> s == t
    requires forall t :: t in image <==> exists s :: s in names && hash(s) == t
    ensures |image| == |names|
    decreases |names|
  {
    if names == {} {
      assert image == {};
    } else {
      var s :| s in names;
      var rest, less := names - {s}, image - {hash(s)};
      forall t ensures t in less <==> exists u :: u in rest && hash(u) == t {
        if t in less {
          var u :| u in names && hash(u) == t;
          assert u in rest;
        }
      }
      ImageSize(hash, rest, less);
      assert hash(s) in image;
    }
  }

  /** Attempt k is the only one at its test. */
  lemma OnlyAttempt(attempts: seq<Try>, k: nat)
    requires OnePerTest(attempts) && k < |attempts|
    ensures Group(attempts, attempts[k].test) == [attempts[k].outcome]
    decreases |attempts|
  {
    var n := |attempts| - 1;
    if k < n {
      OnlyAttempt(attempts[..n], k);
    } else {
      GroupIsEmpty(attempts[..n], attempts[n].test);
      assert attempts[n].test !in Tests(attempts[..n]);
    }
  }

  /** The counter of first attempts with this outcome, in a session without retries. */
  predicate CountsOutcome(c: Counter, outcome: Outcome) {
    (c.FirstFail? && outcome.Failed?) || (c.FirstPass? && outcome.Passed?)
  }

  /** A test is selected by its only attempt. */
  lemma SelectedByAttempt(attempts: seq<Try>, k: nat, c: Counter, outcome: Outcome)
    requires OnePerTest(attempts) && k < |attempts| && CountsOutcome(c, outcome) && !attempts[k].outcome.TimedOut?
    ensures attempts[k].test in Selected(attempts, c) <==> attempts[k].outcome == outcome
  {
    OnlyAttempt(attempts, k);
  }

  lemma NeverTimedOut(got: seq<Got>, emitted: seq<string>, attempts: seq<Try>, judged: map<int, int>, k: nat)
    requires Fair(got, emitted, attempts, judged) && k < |attempts|
    ensures !attempts[k].outcome.TimedOut?
  {
    assert k in judged ==> JudgedAt(got, emitted[k], judged[k], attempts[k].outcome);
  }

  /**
   In the log of an orderly session without a collision, the tests whose first attempt failed are, one for one, the
   collected tests that were torn down after a phase had failed; and those whose first attempt passed are the collected
   tests torn down after their own phase was reported and no phase had failed or been skipped.
   */
  lemma FirstAttemptsAreCounted(hash: string -> string, m: Meta, items: seq<string>, emitted: seq<string>, attempts: seq<Try>,
                                got: seq<Got>, judged: map<int, int>, c: Counter, outcome: Outcome)
    requires Produced(hash, m, items, emitted, attempts) && Separates(hash, items) && Orderly(items, emitted)
    requires Fair(got, emitted, attempts, judged) && CountsOutcome(c, outcome)
    ensures |Selected(attempts, c)| == |Ended(got, items, outcome)|
  {
    DigestsAreOrderly(hash, items, emitted);
    FirstAttemptsOnce(hash, emitted, attempts);
    var names, image := Ended(got, items, outcome), Selected(attempts, c);
    forall t | t in image ensures exists s :: s in names && hash(s) == t {
      var k :| 0 <= k < |attempts| && attempts[k].test == t;
      NeverTimedOut(got, emitted, attempts, judged, k);
      SelectedByAttempt(attempts, k, c, outcome);
      AttemptSays(got, emitted, attempts, judged, k, outcome);
      assert emitted[k] in Elements(emitted) && hash(emitted[k]) == t;
    }
    forall s | s in names ensures hash(s) in image {
      assert s in Elements(emitted);
      var k :| 0 <= k < |emitted| && emitted[k] == s;
      NeverTimedOut(got, emitted, attempts, judged, k);
      SelectedByAttempt(attempts, k, c, outcome);
      AttemptSays(got, emitted, attempts, judged, k, outcome);
      assert attempts[k].test == hash(s);
    }
    ElementsAreMembers(items);
    ImageSize(hash, names, image);
  }
}
