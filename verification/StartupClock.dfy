/** How launcher receipts come about: their metadata, the clock behind them, and the only ways to change them. */
module StartupClock {
  import opened Common
  import opened Startup

  // ----- metadata read from the environment

  /** `clean` says that the checkout is at `sha` without changes; `digest` fingerprints the launcher. */
  datatype Environment = Environment(actions: bool, clean: bool, sha: string, runId: string, runAttempt: string,
                                     project: string, shard: string, digest: string)

  function Metadata(e: Environment): Meta {
    var hosted := e.actions && Hex(e.sha, 40) && Numeric(e.runId, 15) != 0 && Numeric(e.runAttempt, 15) != 0 && e.clean;
    var project := if e.project in {"none", "desktop-chromium", "android-chromium"} then e.project else "none";
    Meta(1, if hosted then "hosted" else "local", if hosted then Some(e.sha) else None, e.digest,
         if hosted then Numeric(e.runId, 15) else 0, if hosted then Numeric(e.runAttempt, 15) else 0, project,
         if project != "none" && Numeric(e.shard, 15) <= 6 then Numeric(e.shard, 15) else 0)
  }

  lemma MetadataIsValid(e: Environment)
    requires Hex(e.digest, 64)
    ensures MetaValid(Metadata(e))
  {
    NumericBound(e.runId);
    NumericBound(e.runAttempt);
    NumericBound(e.shard);
  }

  /** All that makes a run a hosted one: it says so, names a commit and its two numbers, and the checkout is that commit. */
  predicate Hosted(e: Environment) {
    e.actions && e.clean && Hex(e.sha, 40) && IsNumber(e.runId) && IsNumber(e.runAttempt)
  }

  /** A decimal number of at most fifteen digits other than zero. */
  predicate IsNumber(text: string) {
    1 <= |text| <= 15 && Digits(text) && DecimalValue(text) != 0
  }

  /** Each field is read from its own variable; what is not hosted carries no commit and no run. */
  lemma MetadataReflects(e: Environment)
    ensures var m := Metadata(e);
      && m.schema == 1 && m.launcherId == e.digest
      && (if Hosted(e) then
            m.sourceKind == "hosted" && m.sourceSha == Some(e.sha) && m.runId == DecimalValue(e.runId) && m.runAttempt == DecimalValue(e.runAttempt)
          else m.sourceKind == "local" && m.sourceSha == None && m.runId == 0 && m.runAttempt == 0)
      && (e.project in {"desktop-chromium", "android-chromium"} ==> m.project == e.project)
      && (e.project !in {"desktop-chromium", "android-chromium"} ==> m.project == "none" && m.shard == 0)
      && (m.project != "none" && 1 <= |e.shard| <= 15 && Digits(e.shard) && DecimalValue(e.shard) <= 6 ==> m.shard == DecimalValue(e.shard))
  {
  }

  // ----- rounded durations

  /** Nanoseconds rounded to whole microseconds, ties to even. */
  function Micros(ns: nat): nat {
    var q, r := ns / 1000, ns % 1000;
    if r < 500 || (r == 500 && q % 2 == 0) then q else q + 1
  }

  lemma MicrosError(ns: nat)
    ensures -500 <= Micros(ns) * 1000 - ns <= 500
  {
  }

  function Millis(ns: nat): real {
    Micros(ns) as real / 1000.0
  }

  /** Clock readings that never go back. */
  predicate Monotone(ticks: seq<nat>) {
    forall i, j :: 0 <= i <= j < |ticks| ==> ticks[i] <= ticks[j]
  }

  function MicrosTotal(ticks: seq<nat>): nat
    requires Monotone(ticks) && ticks != []
  {
    if |ticks| == 1 then 0
    else MicrosTotal(ticks[..|ticks| - 1]) + Micros(ticks[|ticks| - 1] - ticks[|ticks| - 2])
  }

  /** Each phase was timed from one reading to the next. */
  predicate Honest(entries: seq<Entry>, ticks: seq<nat>) {
    && Monotone(ticks) && |ticks| == |entries| + 1
    && forall k :: 0 <= k < |entries| ==> entries[k].duration == Millis(ticks[k + 1] - ticks[k])
  }

  lemma {:induction false} MicrosTotalError(ticks: seq<nat>)
    requires Monotone(ticks) && ticks != []
    ensures var n, span := |ticks| - 1, ticks[|ticks| - 1] - ticks[0];
            -500 * n <= MicrosTotal(ticks) * 1000 - span <= 500 * n
    decreases |ticks|
  {
    if |ticks| > 1 {
      MicrosTotalError(ticks[..|ticks| - 1]);
      MicrosError(ticks[|ticks| - 1] - ticks[|ticks| - 2]);
    }
  }

  lemma {:induction false} TotalIsMicrosTotal(entries: seq<Entry>, ticks: seq<nat>)
    requires Honest(entries, ticks)
    ensures Total(entries) == MicrosTotal(ticks) as real / 1000.0
    decreases |entries|
  {
    if entries != [] {
      var n := |entries| - 1;
      HonestPrefix(entries, ticks);
      TotalIsMicrosTotal(entries[..n], ticks[..n + 1]);
      ThousandthsAdd(MicrosTotal(ticks[..n + 1]), Micros(ticks[n + 1] - ticks[n]));
    }
  }

  lemma HonestPrefix(entries: seq<Entry>, ticks: seq<nat>)
    requires Honest(entries, ticks) && entries != []
    ensures var n := |entries| - 1;
      && Honest(entries[..n], ticks[..n + 1]) && ticks[n] <= ticks[n + 1]
      && entries[n].duration == Micros(ticks[n + 1] - ticks[n]) as real / 1000.0
      && MicrosTotal(ticks) == MicrosTotal(ticks[..n + 1]) + Micros(ticks[n + 1] - ticks[n])
  {
  }

  lemma ThousandthsAdd(a: nat, b: nat)
    ensures (a + b) as real / 1000.0 == a as real / 1000.0 + b as real / 1000.0
  {
  }

  /** Rounding cannot separate the sum of up to five phases from the wall time by more than 0.003 ms. */
  lemma RoundingStaysWithinBound(entries: seq<Entry>, ticks: seq<nat>)
    requires Honest(entries, ticks) && |entries| <= 5
    ensures var wall := Millis(ticks[|ticks| - 1] - ticks[0]);
            -0.003 <= Total(entries) - wall <= 0.003
  {
    var span := ticks[|ticks| - 1] - ticks[0];
    MicrosTotalError(ticks);
    MicrosError(span);
    TotalIsMicrosTotal(entries, ticks);
    var gap := MicrosTotal(ticks) - Micros(span);
    assert -3 <= gap <= 3;
    assert Total(entries) - Millis(span) == gap as real / 1000.0;
  }

  // ----- what an update adds

  function Additions(m: Meta, started: nat, e: Entry, now: nat, finish: bool): seq<Record>
    requires started <= now
  {
    [Phase(m, e)] + if finish then [End(m, e.outcome, Millis(now - started))] else []
  }

  lemma PhaseAdded(log: seq<Record>, e: Entry)
    requires Valid(log) && !Ended(log)
    ensures var longer := log + [Phase(log[0].meta, e)];
      && (Valid(longer) <==> Accepted(Entries(log), e))
      && (Valid(longer) ==> !Ended(longer) && Entries(longer) == Entries(log) + [e])
  {
    LineExtends(log, Phase(log[0].meta, e));
  }

  lemma EndAdded(log: seq<Record>, outcome: string, wall: real)
    requires Valid(log) && !Ended(log)
    ensures var longer := log + [End(log[0].meta, outcome, wall)];
      && (Valid(longer) <==> EndValid(Entries(log), outcome, wall))
      && (Valid(longer) ==> Entries(longer) == Entries(log))
  {
    LineExtends(log, End(log[0].meta, outcome, wall));
  }

  /** An update is accepted exactly when its phase is, and its end agrees with all phases. */
  lemma AdditionsAccepted(log: seq<Record>, started: nat, e: Entry, now: nat, finish: bool)
    requires Valid(log) && !Ended(log) && started <= now
    ensures var longer := log + Additions(log[0].meta, started, e, now, finish);
      && (Valid(longer) <==>
            Accepted(Entries(log), e) && (finish ==> EndValid(Entries(log) + [e], e.outcome, Millis(now - started))))
      && (Valid(longer) ==> Entries(longer) == Entries(log) + [e])
  {
    var one := log + [Phase(log[0].meta, e)];
    PhaseAdded(log, e);
    if finish {
      var end := End(log[0].meta, e.outcome, Millis(now - started));
      assert log + Additions(log[0].meta, started, e, now, finish) == one + [end];
      assert (one + [end])[..|one|] == one;
      if Valid(one) { EndAdded(one, e.outcome, Millis(now - started)); }
      if Valid(one + [end]) { ValidPrefix(one + [end], |one|); }
    } else {
      assert log + Additions(log[0].meta, started, e, now, finish) == one;
    }
  }

  lemma AcceptedFits(entries: seq<Entry>, e: Entry)
    requires Accepted(entries, e)
    ensures |entries + [e]| <= 5
  {
  }

  lemma HonestExtends(entries: seq<Entry>, ticks: seq<nat>, e: Entry, now: nat)
    requires Honest(entries, ticks) && ticks[|ticks| - 1] <= now && e.duration == Millis(now - ticks[|ticks| - 1])
    ensures Honest(entries + [e], ticks + [now])
  {
  }

  /**
   If every phase starts at the reading that the previous update returned, the clock never causes a refusal:
   an update is accepted exactly when its phase is in order and a passing end has all five phases.
   */
  lemma HonestUpdatesAreAccepted(log: seq<Record>, ticks: seq<nat>, e: Entry, now: nat, finish: bool)
    requires Valid(log) && !Ended(log) && Honest(Entries(log), ticks) && ticks[|ticks| - 1] <= now
    requires e.duration == Millis(now - ticks[|ticks| - 1]) && Number(Millis(now - ticks[0]))
    ensures Valid(log + Additions(log[0].meta, ticks[0], e, now, finish)) <==>
            Accepted(Entries(log), e) && (finish && e.outcome == "passed" ==> |Entries(log)| == 4)
    ensures Honest(Entries(log) + [e], ticks + [now])
  {
    AdditionsAccepted(log, ticks[0], e, now, finish);
    HonestExtends(Entries(log), ticks, e, now);
    if Accepted(Entries(log), e) {
      AcceptedFits(Entries(log), e);
      RoundingStaysWithinBound(Entries(log) + [e], ticks + [now]);
    }
  }

  // ----- the receipt

  class Receipt {
    const started: nat
    var log: seq<Record>
    /** The clock readings at which the receipt was begun and updated. */
    ghost var ticks: seq<nat>

    constructor (e: Environment, now: nat)
      requires Hex(e.digest, 64)
      ensures log == [Start(Metadata(e))] && started == now && ticks == [now]
      ensures Valid(log) && Honest(Entries(log), ticks)
    {
      started, log, ticks := now, [Start(Metadata(e))], [now];
      new;
      MetadataIsValid(e);
      assert Shaped(log) && Entries(log) == [];
    }

    /** Append one phase, and the end if asked; `None` is a refusal that changes nothing. */
    method Update(phase: string, outcome: string, phaseStart: nat, now: nat, finish: bool) returns (returned: Option<nat>)
      requires Valid(log)
      modifies this`log, this`ticks
      ensures Valid(log)
      ensures returned.None? ==> log == old(log) && ticks == old(ticks)
      ensures returned.Some? ==>
                && returned.value == now && started <= phaseStart <= now
                && log == old(log) + Additions(old(log)[0].meta, started, Entry(phase, outcome, Millis(now - phaseStart)), now, finish)
                && ticks == old(ticks) + [now]
      ensures returned.Some? <==>
                && !Ended(old(log)) && started <= phaseStart <= now
                && Valid(old(log) + Additions(old(log)[0].meta, started, Entry(phase, outcome, Millis(now - phaseStart)), now, finish))
    {
      if Ended(log) || !(started <= phaseStart <= now) {
        return None;
      }
      var e := Entry(phase, outcome, Millis(now - phaseStart));
      AdditionsAccepted(log, started, e, now, finish);
      if phase !in PHASES || outcome !in OUTCOMES {
        return None;
      }
      var additions := Additions(log[0].meta, started, e, now, finish);
      var ok := ValidateRecords(log + additions);
      if !ok {
        return None;
      }
      log := log + additions;
      ticks := ticks + [now];
      return Some(now);
    }
  }
}
