/** The launcher timing receipt: an append-only log, its consolidated form, and the clock behind it. */
module Startup {
  import opened Common

  const PHASES: seq<string> := ["preparation", "build", "replacement", "readiness", "post-start"]
  const OUTCOMES: set<string> := {"passed", "failed", "cancelled"}

  datatype Meta = Meta(schema: int, sourceKind: string, sourceSha: Option<string>, launcherId: string,
                       runId: int, runAttempt: int, project: string, shard: int)

  /** One measured phase. */
  datatype Entry = Entry(phase: string, outcome: string, duration: real)

  /** One line of the receipt. `Junk` is a line without exactly the typed fields of a known kind. */
  datatype Record =
    | Start(meta: Meta)
    | Phase(meta: Meta, entry: Entry)
    | End(meta: Meta, outcome: string, wall: real)
    | Junk

  predicate MetaValid(m: Meta) {
    && m.schema == 1
    && m.sourceKind in {"local", "hosted"}
    && Hex(m.launcherId, 64)
    && Whole(m.runId) && Whole(m.runAttempt) && Whole(m.shard)
    && m.project in {"none", "desktop-chromium", "android-chromium"}
    && m.shard <= 6 && (m.project == "none" ==> m.shard == 0)
    && (m.sourceKind == "hosted" ==>
          m.sourceSha.Some? && Hex(m.sourceSha.value, 40) && m.runId != 0 && m.runAttempt != 0)
    && (m.sourceKind == "local" ==> m.sourceSha.None? && m.runId == 0 && m.runAttempt == 0)
  }

  // ----- which logs are valid

  /** One start, then phases, then possibly an end, all with the same metadata. */
  predicate Shaped(log: seq<Record>) {
    && log != [] && log[0].Start? && MetaValid(log[0].meta)
    && (forall i :: 1 <= i < |log| ==> log[i].Phase? || (i == |log| - 1 && log[i].End?))
    && (forall i :: 1 <= i < |log| ==> log[i].meta == log[0].meta)
  }

  predicate Ended(log: seq<Record>) {
    log != [] && log[|log| - 1].End?
  }

  function Entries(log: seq<Record>): seq<Entry>
    requires Shaped(log)
  {
    var n := if Ended(log) then |log| - 2 else |log| - 1;
    seq(n, k requires 0 <= k < n => log[k + 1].entry)
  }

  function Total(entries: seq<Entry>): real {
    if entries == [] then 0.0 else Total(entries[..|entries| - 1]) + entries[|entries| - 1].duration
  }

  predicate EntryAt(entries: seq<Entry>, k: nat)
    requires k < |entries|
  {
    && k < |PHASES| && entries[k].phase == PHASES[k]
    && entries[k].outcome in OUTCOMES && Number(entries[k].duration)
  }

  /** After a phase that did not pass, only a post-start that did not pass may follow. */
  predicate Follows(entries: seq<Entry>, j: nat, k: nat)
    requires j < k < |entries|
  {
    entries[j].outcome != "passed" ==> k == 4 && entries[k].outcome != "passed"
  }

  ghost predicate EntriesValid(entries: seq<Entry>) {
    && (forall k :: 0 <= k < |entries| ==> EntryAt(entries, k))
    && (forall j, k :: 0 <= j < k < |entries| ==> Follows(entries, j, k))
  }

  predicate EndValid(entries: seq<Entry>, outcome: string, wall: real) {
    && outcome in OUTCOMES && Number(wall)
    && entries != [] && entries[|entries| - 1].outcome == outcome
    && (outcome == "passed" ==> |entries| == |PHASES|)
    && -0.01 <= Total(entries) - wall <= 0.01
  }

  ghost predicate Valid(log: seq<Record>) {
    && Shaped(log) && EntriesValid(Entries(log))
    && (Ended(log) ==> EndValid(Entries(log), log[|log| - 1].outcome, log[|log| - 1].wall))
  }

  // ----- the validator as it runs

  predicate Accepted(entries: seq<Entry>, e: Entry) {
    && |entries| < |PHASES| && e.phase == PHASES[|entries|]
    && e.outcome in OUTCOMES && Number(e.duration)
    && ((exists i :: 0 <= i < |entries| && entries[i].outcome != "passed") ==>
          entries[|entries| - 1].phase == "readiness" && e.phase == "post-start" && e.outcome != "passed")
  }

  lemma PhasesAreDistinct()
    ensures PHASES[3] == "readiness" && PHASES[4] == "post-start"
    ensures forall i :: 0 <= i < 5 && PHASES[i] == "readiness" ==> i == 3
    ensures forall i :: 0 <= i < 5 && PHASES[i] == "post-start" ==> i == 4
    ensures forall i, j :: 0 <= i < j < 5 ==> PHASES[i] != PHASES[j]
  {
    assert PHASES[0][0] == 'p' && PHASES[2][0] == 'r';
    assert |PHASES[0]| == 11 && |PHASES[1]| == 5 && |PHASES[2]| == 11 && |PHASES[3]| == 9 && |PHASES[4]| == 10;
  }

  /** One more phase keeps the log valid exactly when the validator accepts it. */
  lemma EntryExtends(entries: seq<Entry>, e: Entry)
    requires EntriesValid(entries)
    ensures EntriesValid(entries + [e]) <==> Accepted(entries, e)
  {
    PhasesAreDistinct();
    var n, longer := |entries|, entries + [e];
    assert forall k :: 0 <= k < n ==> EntryAt(entries, k) && longer[k] == entries[k];
    assert EntryAt(longer, n) <==> n < 5 && e.phase == PHASES[n] && e.outcome in OUTCOMES && Number(e.duration);
    if Accepted(entries, e) {
      forall j, k | 0 <= j < k < n + 1 ensures Follows(longer, j, k) {
        if k < n { assert Follows(entries, j, k); }
      }
      assert forall k :: 0 <= k < n + 1 ==> EntryAt(longer, k);
    }
    if EntriesValid(longer) {
      assert EntryAt(longer, n);
      if i :| 0 <= i < n && entries[i].outcome != "passed" {
        assert Follows(longer, i, n);
        assert EntryAt(entries, n - 1);
      }
    }
  }

  lemma EntriesPrefix(entries: seq<Entry>, n: nat)
    requires EntriesValid(entries) && n <= |entries|
    ensures EntriesValid(entries[..n])
  {
    var shorter := entries[..n];
    forall k | 0 <= k < n ensures EntryAt(shorter, k) { assert EntryAt(entries, k); }
    forall j, k | 0 <= j < k < n ensures Follows(shorter, j, k) { assert Follows(entries, j, k); }
  }

  /** Every non-empty beginning of a valid receipt is a valid receipt. */
  lemma ValidPrefix(log: seq<Record>, n: nat)
    requires Valid(log) && 1 <= n <= |log|
    ensures Valid(log[..n])
  {
    if n == |log| {
      assert log[..n] == log;
    } else {
      assert Shaped(log[..n]) && !Ended(log[..n]);
      assert Entries(log[..n]) == Entries(log)[..n - 1];
      EntriesPrefix(Entries(log), n - 1);
    }
  }

  /** The validator's test of one line after the first, on the state it keeps. */
  predicate LineOk(meta: Meta, phases: seq<Entry>, ended: bool, r: Record) {
    && !ended && !r.Junk? && r.meta == meta
    && match r
       case Start(_) => false
       case Phase(_, e) => Accepted(phases, e)
       case End(_, outcome, wall) => EndValid(phases, outcome, wall)
  }

  lemma LineExtends(log: seq<Record>, r: Record)
    requires Valid(log)
    ensures Valid(log + [r]) <==> LineOk(log[0].meta, Entries(log), Ended(log), r)
  {
    var longer := log + [r];
    assert longer[|log|] == r && longer[..|log|] == log;
    if Shaped(longer) {
      assert !Ended(log) by { assert longer[|log| - 1] == log[|log| - 1]; }
      if r.Phase? {
        assert Entries(longer) == Entries(log) + [r.entry];
        EntryExtends(Entries(log), r.entry);
      } else {
        assert Entries(longer) == Entries(log);
      }
    }
    assert LineOk(log[0].meta, Entries(log), Ended(log), r) ==> Shaped(longer);
  }

  method ValidateRecords(records: seq<Record>) returns (ok: bool)
    ensures ok <==> Valid(records)
  {
    if records == [] || !records[0].Start? || !MetaValid(records[0].meta) {
      return false;
    }
    var meta := records[0].meta;
    var phases: seq<Entry>, ended, index := [], false, 1;
    assert records[..1] == [records[0]];
    assert Shaped([records[0]]) && Entries([records[0]]) == [];
    while index < |records|
      invariant 1 <= index <= |records|
      invariant Valid(records[..index]) && meta == records[0].meta
      invariant ended == Ended(records[..index]) && phases == Entries(records[..index])
    {
      var record := records[index];
      ghost var seen := records[..index];
      assert records[..index + 1] == seen + [record];
      LineExtends(seen, record);
      if !LineOk(meta, phases, ended, record) {
        if Valid(records) { ValidPrefix(records, index + 1); }
        return false;
      }
      if record.Phase? {
        phases := phases + [record.entry];
      } else {
        ended := true;
      }
      assert Entries(seen + [record]) == phases;
      index := index + 1;
    }
    assert records[..index] == records;
    return true;
  }

  /** A receipt that ends "passed" has exactly the five phases, and every one of them passed. */
  lemma PassedMeansFivePassedPhases(log: seq<Record>)
    requires Valid(log) && Ended(log) && log[|log| - 1].outcome == "passed"
    ensures |Entries(log)| == 5
    ensures forall k :: 0 <= k < 5 ==> Entries(log)[k].phase == PHASES[k] && Entries(log)[k].outcome == "passed"
  {
    var entries := Entries(log);
    forall k | 0 <= k < 5 ensures entries[k].phase == PHASES[k] && entries[k].outcome == "passed" {
      assert EntryAt(entries, k);
      if k < 4 { assert Follows(entries, k, 4); }
    }
  }

  // ----- the consolidated form

  datatype Slot = Slot(phase: string, outcome: Option<string>, duration: Option<real>)

  datatype Consolidated = Consolidated(meta: Meta, preflight: string, phases: seq<Slot>,
                                       outcome: Option<string>, wall: Option<real>)

  /** The record that a filled slot stands for; without a duration it is not a phase record. */
  function SlotRecord(m: Meta, slot: Slot): Record
    requires slot.outcome.Some?
  {
    if slot.duration.Some? then Phase(m, Entry(slot.phase, slot.outcome.value, slot.duration.value)) else Junk
  }

  function EndRecord(m: Meta, outcome: string, wall: Option<real>): Record {
    if wall.Some? then End(m, outcome, wall.value) else Junk
  }

  /** The filled slots are a beginning of the five, and every empty slot is wholly empty. */
  predicate SlotsOk(slots: seq<Slot>, filled: nat) {
    && filled <= |slots| == |PHASES|
    && (forall k :: 0 <= k < |slots| ==> slots[k].phase == PHASES[k])
    && (forall k :: 0 <= k < filled ==> slots[k].outcome.Some?)
    && (forall k :: filled <= k < |slots| ==> slots[k].outcome.None? && slots[k].duration.None?)
  }

  function Filled(slots: seq<Slot>): (n: nat)
    ensures n <= |slots|
  {
    if slots == [] || slots[0].outcome.None? then 0 else 1 + Filled(slots[1..])
  }

  predicate Wellformed(v: Consolidated) {
    && v.preflight == "unmeasured" && SlotsOk(v.phases, Filled(v.phases))
    && (v.outcome.None? ==> v.wall.None?)
  }

  /** The records that a consolidated form stands for. */
  function Expand(v: Consolidated): seq<Record>
    requires Wellformed(v)
  {
    [Start(v.meta)]
    + seq(Filled(v.phases), k requires 0 <= k < Filled(v.phases) => SlotRecord(v.meta, v.phases[k]))
    + (if v.outcome.Some? then [EndRecord(v.meta, v.outcome.value, v.wall)] else [])
  }

  /** The first record of the named phase, as `load_startup` collects them by name. */
  function Observed(entries: seq<Entry>, name: string): Slot {
    if entries == [] then Slot(name, None, None)
    else
      var last := entries[|entries| - 1];
      if last.phase == name then Slot(name, Some(last.outcome), Some(last.duration))
      else Observed(entries[..|entries| - 1], name)
  }

  function Consolidate(log: seq<Record>): Consolidated
    requires Shaped(log)
  {
    Consolidated(log[0].meta, "unmeasured",
                 seq(|PHASES|, k requires 0 <= k < |PHASES| => Observed(Entries(log), PHASES[k])),
                 if Ended(log) then Some(log[|log| - 1].outcome) else None,
                 if Ended(log) then Some(log[|log| - 1].wall) else None)
  }

  lemma {:induction false} ObservedByPosition(entries: seq<Entry>, k: nat)
    requires EntriesValid(entries) && k < 5
    ensures Observed(entries, PHASES[k]) ==
            if k < |entries| then Slot(PHASES[k], Some(entries[k].outcome), Some(entries[k].duration))
            else Slot(PHASES[k], None, None)
    decreases |entries|
  {
    PhasesAreDistinct();
    if entries != [] {
      var n := |entries| - 1;
      assert EntryAt(entries, n);
      if k != n {
        EntriesPrefix(entries, n);
        ObservedByPosition(entries[..n], k);
      }
    }
  }

  lemma {:induction false} FilledIs(slots: seq<Slot>, n: nat)
    requires n <= |slots|
    requires forall k :: 0 <= k < n ==> slots[k].outcome.Some?
    requires n < |slots| ==> slots[n].outcome.None?
    ensures Filled(slots) == n
    decreases n
  {
    if n > 0 { FilledIs(slots[1..], n - 1); }
  }

  /** Consolidating a valid receipt and expanding it again gives back the same records. */
  lemma ExpandUndoesConsolidate(log: seq<Record>)
    requires Valid(log)
    ensures Wellformed(Consolidate(log)) && Expand(Consolidate(log)) == log
  {
    var v, entries := Consolidate(log), Entries(log);
    assert |entries| <= 5 || EntryAt(entries, 5);
    forall k | 0 <= k < 5
      ensures v.phases[k] == if k < |entries| then Slot(PHASES[k], Some(entries[k].outcome), Some(entries[k].duration))
                             else Slot(PHASES[k], None, None)
    {
      ObservedByPosition(entries, k);
    }
    FilledIs(v.phases, |entries|);
    forall k | 0 <= k < |entries| ensures SlotRecord(v.meta, v.phases[k]) == log[k + 1] {
      assert EntryAt(entries, k);
    }
    ExpandAt(v);
    var x := Expand(v);
    forall i | 0 <= i < |x| ensures x[i] == log[i] {
      if 0 < i <= |entries| { assert x[(i - 1) + 1] == SlotRecord(v.meta, v.phases[i - 1]); }
    }
    assert x == log;
  }

  /** The records of a consolidated form, by position. */
  lemma ExpandAt(v: Consolidated)
    requires Wellformed(v)
    ensures var log, n := Expand(v), Filled(v.phases);
      && |log| == n + 1 + (if v.outcome.Some? then 1 else 0) && log[0] == Start(v.meta)
      && (forall k :: 0 <= k < n ==> log[k + 1] == SlotRecord(v.meta, v.phases[k]))
      && (v.outcome.Some? ==> log[|log| - 1] == EndRecord(v.meta, v.outcome.value, v.wall))
  {
  }

  /** Whatever a consolidated form stands for, consolidating it again gives back that form. */
  lemma ConsolidateUndoesExpand(v: Consolidated)
    requires Wellformed(v) && Valid(Expand(v))
    ensures Consolidate(Expand(v)) == v
  {
    var log, n := Expand(v), Filled(v.phases);
    ExpandedEntries(v);
    var entries := Entries(log);
    forall k | 0 <= k < 5 ensures Observed(entries, PHASES[k]) == v.phases[k] {
      ObservedByPosition(entries, k);
    }
    assert Consolidate(log).phases == v.phases;
  }

  lemma ExpandedEntries(v: Consolidated)
    requires Wellformed(v) && Valid(Expand(v))
    ensures var log, n := Expand(v), Filled(v.phases);
      && (Ended(log) <==> v.outcome.Some?) && (v.outcome.Some? ==> v.wall.Some?)
      && |Entries(log)| == n
      && forall k :: 0 <= k < n ==> v.phases[k] == Slot(Entries(log)[k].phase, Some(Entries(log)[k].outcome), Some(Entries(log)[k].duration))
  {
    ExpandAt(v);
    var log, n := Expand(v), Filled(v.phases);
    assert v.outcome.None? && n > 0 ==> log[|log| - 1] == SlotRecord(v.meta, v.phases[n - 1]);
    assert Ended(log) <==> v.outcome.Some?;
    forall k | 0 <= k < n
      ensures v.phases[k] == Slot(Entries(log)[k].phase, Some(Entries(log)[k].outcome), Some(Entries(log)[k].duration))
    {
      assert log[k + 1].Phase?;
    }
  }

  /** The consolidated validator: rebuild the records, slot by slot, and validate them. */
  method ValidateStartup(v: Consolidated) returns (ok: bool)
    ensures ok <==> Wellformed(v) && Valid(Expand(v))
  {
    if v.preflight != "unmeasured" || |v.phases| != |PHASES| {
      return false;
    }
    var records, missing := [Start(v.meta)], false;
    ghost var filled := 0;
    for k := 0 to |PHASES|
      invariant filled <= k && (missing || filled == k)
      invariant forall i :: 0 <= i < k ==> v.phases[i].phase == PHASES[i]
      invariant forall i :: 0 <= i < filled ==> v.phases[i].outcome.Some?
      invariant forall i :: filled <= i < k ==> v.phases[i].outcome.None? && v.phases[i].duration.None?
      invariant missing <==> filled < k
      invariant records == [Start(v.meta)] + seq(filled, i requires 0 <= i < filled => if v.phases[i].outcome.Some? then SlotRecord(v.meta, v.phases[i]) else Junk)
    {
      var slot := v.phases[k];
      if slot.phase != PHASES[k] {
        return false;
      }
      if slot.outcome.None? {
        if slot.duration.Some? {
          return false;
        }
        missing := true;
      } else {
        if missing {
          FilledIs(v.phases, filled);
          return false;
        }
        records := records + [SlotRecord(v.meta, slot)];
        filled := filled + 1;
      }
    }
    FilledIs(v.phases, filled);
    if v.outcome.None? {
      if v.wall.Some? {
        return false;
      }
    } else {
      records := records + [EndRecord(v.meta, v.outcome.value, v.wall)];
    }
    assert records == Expand(v);
    ok := ValidateRecords(records);
  }

  /** What `load_startup` builds from a valid receipt is always accepted. */
  lemma LoadedReceiptsAreAccepted(log: seq<Record>)
    requires Valid(log)
    ensures var v := Consolidate(log); Wellformed(v) && Valid(Expand(v))
  {
    ExpandUndoesConsolidate(log);
  }
}
