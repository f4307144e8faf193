/** What every cut of every ledger program keeps, and how an interrupted one is finished. */
module LedgerRuns {
  import opened Common
  import opened Ledger

  // ----- removing one object

  /** The entry of an account whose cleanup has begun. */
  predicate Cleaning(slot: Slot) {
    Coherent(slot) && slot.cleaning && slot.fixture.Some?
  }

  predicate Removable(s: Snapshot, kind: Kind) {
    && s.slot.fixture.Some?
    && var id := Recorded(s.slot.fixture.value, kind);
      id.Some? && Exists(s, kind, id.value) ==> Verified(s, kind, id.value, s.slot.fixture.value)
  }

  /** The ownership record once the object is gone. */
  function Without(f: Fixture, kind: Kind): Option<Fixture> {
    match kind
    case Dashboard => Some(if f.dashboard.None? then f else f.(dashboard := None, pending := None))
    case Model => None
  }

  function RemoveRecorded(s: Snapshot, kind: Kind): Snapshot
    requires s.slot.fixture.Some?
  {
    var id := Recorded(s.slot.fixture.value, kind);
    var s1 := if id.Some? then RemoveObject(s, kind, id.value) else s;
    s1.(slot := s.slot.(fixture := Without(s.slot.fixture.value, kind)))
  }

  /** The turn of this kind: a model's comes when no dashboard is recorded. */
  predicate Ready(s: Snapshot, kind: Kind) {
    s.slot.fixture.Some? && (kind.Model? ==> s.slot.fixture.value.dashboard.None?)
  }

  lemma MarkedIsAnnounced(slot: Slot, kind: Kind, id: string)
    requires Cleaning(slot) && Recorded(slot.fixture.value, kind) == Some(id)
    requires kind.Model? ==> slot.fixture.value.dashboard.None?
    ensures Mark(slot.fixture.value, kind, id).Some?
    ensures var marked := slot.(fixture := Mark(slot.fixture.value, kind, id)); Coherent(marked) && Announced(marked, kind, id)
  {
  }

  lemma ForgottenIsCoherent(slot: Slot, kind: Kind, id: string)
    requires Cleaning(slot) && Recorded(slot.fixture.value, kind) == Some(id)
    requires kind.Model? ==> slot.fixture.value.dashboard.None?
    ensures Forget(slot.fixture.value, kind, id) == Some(Without(slot.fixture.value, kind))
    ensures Coherent(slot.(fixture := Without(slot.fixture.value, kind)))
  {
  }

  lemma DeletionTrace(s: Snapshot, kind: Kind, id: string, marked: Slot, after: Slot, vanishes: bool)
    requires Coherent(marked) && Coherent(after) && Announced(marked, kind, id)
    requires marked.user == s.slot.user && after.user == s.slot.user
    ensures var effects := [Save(marked)] + (if vanishes then [Vanish(kind, id)] else []) + [Delete(kind, id)] + [Save(after)];
      AllAllowed(s, effects) && ApplyAll(s, effects) == RemoveObject(s, kind, id).(slot := after)
  {
    var s1 := Apply(s, Save(marked));
    var s2 := RemoveObject(s1, kind, id);
    ApplyTwo(if vanishes then s2 else s1, Delete(kind, id), Save(after));
    var rest := [Delete(kind, id), Save(after)];
    if vanishes {
      ApplyTwo(s, Save(marked), Vanish(kind, id));
      ApplySplits(s, [Save(marked), Vanish(kind, id)], rest);
      assert [Save(marked)] + [Vanish(kind, id)] + [Delete(kind, id)] + [Save(after)] == [Save(marked), Vanish(kind, id)] + rest;
    } else {
      ApplyOne(s, Save(marked));
      ApplySplits(s, [Save(marked)], rest);
      assert [Save(marked)] + [] + [Delete(kind, id)] + [Save(after)] == [Save(marked)] + rest;
    }
  }

  lemma RemovePartWorks(s: Snapshot, kind: Kind, vanishes: bool)
    requires Cleaning(s.slot) && Ready(s, kind)
    ensures var t := RemovePart(s, kind, vanishes);
      && AllAllowed(s, t.effects)
      && (t.ok <==> Removable(s, kind))
      && (t.ok ==> ApplyAll(s, t.effects) == RemoveRecorded(s, kind))
      && (!t.ok ==> t.effects == [])
  {
    var f := s.slot.fixture.value;
    if Recorded(f, kind).Some? {
      var id := Recorded(f, kind).value;
      MarkedIsAnnounced(s.slot, kind, id);
      ForgottenIsCoherent(s.slot, kind, id);
      var marked := s.slot.(fixture := Mark(f, kind, id));
      ForgottenIsCoherent(marked, kind, id);
      var after := s.slot.(fixture := Without(f, kind));
      DeletionTrace(s, kind, id, marked, after, vanishes);
      ApplyOne(s, Save(after));
      AbsentStays(s, kind, id);
    }
  }

  lemma AbsentStays(s: Snapshot, kind: Kind, id: string)
    ensures Exists(s, kind, id) || RemoveObject(s, kind, id) == s
  {
  }

  // ----- cleanup

  predicate MayClean(slot: Slot) {
    slot.fixture.Some? && (slot.provisioned || slot.cleaning)
  }

  /** Every recorded object that still exists is the fixture's own. */
  predicate Cleanable(s: Snapshot) {
    s.slot.fixture.None? || (MayClean(s.slot) && Removable(s, Dashboard) && Removable(s, Model))
  }

  /** The recorded objects, their record and the cleanup flag are gone; everything else is as it was. */
  function Cleaned(s: Snapshot): Snapshot {
    if s.slot.fixture.None? then s.(slot := s.slot.(cleaning := false))
    else
      var f := s.slot.fixture.value;
      Snapshot(s.slot.(provisioned := false, cleaning := false, fixture := None),
               if f.model.Some? then s.models - {f.model.value} else s.models,
               if f.dashboard.Some? then s.dashboards - {f.dashboard.value} else s.dashboards)
  }

  /** The effect brings the cleanup no further from its goal. */
  predicate Keeps(s: Snapshot, e: Effect) {
    Cleaned(Apply(s, e)) == Cleaned(s) && (Cleanable(s) ==> Cleanable(Apply(s, e)))
  }

  predicate AllKeep(s: Snapshot, effects: seq<Effect>)
    decreases |effects|
  {
    effects == [] || (Keeps(s, effects[0]) && AllKeep(Apply(s, effects[0]), effects[1..]))
  }

  lemma {:induction false} KeepSplits(s: Snapshot, a: seq<Effect>, b: seq<Effect>)
    ensures AllKeep(s, a + b) <==> AllKeep(s, a) && AllKeep(ApplyAll(s, a), b)
    decreases |a|
  {
    if a == [] {
      assert a + b == b;
    } else {
      assert (a + b)[1..] == a[1..] + b;
      KeepSplits(Apply(s, a[0]), a[1..], b);
    }
  }

  lemma {:induction false} AllKeepKeeps(s: Snapshot, effects: seq<Effect>)
    requires AllKeep(s, effects)
    ensures Cleaned(ApplyAll(s, effects)) == Cleaned(s) && (Cleanable(s) ==> Cleanable(ApplyAll(s, effects)))
    decreases |effects|
  {
    if effects != [] { AllKeepKeeps(Apply(s, effects[0]), effects[1..]); }
  }

  lemma KeepOne(s: Snapshot, e: Effect)
    ensures AllKeep(s, [e]) <==> Keeps(s, e)
  {
    assert [e][1..] == [];
  }

  lemma MarkKeeps(s: Snapshot, kind: Kind, id: string)
    requires Cleaning(s.slot) && Recorded(s.slot.fixture.value, kind) == Some(id)
    ensures Keeps(s, Save(s.slot.(fixture := Some(s.slot.fixture.value.(pending := Some(Pending(kind, id)))))))
  {
  }

  lemma RemovalKeeps(s: Snapshot, kind: Kind, id: string)
    requires Cleaning(s.slot) && Ready(s, kind) && Recorded(s.slot.fixture.value, kind) == Some(id)
    ensures Keeps(s, Delete(kind, id)) && Keeps(s, Vanish(kind, id))
  {
    var f, t := s.slot.fixture.value, RemoveObject(s, kind, id);
    assert Cleaned(t) == Cleaned(s) by {
      if kind.Model? { assert s.models - {id} - {id} == s.models - {id}; }
      else { assert s.dashboards - {id} - {id} == s.dashboards - {id}; }
    }
  }

  lemma ForgettingKeeps(s: Snapshot, kind: Kind, id: string)
    requires Cleaning(s.slot) && Ready(s, kind) && Recorded(s.slot.fixture.value, kind) == Some(id)
    requires !Exists(s, kind, id)
    ensures Keeps(s, Save(s.slot.(fixture := Without(s.slot.fixture.value, kind))))
  {
    AbsentStays(s, kind, id);
    var t := s.(slot := s.slot.(fixture := Without(s.slot.fixture.value, kind)));
    assert Cleaned(t) == Cleaned(s) by {
      if kind.Model? { assert s.models - {id} == s.models; }
      else { assert s.dashboards - {id} == s.dashboards; }
    }
  }

  lemma DeletionKeeps(s: Snapshot, kind: Kind, id: string, vanishes: bool)
    requires Cleaning(s.slot) && Ready(s, kind) && Recorded(s.slot.fixture.value, kind) == Some(id)
    ensures var marked := s.slot.(fixture := Some(s.slot.fixture.value.(pending := Some(Pending(kind, id)))));
      var after := s.slot.(fixture := Without(s.slot.fixture.value, kind));
      AllKeep(s, [Save(marked)] + (if vanishes then [Vanish(kind, id)] else []) + [Delete(kind, id)] + [Save(after)])
  {
    var marked := s.slot.(fixture := Some(s.slot.fixture.value.(pending := Some(Pending(kind, id)))));
    var after := s.slot.(fixture := Without(s.slot.fixture.value, kind));
    var s1 := Apply(s, Save(marked));
    var s2 := RemoveObject(s1, kind, id);
    MarkKeeps(s, kind, id);
    MarkedIsAnnounced(s.slot, kind, id);
    RemovalKeeps(s1, kind, id);
    RemovalKeeps(s2, kind, id);
    RemovedTwice(s1, kind, id);
    ForgettingKeeps(s2, kind, id);
    assert Keeps(s2, Save(after));
    var out := if vanishes then [Vanish(kind, id)] else [];
    KeepOne(s, Save(marked));
    KeepOne(s1, Vanish(kind, id));
    KeepOne(s1, Delete(kind, id));
    KeepOne(s2, Delete(kind, id));
    KeepOne(s2, Save(after));
    ApplyOne(s, Save(marked));
    ApplyOne(s1, Vanish(kind, id));
    var s1' := if vanishes then s2 else s1;
    ApplyOne(s1', Delete(kind, id));
    KeepSplits(s, [Save(marked)], out);
    ApplySplits(s, [Save(marked)], out);
    KeepSplits(s, [Save(marked)] + out, [Delete(kind, id)]);
    ApplySplits(s, [Save(marked)] + out, [Delete(kind, id)]);
    KeepSplits(s, [Save(marked)] + out + [Delete(kind, id)], [Save(after)]);
  }

  lemma RemovedTwice(s: Snapshot, kind: Kind, id: string)
    ensures !Exists(RemoveObject(s, kind, id), kind, id)
    ensures RemoveObject(RemoveObject(s, kind, id), kind, id) == RemoveObject(s, kind, id)
  {
    AbsentStays(RemoveObject(s, kind, id), kind, id);
  }

  lemma RemovePartKeeps(s: Snapshot, kind: Kind, vanishes: bool)
    requires Cleaning(s.slot) && Ready(s, kind)
    ensures AllKeep(s, RemovePart(s, kind, vanishes).effects)
  {
    var f := s.slot.fixture.value;
    if Recorded(f, kind).Some? {
      var id := Recorded(f, kind).value;
      MarkedIsAnnounced(s.slot, kind, id);
      ForgottenIsCoherent(s.slot, kind, id);
      ForgottenIsCoherent(s.slot.(fixture := Mark(f, kind, id)), kind, id);
      DeletionKeeps(s, kind, id, vanishes);
      KeepOne(s, Save(s.slot.(fixture := Without(f, kind))));
      if !Exists(s, kind, id) { ForgettingKeeps(s, kind, id); }
    }
  }

  lemma BegunKeeps(s: Snapshot)
    requires Coherent(s.slot) && MayClean(s.slot)
    ensures Keeps(s, Save(Begun(s.slot))) && Allowed(s, Save(Begun(s.slot))) && Cleaning(Begun(s.slot))
    ensures Removable(s, Dashboard) <==> Removable(Apply(s, Save(Begun(s.slot))), Dashboard)
    ensures Removable(s, Model) <==> Removable(Apply(s, Save(Begun(s.slot))), Model)
  {
  }

  lemma EndKeeps(s: Snapshot)
    requires Coherent(s.slot) && s.slot.fixture.None?
    ensures var end := Save(s.slot.(cleaning := false));
      Keeps(s, end) && Allowed(s, end) && Apply(s, end) == Cleaned(s)
  {
  }

  /** After the dashboard is dealt with, it is the model's turn. */
  lemma DashboardDone(s: Snapshot)
    requires Cleaning(s.slot) && Removable(s, Dashboard)
    ensures var t := RemoveRecorded(s, Dashboard);
      Cleaning(t.slot) && Ready(t, Model) && (Removable(t, Model) <==> Removable(s, Model))
  {
    if s.slot.fixture.value.dashboard.Some? { ForgottenIsCoherent(s.slot, Dashboard, s.slot.fixture.value.dashboard.value); }
  }

  /**
   A cleanup performs only permitted effects, each of which leaves its goal where it was; it ends without an
   error exactly when the entry may be cleaned and every recorded object still there is the fixture's own; and
   then the recorded objects, their record and the flag are gone and all else is untouched.
   */
  lemma CleanupWorks(s: Snapshot, dv: bool, mv: bool)
    requires Coherent(s.slot)
    ensures var t := CleanupTrace(s, dv, mv);
      && AllAllowed(s, t.effects) && AllKeep(s, t.effects)
      && (t.ok <==> Cleanable(s))
      && (t.ok ==> ApplyAll(s, t.effects) == Cleaned(s))
  {
    if s.slot.fixture.None? {
      EndKeeps(s);
      ApplyOne(s, Save(s.slot.(cleaning := false)));
      KeepOne(s, Save(s.slot.(cleaning := false)));
    } else if MayClean(s.slot) {
      CleanupParts(s, dv, mv);
    }
  }

  lemma CleanupParts(s: Snapshot, dv: bool, mv: bool)
    requires Coherent(s.slot) && MayClean(s.slot)
    ensures var t := CleanupTrace(s, dv, mv);
      && AllAllowed(s, t.effects) && AllKeep(s, t.effects)
      && (t.ok <==> Cleanable(s))
      && (t.ok ==> ApplyAll(s, t.effects) == Cleaned(s))
  {
    var begin := [Save(Begun(s.slot))];
    var s1 := Apply(s, Save(Begun(s.slot)));
    BegunKeeps(s);
    ApplyOne(s, Save(Begun(s.slot)));
    KeepOne(s, Save(Begun(s.slot)));
    var d := RemovePart(s1, Dashboard, dv);
    RemovePartWorks(s1, Dashboard, dv);
    RemovePartKeeps(s1, Dashboard, dv);
    ApplySplits(s, begin, d.effects);
    KeepSplits(s, begin, d.effects);
    if d.ok {
      DashboardDone(s1);
      var s2 := ApplyAll(s1, d.effects);
      CleanupTail(s, begin + d.effects, s2, mv);
    }
  }

  lemma CleanupTail(s: Snapshot, done: seq<Effect>, s2: Snapshot, mv: bool)
    requires s2 == ApplyAll(s, done) && AllAllowed(s, done) && AllKeep(s, done)
    requires Cleaning(s2.slot) && Ready(s2, Model)
    ensures var m := RemovePart(s2, Model, mv); var s3 := ApplyAll(s2, m.effects);
      && (m.ok <==> Removable(s2, Model))
      && (!m.ok ==> AllAllowed(s, done + m.effects) && AllKeep(s, done + m.effects))
      && (m.ok ==> var all := done + m.effects + [Save(s3.slot.(cleaning := false))];
            AllAllowed(s, all) && AllKeep(s, all) && ApplyAll(s, all) == Cleaned(s))
  {
    var m := RemovePart(s2, Model, mv);
    var s3 := ApplyAll(s2, m.effects);
    RemovePartWorks(s2, Model, mv);
    RemovePartKeeps(s2, Model, mv);
    ApplySplits(s, done, m.effects);
    KeepSplits(s, done, m.effects);
    if m.ok {
      ForgottenIsCoherent(s2.slot, Model, s2.slot.fixture.value.model.value);
      EndKeeps(s3);
      var end := Save(s3.slot.(cleaning := false));
      ApplyOne(s3, end);
      KeepOne(s3, end);
      ApplySplits(s, done + m.effects, [end]);
      KeepSplits(s, done + m.effects, [end]);
      AllKeepKeeps(s, done + m.effects);
    }
  }

  lemma CutKeeps(s: Snapshot, effects: seq<Effect>, k: nat)
    requires AllKeep(s, effects)
    ensures AllKeep(s, Cut(effects, k))
  {
    if k < |effects| {
      assert effects == effects[..k] + effects[k..];
      KeepSplits(s, effects[..k], effects[k..]);
    }
  }

  /** One attempt at a cleanup, cut short after `cut` effects. */
  datatype Attempt = Attempt(dashboardVanishes: bool, modelVanishes: bool, cut: nat)

  function Attempts(s: Snapshot, attempts: seq<Attempt>): Snapshot
    decreases |attempts|
  {
    if attempts == [] then s
    else
      var a := attempts[0];
      Attempts(Perform(s, Cleanup(a.dashboardVanishes, a.modelVanishes, a.cut)), attempts[1..])
  }

  /**
   However often a cleanup is interrupted and wherever, the saved registry validates, and the attempt that is
   let run to its end succeeds exactly as the first would have: both objects recorded at the start are gone,
   the record is gone, and nothing else has changed.
   */
  lemma {:induction false} InterruptedCleanupFinishes(s: Snapshot, attempts: seq<Attempt>, dv: bool, mv: bool)
    requires Safe(s) && Cleanable(s)
    ensures var t := Attempts(s, attempts); var last := CleanupTrace(t, dv, mv);
      Safe(t) && last.ok && ApplyAll(t, last.effects) == Cleaned(s)
    decreases |attempts|
  {
    if attempts == [] {
      CleanupWorks(s, dv, mv);
    } else {
      var a := attempts[0];
      var effects := CleanupTrace(s, a.dashboardVanishes, a.modelVanishes).effects;
      CleanupWorks(s, a.dashboardVanishes, a.modelVanishes);
      CutIsAllowed(s, effects, a.cut);
      CutKeeps(s, effects, a.cut);
      AllAllowedIsSafe(s, Cut(effects, a.cut));
      AllKeepKeeps(s, Cut(effects, a.cut));
      InterruptedCleanupFinishes(ApplyAll(s, Cut(effects, a.cut)), attempts[1..], dv, mv);
    }
  }

  // ----- provisioning

  predicate HasModel(slot: Slot) {
    slot.fixture.Some? && slot.fixture.value.model.Some?
  }

  predicate ModelCanBeEnsured(s: Snapshot, r: Reply) {
    if HasModel(s.slot) then ModelVerified(s, s.slot.fixture.value.model.value)
    else !ModelNameTaken(s) && r.hasOrders && IsModelId(r.modelId) && r.modelIntact
  }

  predicate DashboardCanBeEnsured(s: Snapshot, r: Reply) {
    if s.slot.fixture.Some? && s.slot.fixture.value.dashboard.Some? then
      DashboardVerified(s, s.slot.fixture.value.dashboard.value, s.slot.fixture.value.model)
    else !DashboardNameTaken(s) && IsDashboardId(r.dashboardId) && r.dashboardIntact
  }

  /** No cleanup is unfinished, and each object is recorded and intact or its name is free. */
  predicate Provisionable(s: Snapshot, r: Reply) {
    !s.slot.cleaning && ModelCanBeEnsured(s, r) && DashboardCanBeEnsured(s, r)
  }

  predicate Provisioned(s: Snapshot) {
    s.slot.provisioned && Complete(s)
  }

  /** The entry of an account that is being provisioned. */
  predicate Opened(slot: Slot) {
    Coherent(slot) && slot.account.Some? && !slot.provisioned && !slot.cleaning
  }

  function OpenedSlot(slot: Slot, r: Reply): Slot {
    slot.(provisioned := false, account := if slot.account.Some? then slot.account else Some(r.account))
  }

  lemma OpeningWorks(s: Snapshot, r: Reply)
    requires Coherent(s.slot) && !s.slot.cleaning
    ensures AllAllowed(s, Opening(s.slot, r))
    ensures ApplyAll(s, Opening(s.slot, r)) == s.(slot := OpenedSlot(s.slot, r)) && Opened(OpenedSlot(s.slot, r))
  {
    var first := Save(s.slot.(provisioned := false));
    ApplyOne(s, first);
    if s.slot.account.Some? {
      assert Opening(s.slot, r) == [first];
    } else {
      var second := Save(s.slot.(provisioned := false, account := Some(r.account)));
      assert Opening(s.slot, r) == [first, second];
      ApplyTwo(s, first, second);
    }
  }

  function WithModel(s: Snapshot, r: Reply): Snapshot {
    s.(slot := s.slot.(fixture := Some(Fixture(Some(r.modelId), None, None))),
       models := s.models[r.modelId := ModelObject(ModelName(s.slot.user), r.modelIntact)])
  }

  lemma EnsureModelWorks(s: Snapshot, r: Reply)
    requires Opened(s.slot)
    ensures var t := EnsureModel(s, r); var s' := ApplyAll(s, t.effects);
      && AllAllowed(s, t.effects) && (t.ok <==> ModelCanBeEnsured(s, r))
      && (t.ok ==> s' == if HasModel(s.slot) then s else WithModel(s, r))
      && (t.ok ==> Opened(s'.slot) && HasModel(s'.slot) && ModelVerified(s', s'.slot.fixture.value.model.value))
  {
    if !HasModel(s.slot) && !ModelNameTaken(s) && r.hasOrders {
      var post := PostModel(r.modelId, ModelObject(ModelName(s.slot.user), r.modelIntact));
      var save := Save(s.slot.(fixture := Some(Fixture(Some(r.modelId), None, None))));
      ApplyOne(s, post);
      ApplyTwo(s, post, save);
    }
  }

  function WithDashboard(s: Snapshot, r: Reply): Snapshot
    requires HasModel(s.slot)
  {
    var f := s.slot.fixture.value;
    s.(slot := s.slot.(fixture := Some(f.(dashboard := Some(r.dashboardId)))),
       dashboards := s.dashboards[r.dashboardId := DashboardObject(DashboardName(s.slot.user), f.model.value, r.dashboardIntact)])
  }

  lemma EnsureDashboardWorks(s: Snapshot, r: Reply)
    requires Opened(s.slot) && HasModel(s.slot)
    ensures var t := EnsureDashboard(s, r); var s' := ApplyAll(s, t.effects); var f := s.slot.fixture.value;
      && AllAllowed(s, t.effects) && (t.ok <==> DashboardCanBeEnsured(s, r))
      && (t.ok ==> s' == if f.dashboard.Some? then s else WithDashboard(s, r))
      && (t.ok ==> Opened(s'.slot) && HasModel(s'.slot) && s'.slot.fixture.value.model == f.model && s'.slot.fixture.value.dashboard.Some?
                   && DashboardVerified(s', s'.slot.fixture.value.dashboard.value, f.model))
  {
    var f := s.slot.fixture.value;
    if f.dashboard.None? && !DashboardNameTaken(s) {
      var post := PostDashboard(r.dashboardId, DashboardObject(DashboardName(s.slot.user), f.model.value, r.dashboardIntact));
      var save := Save(s.slot.(fixture := Some(f.(dashboard := Some(r.dashboardId)))));
      ApplyOne(s, post);
      ApplyTwo(s, post, save);
    }
  }

  /** Ensuring the model does not change what the dashboard needs. */
  lemma ModelLeavesDashboards(s: Snapshot, r: Reply)
    requires Opened(s.slot) && !HasModel(s.slot)
    ensures DashboardCanBeEnsured(WithModel(s, r), r) <==> DashboardCanBeEnsured(s, r)
  {
  }

  lemma OpeningChangesNothing(s: Snapshot, r: Reply)
    ensures var s1 := s.(slot := OpenedSlot(s.slot, r));
      && (ModelCanBeEnsured(s1, r) <==> ModelCanBeEnsured(s, r))
      && (DashboardCanBeEnsured(s1, r) <==> DashboardCanBeEnsured(s, r))
  {
  }

  /**
   Provisioning performs only permitted effects; it succeeds exactly when no cleanup is unfinished and each
   object is recorded and intact or can be created; and then both exist, intact and recorded.
   */
  lemma ProvisionWorks(s: Snapshot, r: Reply)
    requires Coherent(s.slot)
    ensures var t := ProvisionTrace(s, r);
      && AllAllowed(s, t.effects)
      && (t.ok <==> Provisionable(s, r))
      && (t.ok ==> Provisioned(ApplyAll(s, t.effects)))
  {
    if !s.slot.cleaning {
      OpeningWorks(s, r);
      OpeningChangesNothing(s, r);
      var s1 := ApplyAll(s, Opening(s.slot, r));
      var e := EnsureTrace(s1, r);
      EnsureWorks(s1, r);
      ApplySplits(s, Opening(s.slot, r), e.effects);
      if e.ok {
        var s2 := ApplyAll(s1, e.effects);
        var end := Save(s2.slot.(provisioned := true));
        ApplyOne(s2, end);
        ApplySplits(s, Opening(s.slot, r) + e.effects, [end]);
      }
    }
  }

  /** Both objects exist, intact and recorded. */
  predicate Complete(s: Snapshot) {
    && HasModel(s.slot) && s.slot.fixture.value.dashboard.Some?
    && ModelVerified(s, s.slot.fixture.value.model.value)
    && DashboardVerified(s, s.slot.fixture.value.dashboard.value, s.slot.fixture.value.model)
  }

  lemma EnsureWorks(s: Snapshot, r: Reply)
    requires Opened(s.slot)
    ensures var t := EnsureTrace(s, r); var s' := ApplyAll(s, t.effects);
      && AllAllowed(s, t.effects)
      && (t.ok <==> ModelCanBeEnsured(s, r) && DashboardCanBeEnsured(s, r))
      && (t.ok ==> Opened(s'.slot) && s'.slot.user == s.slot.user && Complete(s'))
  {
    var m := EnsureModel(s, r);
    var s1 := ApplyAll(s, m.effects);
    EnsureModelWorks(s, r);
    if m.ok {
      ModelStepLeavesDashboards(s, s1, r);
      EnsureDashboardWorks(s1, r);
      ApplySplits(s, m.effects, EnsureDashboard(s1, r).effects);
    }
  }

  lemma ModelStepLeavesDashboards(s1: Snapshot, s2: Snapshot, r: Reply)
    requires Opened(s1.slot) && s2 == if HasModel(s1.slot) then s1 else WithModel(s1, r)
    ensures DashboardCanBeEnsured(s2, r) <==> DashboardCanBeEnsured(s1, r)
  {
    if !HasModel(s1.slot) { ModelLeavesDashboards(s1, r); }
  }

  // ----- runs

  lemma PerformSafe(s: Snapshot, a: Action)
    requires Safe(s) && Possible(s, a)
    ensures Safe(Perform(s, a))
  {
    match a
    case Provision(reply, k) =>
      var effects := ProvisionTrace(s, reply).effects;
      ProvisionWorks(s, reply);
      CutIsAllowed(s, effects, k);
      AllAllowedIsSafe(s, Cut(effects, k));
    case Cleanup(dv, mv, k) =>
      var effects := CleanupTrace(s, dv, mv).effects;
      CleanupWorks(s, dv, mv);
      CutIsAllowed(s, effects, k);
      AllAllowedIsSafe(s, Cut(effects, k));
    case Outside(models, dashboards) =>
  }

  /**
   Wherever provisionings and cleanups are cut and whatever others do in between, the saved entry validates,
   its flags agree with its record, and there is at most one model and one dashboard under the fixture's names.
   */
  lemma {:induction false} EveryCrashIsSafe(s: Snapshot, actions: seq<Action>)
    requires Safe(s)
    ensures Safe(Run(s, actions))
    decreases |actions|
  {
    if actions != [] && Possible(s, actions[0]) {
      PerformSafe(s, actions[0]);
      EveryCrashIsSafe(Perform(s, actions[0]), actions[1..]);
    } else if actions != [] {
      EveryCrashIsSafe(s, actions[1..]);
    }
  }

  lemma AllowedAt(s: Snapshot, effects: seq<Effect>, k: nat)
    requires AllAllowed(s, effects) && k < |effects|
    ensures Allowed(ApplyAll(s, effects[..k]), effects[k])
  {
    assert effects == effects[..k] + effects[k..];
    ApplySplits(s, effects[..k], effects[k..]);
  }

  /**
   No object is deleted unless the saved entry, at that very moment, records it and announces its deletion,
   the account is withdrawn from use, and, for a model, no dashboard is recorded.
   */
  lemma DeletionsAreAnnounced(s: Snapshot, actions: seq<Action>, dv: bool, mv: bool, k: nat)
    requires Safe(s)
    requires k < |CleanupTrace(Run(s, actions), dv, mv).effects|
    requires CleanupTrace(Run(s, actions), dv, mv).effects[k].Delete?
    ensures var t := Run(s, actions); var effects := CleanupTrace(t, dv, mv).effects;
      Announced(ApplyAll(t, effects[..k]).slot, effects[k].kind, effects[k].id)
  {
    var t := Run(s, actions);
    EveryCrashIsSafe(s, actions);
    CleanupWorks(t, dv, mv);
    AllowedAt(t, CleanupTrace(t, dv, mv).effects, k);
  }

  // ----- interrupted provisioning

  /** Replies that let a fixture be created. */
  predicate GoodReply(r: Reply) {
    r.hasOrders && IsModelId(r.modelId) && r.modelIntact && IsDashboardId(r.dashboardId) && r.dashboardIntact
  }

  /** The effects that create a fixture from nothing. */
  lemma CreationTrace(s: Snapshot, r: Reply)
    requires Coherent(s.slot) && s.slot.fixture.None? && !s.slot.cleaning && GoodReply(r)
    requires !ModelNameTaken(s) && !DashboardNameTaken(s)
    ensures ProvisionTrace(s, r).effects == Opening(s.slot, r) + Creation(s.(slot := OpenedSlot(s.slot, r)), r)
  {
    OpeningWorks(s, r);
    OpeningChangesNothing(s, r);
    var s1 := s.(slot := OpenedSlot(s.slot, r));
    EnsureModelWorks(s1, r);
    var s2 := WithModel(s1, r);
    ModelLeavesDashboards(s1, r);
    EnsureDashboardWorks(s2, r);
    EnsureWorks(s1, r);
    assert EnsureTrace(s1, r).effects + [Save(WithDashboard(s2, r).slot.(provisioned := true))] == Creation(s1, r);
  }

  predicate EndsWithCreation(effects: seq<Effect>) {
    |effects| > 0 && (effects[|effects| - 1].PostModel? || effects[|effects| - 1].PostDashboard?)
  }

  /** A cut within the opening writes leaves a state that can be provisioned. */
  lemma OpeningCut(s: Snapshot, r: Reply, k: nat, again: Reply)
    requires s.slot.fixture.None? && !s.slot.cleaning && !ModelNameTaken(s) && !DashboardNameTaken(s) && GoodReply(again)
    requires k <= |Opening(s.slot, r)|
    ensures Provisionable(ApplyAll(s, Opening(s.slot, r)[..k]), again)
    ensures !EndsWithCreation(Opening(s.slot, r)[..k])
  {
    var first := Save(s.slot.(provisioned := false));
    if k == 0 {
    } else if k == 1 {
      assert Opening(s.slot, r)[..k] == [first];
      ApplyOne(s, first);
    } else {
      var second := Save(s.slot.(provisioned := false, account := Some(r.account)));
      assert Opening(s.slot, r)[..k] == [first, second];
      ApplyTwo(s, first, second);
    }
  }

  /** A cut among the creating effects leaves a state that can be provisioned unless it falls right after a creation. */
  lemma CreationCut(s1: Snapshot, r: Reply, k: nat, again: Reply)
    requires Opened(s1.slot) && s1.slot.fixture.None? && !ModelNameTaken(s1) && !DashboardNameTaken(s1)
    requires GoodReply(r) && GoodReply(again) && 0 < k <= 5
    ensures Provisionable(ApplyAll(s1, Creation(s1, r)[..k]), again) <==> k != 1 && k != 3
  {
    var s2, s3 := WithModel(s1, r), WithDashboard(WithModel(s1, r), r);
    var postModel := PostModel(r.modelId, ModelObject(ModelName(s1.slot.user), true));
    var postDashboard := PostDashboard(r.dashboardId, DashboardObject(DashboardName(s1.slot.user), r.modelId, true));
    var end := Save(s3.slot.(provisioned := true));
    var effects := [postModel, Save(s2.slot), postDashboard, Save(s3.slot), end];
    var a := Apply(s1, postModel);
    var b := Apply(s2, postDashboard);
    ApplyOne(s1, postModel);
    ApplyTwo(s1, postModel, Save(s2.slot));
    ApplyOne(s2, postDashboard);
    ApplyTwo(s2, postDashboard, Save(s3.slot));
    ApplyOne(s3, end);
    ApplySplits(s1, effects[..2], [postDashboard]);
    ApplySplits(s1, effects[..2], [postDashboard, Save(s3.slot)]);
    ApplySplits(s1, effects[..4], [end]);
    assert effects[..1] == [postModel] && effects[..2] == [postModel, Save(s2.slot)];
    assert effects[..3] == effects[..2] + [postDashboard];
    assert effects[..4] == effects[..2] + [postDashboard, Save(s3.slot)];
    assert effects[..5] == effects[..4] + [end];
    CreationStates(s1, r, again);
  }

  lemma CreationStates(s1: Snapshot, r: Reply, again: Reply)
    requires Opened(s1.slot) && s1.slot.fixture.None? && !DashboardNameTaken(s1) && GoodReply(r) && GoodReply(again)
    ensures var s2 := WithModel(s1, r); var s3 := WithDashboard(s2, r);
      && !Provisionable(s1.(models := s2.models), again) && Provisionable(s2, again)
      && !Provisionable(s2.(dashboards := s3.dashboards), again) && Provisionable(s3, again)
      && Provisionable(s3.(slot := s3.slot.(provisioned := true)), again)
  {
    var s2 := WithModel(s1, r);
    var s3 := WithDashboard(s2, r);
    assert s2.models[r.modelId].name == ModelName(s1.slot.user);
    assert s3.dashboards[r.dashboardId].name == DashboardName(s1.slot.user);
  }

  /** The creating effects, in order. */
  function Creation(s1: Snapshot, r: Reply): seq<Effect> {
    var s2 := WithModel(s1, r);
    var s3 := WithDashboard(s2, r);
    [PostModel(r.modelId, ModelObject(ModelName(s1.slot.user), true)), Save(s2.slot),
     PostDashboard(r.dashboardId, DashboardObject(DashboardName(s1.slot.user), r.modelId, true)), Save(s3.slot),
     Save(s3.slot.(provisioned := true))]
  }

  lemma CutOfTwo(a: seq<Effect>, b: seq<Effect>, k: nat)
    ensures k <= |a| ==> Cut(a + b, k) == a[..k]
    ensures |a| < k <= |a| + |b| ==> Cut(a + b, k) == a + b[..k - |a|]
    ensures k > |a| + |b| ==> Cut(a + b, k) == a + b[..|b|]
  {
  }

  lemma RetryCondition(s: Snapshot, r: Reply, k: nat, again: Reply)
    requires Safe(s) && s.slot.fixture.None? && !s.slot.cleaning && !ModelNameTaken(s) && !DashboardNameTaken(s)
    requires GoodReply(r) && GoodReply(again)
    ensures var cut := Cut(Opening(s.slot, r) + Creation(s.(slot := OpenedSlot(s.slot, r)), r), k);
      Provisionable(ApplyAll(s, cut), again) <==> !EndsWithCreation(cut)
  {
    var opening := Opening(s.slot, r);
    var s1 := s.(slot := OpenedSlot(s.slot, r));
    CutOfTwo(opening, Creation(s1, r), k);
    if k <= |opening| {
      OpeningCut(s, r, k, again);
    } else {
      var j := if k - |opening| < 5 then k - |opening| else 5;
      OpeningWorks(s, r);
      ApplySplits(s, opening, Creation(s1, r)[..j]);
      CreationCut(s1, r, j, again);
      LastOfCut(opening, s1, r, j);
    }
  }

  lemma LastOfCut(opening: seq<Effect>, s1: Snapshot, r: Reply, j: nat)
    requires 0 < j <= 5
    ensures EndsWithCreation(opening + Creation(s1, r)[..j]) <==> j == 1 || j == 3
  {
    var all := opening + Creation(s1, r)[..j];
    assert all[|all| - 1] == Creation(s1, r)[j - 1];
  }

  /**
   A first provisioning that is interrupted can be repeated from the saved entry, unless the cut falls between
   the creation of an object and the write that records it: then the repetition meets the object's name and
   refuses. A repetition that is not refused ends with both objects recorded and intact.
   */
  lemma InterruptedProvisioning(s: Snapshot, r: Reply, k: nat, again: Reply)
    requires Safe(s) && s.slot.fixture.None? && !s.slot.cleaning && !ModelNameTaken(s) && !DashboardNameTaken(s)
    requires GoodReply(r) && GoodReply(again)
    ensures var effects := ProvisionTrace(s, r).effects; var t := Perform(s, Provision(r, k)); var retry := ProvisionTrace(t, again);
      && (retry.ok <==> !EndsWithCreation(Cut(effects, k)))
      && (retry.ok ==> Provisioned(ApplyAll(t, retry.effects)))
  {
    var effects := ProvisionTrace(s, r).effects;
    ProvisionWorks(s, r);
    CutIsAllowed(s, effects, k);
    AllAllowedIsSafe(s, Cut(effects, k));
    ProvisionWorks(Perform(s, Provision(r, k)), again);
    CreationTrace(s, r);
    RetryCondition(s, r, k, again);
  }
}
