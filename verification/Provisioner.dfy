/** The ledger programs as they work in place: a working copy of the entry, the saved entry, and the application. */
module ProvisionerObject {
  import opened Common
  import opened Ledger

  class Provisioner {
    /** The working copy; lost in a crash. */
    var slot: Slot
    var saved: Slot
    var models: map<string, ModelObject>
    var dashboards: map<string, DashboardObject>
    /** Every effect performed so far, in order. */
    ghost var log: seq<Effect>

    function World(): Snapshot
      reads this
    {
      Snapshot(saved, models, dashboards)
    }

    /** The effects performed since `before`, and what they made of the world. */
    twostate predicate Performed(effects: seq<Effect>)
      reads this
    {
      log == old(log) + effects && World() == ApplyAll(old(World()), effects)
    }

    constructor (entry: Slot, models: map<string, ModelObject>, dashboards: map<string, DashboardObject>)
      ensures slot == entry && log == [] && World() == Snapshot(entry, models, dashboards)
    {
      slot, saved := entry, entry;
      this.models, this.dashboards := models, dashboards;
      log := [];
    }

    method Write()
      modifies this
      ensures slot == old(slot) && Performed([Save(slot)]) && saved == slot
    {
      ApplyOne(World(), Save(slot));
      saved := slot;
      log := log + [Save(slot)];
    }

    method MarkCleanup(kind: Kind, id: string) returns (ok: bool)
      requires slot == saved && slot.fixture.Some?
      modifies this
      ensures slot == saved
      ensures var marked := Mark(old(slot).fixture.value, kind, id);
        && ok == marked.Some?
        && (if ok then slot == old(slot).(fixture := marked) && Performed([Save(slot)]) else slot == old(slot) && Performed([]))
    {
      var fixture := slot.fixture.value;
      if fixture.pending.Some? && fixture.pending.value != Pending(kind, id) { return false; }
      slot := slot.(fixture := Some(fixture.(pending := Some(Pending(kind, id)))));
      Write();
      return true;
    }

    method ForgetResource(kind: Kind, id: string) returns (ok: bool)
      requires slot == saved && slot.fixture.Some?
      modifies this
      ensures slot == saved
      ensures var forgotten := Forget(old(slot).fixture.value, kind, id);
        && ok == forgotten.Some?
        && (if ok then slot == old(slot).(fixture := forgotten.value) && Performed([Save(slot)]) else slot == old(slot) && Performed([]))
    {
      var fixture := slot.fixture.value;
      if Recorded(fixture, kind) != Some(id) { return false; }
      if fixture.pending.Some? && fixture.pending.value != Pending(kind, id) { return false; }
      fixture := if kind.Dashboard? then fixture.(dashboard := None) else fixture.(model := None);
      fixture := fixture.(pending := None);
      slot := slot.(fixture := Some(fixture));
      if kind.Model? && fixture == Fixture(None, None, None) { slot := slot.(fixture := None); }
      Write();
      return true;
    }

    method RemoveFromApplication(kind: Kind, id: string, effect: Effect)
      requires effect == Delete(kind, id) || effect == Vanish(kind, id)
      modifies this
      ensures slot == old(slot) && saved == old(saved) && Performed([effect])
    {
      ApplyOne(World(), effect);
      if kind.Model? { models := models - {id}; } else { dashboards := dashboards - {id}; }
      log := log + [effect];
    }

    /** The deletion itself; by then somebody else may have removed the object. */
    method DeleteResource(kind: Kind, id: string, vanishes: bool)
      modifies this
      ensures slot == old(slot) && saved == old(saved)
      ensures Performed((if vanishes then [Vanish(kind, id)] else []) + [Delete(kind, id)])
    {
      ghost var before := World();
      if vanishes {
        RemoveFromApplication(kind, id, Vanish(kind, id));
        ApplySplits(before, [Vanish(kind, id)], [Delete(kind, id)]);
        RemoveFromApplication(kind, id, Delete(kind, id));
        assert log == old(log) + ([Vanish(kind, id)] + [Delete(kind, id)]);
      } else {
        RemoveFromApplication(kind, id, Delete(kind, id));
        assert [] + [Delete(kind, id)] == [Delete(kind, id)];
      }
    }

    /** Announce, delete, forget. */
    method RemoveExisting(kind: Kind, id: string, vanishes: bool) returns (ok: bool)
      requires slot == saved && slot.fixture.Some? && Recorded(slot.fixture.value, kind) == Some(id)
      requires Exists(World(), kind, id) && Verified(World(), kind, id, slot.fixture.value)
      modifies this
      ensures slot == saved
      ensures var t := RemovePart(old(World()), kind, vanishes); ok == t.ok && Performed(t.effects)
    {
      ghost var before := World();
      ok := MarkCleanup(kind, id);
      if !ok { return false; }
      ghost var marked := [Save(slot)];
      ghost var deleted := (if vanishes then [Vanish(kind, id)] else []) + [Delete(kind, id)];
      DeleteResource(kind, id, vanishes);
      ApplySplits(before, marked, deleted);
      ghost var log1 := log;
      ok := ForgetResource(kind, id);
      ApplySplits(before, marked + deleted, [Save(slot)]);
      assert marked + deleted == marked + (if vanishes then [Vanish(kind, id)] else []) + [Delete(kind, id)];
      assert log1 == old(log) + (marked + deleted);
    }

    method RemoveResource(kind: Kind, vanishes: bool) returns (ok: bool)
      requires slot == saved && slot.fixture.Some?
      modifies this
      ensures slot == saved
      ensures var t := RemovePart(old(World()), kind, vanishes); ok == t.ok && Performed(t.effects)
    {
      var recorded := Recorded(slot.fixture.value, kind);
      if recorded.None? { return true; }
      var id := recorded.value;
      if !Exists(World(), kind, id) {
        ok := ForgetResource(kind, id);
      } else if !Verified(World(), kind, id, slot.fixture.value) {
        ok := false;
      } else {
        ok := RemoveExisting(kind, id, vanishes);
      }
    }

    /** The saved entry is read back and validated; then the dashboard and the model are removed. */
    method CleanupFixture(dashboardVanishes: bool, modelVanishes: bool) returns (ok: bool)
      modifies this
      ensures !ValidSlot(old(saved)) ==> !ok && Performed([])
      ensures ValidSlot(old(saved)) ==>
        var t := CleanupTrace(old(World()), dashboardVanishes, modelVanishes); ok == t.ok && Performed(t.effects)
    {
      ghost var before := World();
      if !ValidSlot(saved) { return false; }
      slot := saved;
      if slot.fixture.None? {
        if slot.cleaning {
          slot := slot.(cleaning := false);
          Write();
        }
        return true;
      }
      if (!slot.provisioned && !slot.cleaning) || slot.account.None? { return false; }
      slot := slot.(provisioned := false, cleaning := true);
      Write();
      ghost var s1, done := World(), [Save(slot)];
      ok := RemoveResource(Dashboard, dashboardVanishes);
      ghost var d := RemovePart(s1, Dashboard, dashboardVanishes);
      ApplySplits(before, done, d.effects);
      JoinLogs(old(log), done, d.effects);
      done := done + d.effects;
      if !ok || slot.fixture.None? { return false; }
      ghost var s2 := World();
      ok := RemoveResource(Model, modelVanishes);
      ghost var m := RemovePart(s2, Model, modelVanishes);
      ApplySplits(before, done, m.effects);
      JoinLogs(old(log), done, m.effects);
      done := done + m.effects;
      if !ok { return false; }
      slot := slot.(cleaning := false);
      Write();
      ApplySplits(before, done, [Save(slot)]);
      JoinLogs(old(log), done, [Save(slot)]);
    }

    /** Verify the recorded model, or create one under a free name and record it. */
    method EnsureModelPart(r: Reply) returns (ok: bool)
      requires slot == saved && ValidSlot(slot)
      modifies this
      ensures var t := EnsureModel(old(World()), r); ok == t.ok && Performed(t.effects)
      ensures ok ==> slot == saved
    {
      ghost var before := World();
      if slot.fixture.None? { slot := slot.(fixture := Some(Fixture(None, None, None))); }
      var fixture := slot.fixture.value;
      if fixture.model.Some? {
        return ModelVerified(World(), fixture.model.value);
      }
      if ModelNameTaken(World()) || !r.hasOrders { return false; }
      ghost var post := PostModel(r.modelId, ModelObject(ModelName(slot.user), r.modelIntact));
      ApplyOne(before, post);
      models := models[r.modelId := ModelObject(ModelName(slot.user), r.modelIntact)];
      log := log + [post];
      if !IsModelId(r.modelId) { return false; }
      slot := slot.(fixture := Some(fixture.(model := Some(r.modelId))));
      Write();
      ApplyTwo(before, post, Save(slot));
      assert [post] + [Save(slot)] == [post, Save(slot)];
      return r.modelIntact;
    }

    method EnsureDashboardPart(r: Reply) returns (ok: bool)
      requires slot == saved && slot.fixture.Some? && slot.fixture.value.model.Some?
      modifies this
      ensures var t := EnsureDashboard(old(World()), r); ok == t.ok && Performed(t.effects)
      ensures ok ==> slot == saved
    {
      ghost var before := World();
      var fixture := slot.fixture.value;
      if fixture.dashboard.Some? {
        return DashboardVerified(World(), fixture.dashboard.value, fixture.model);
      }
      if DashboardNameTaken(World()) { return false; }
      var created := DashboardObject(DashboardName(slot.user), fixture.model.value, r.dashboardIntact);
      ghost var post := PostDashboard(r.dashboardId, created);
      ApplyOne(before, post);
      dashboards := dashboards[r.dashboardId := created];
      log := log + [post];
      if !IsDashboardId(r.dashboardId) { return false; }
      slot := slot.(fixture := Some(fixture.(dashboard := Some(r.dashboardId))));
      Write();
      ApplyTwo(before, post, Save(slot));
      assert [post] + [Save(slot)] == [post, Save(slot)];
      return r.dashboardIntact;
    }

    /** The account is withdrawn from use while it is being provisioned. */
    method Open(r: Reply)
      requires slot == saved
      modifies this
      ensures slot == saved && slot.cleaning == old(slot.cleaning) && slot.fixture == old(slot.fixture)
      ensures Performed(Opening(old(slot), r))
    {
      ghost var before := World();
      slot := slot.(provisioned := false);
      Write();
      ghost var first := [Save(slot)];
      if slot.account.None? {
        slot := slot.(account := Some(r.account));
        Write();
        ApplySplits(before, first, [Save(slot)]);
        assert Opening(before.slot, r) == first + [Save(slot)];
        assert log == old(log) + (first + [Save(slot)]);
      } else {
        assert Opening(before.slot, r) == first;
      }
    }

    /** The model, then the dashboard that shows it. */
    method EnsureFixture(r: Reply) returns (ok: bool)
      requires slot == saved && ValidSlot(slot)
      modifies this
      ensures var t := EnsureTrace(old(World()), r); ok == t.ok && Performed(t.effects)
      ensures ok ==> slot == saved
    {
      ghost var before := World();
      ok := EnsureModelPart(r);
      ghost var m := EnsureModel(before, r);
      if !ok || slot.fixture.None? || slot.fixture.value.model.None? { return false; }
      ghost var s2 := World();
      ok := EnsureDashboardPart(r);
      ghost var d := EnsureDashboard(s2, r);
      ApplySplits(before, m.effects, d.effects);
      assert log == old(log) + (m.effects + d.effects);
    }

    method ProvisionOpened(r: Reply) returns (ok: bool)
      requires slot == saved && ValidSlot(slot)
      modifies this
      ensures var t := EnsureTrace(old(World()), r);
        ok == t.ok && Performed(t.effects + if ok then [Save(ApplyAll(old(World()), t.effects).slot.(provisioned := true))] else [])
    {
      ghost var before := World();
      ok := EnsureFixture(r);
      ghost var effects := EnsureTrace(before, r).effects;
      if !ok {
        assert effects + [] == effects;
        return false;
      }
      slot := slot.(provisioned := true);
      Write();
      ApplySplits(before, effects, [Save(slot)]);
    }

    method ProvisionLoaded(r: Reply) returns (ok: bool)
      requires slot == saved && ValidSlot(slot) && !slot.cleaning
      modifies this
      ensures var t := ProvisionTrace(old(World()), r); ok == t.ok && Performed(t.effects)
    {
      ghost var before, log0 := World(), log;
      Open(r);
      ghost var s1, log1 := World(), log;
      ok := ProvisionOpened(r);
      ProvisionParts(before, r, s1, log0, log1, log, World());
    }

    method ProvisionFixture(r: Reply) returns (ok: bool)
      modifies this
      ensures !ValidSlot(old(saved)) ==> !ok && Performed([])
      ensures ValidSlot(old(saved)) ==> var t := ProvisionTrace(old(World()), r); ok == t.ok && Performed(t.effects)
    {
      if !ValidSlot(saved) { return false; }
      slot := saved;
      if slot.cleaning { return false; }
      ok := ProvisionLoaded(r);
    }
  }

  lemma JoinLogs(a: seq<Effect>, b: seq<Effect>, c: seq<Effect>)
    ensures a + b + c == a + (b + c)
  {
  }

  /** A provisioning is its opening writes followed by the rest. */
  lemma ProvisionIsOpeningAndRest(s: Snapshot, r: Reply, s1: Snapshot, e: Trace, rest: seq<Effect>)
    requires !s.slot.cleaning && s1 == ApplyAll(s, Opening(s.slot, r)) && e == EnsureTrace(s1, r)
    requires rest == e.effects + if e.ok then [Save(ApplyAll(s1, e.effects).slot.(provisioned := true))] else []
    ensures ProvisionTrace(s, r) == Trace(Opening(s.slot, r) + rest, e.ok)
  {
    assert e.ok || e.effects + [] == e.effects;
    JoinLogs(Opening(s.slot, r), e.effects, [Save(ApplyAll(s1, e.effects).slot.(provisioned := true))]);
  }

  lemma ProvisionParts(s: Snapshot, r: Reply, s1: Snapshot, log0: seq<Effect>, log1: seq<Effect>, log2: seq<Effect>, s2: Snapshot)
    requires !s.slot.cleaning && s1 == ApplyAll(s, Opening(s.slot, r)) && log1 == log0 + Opening(s.slot, r)
    requires var e := EnsureTrace(s1, r);
      var rest := e.effects + if e.ok then [Save(ApplyAll(s1, e.effects).slot.(provisioned := true))] else [];
      log2 == log1 + rest && s2 == ApplyAll(s1, rest)
    ensures var t := ProvisionTrace(s, r);
      t.ok == EnsureTrace(s1, r).ok && log2 == log0 + t.effects && s2 == ApplyAll(s, t.effects)
  {
    var e := EnsureTrace(s1, r);
    var rest := e.effects + if e.ok then [Save(ApplyAll(s1, e.effects).slot.(provisioned := true))] else [];
    ProvisionIsOpeningAndRest(s, r, s1, e, rest);
    ApplySplits(s, Opening(s.slot, r), rest);
    JoinLogs(log0, Opening(s.slot, r), rest);
  }
}
