/**
 One report author's fixture: a model and a dashboard created through the application, and the private
 registry that records which objects are owned. Registry and application are changed in alternation, and a
 run may be cut between any two of these effects.
 */
module Ledger {
  import opened Common

  datatype Kind = Model | Dashboard

  datatype Pending = Pending(kind: Kind, id: string)

  /** The ownership record: what exists, and what is about to be deleted. */
  datatype Fixture = Fixture(model: Option<string>, dashboard: Option<string>, pending: Option<Pending>)

  /** The account's registry entry. `cleaning` is set from the start of a cleanup to its end. */
  datatype Slot = Slot(user: string, account: Option<string>, provisioned: bool, cleaning: bool, fixture: Option<Fixture>)

  /** `intact`: owner, source and content are those of the fixture. */
  datatype ModelObject = ModelObject(name: string, intact: bool)
  datatype DashboardObject = DashboardObject(name: string, model: string, intact: bool)

  /** What survives a crash: the saved registry entry and the application's objects. */
  datatype Snapshot = Snapshot(slot: Slot, models: map<string, ModelObject>, dashboards: map<string, DashboardObject>)

  /** A single registry write or application effect. `Vanish` is somebody else's. */
  datatype Effect =
    | Save(slot: Slot)
    | PostModel(id: string, model: ModelObject)
    | PostDashboard(id: string, dashboard: DashboardObject)
    | Delete(kind: Kind, id: string)
    | Vanish(kind: Kind, id: string)

  function ModelName(user: string): string {
    "QA report-author model " + user
  }

  function DashboardName(user: string): string {
    "QA report-author dashboard " + user
  }

  predicate IsModelId(id: string) {
    |id| == 38 && id[..6] == "model_" && Hex(id[6..], 32)
  }

  predicate IsDashboardId(id: string) {
    |id| == 42 && id[..10] == "dashboard_" && Hex(id[10..], 32)
  }

  predicate IsId(kind: Kind, id: string) {
    match kind case Model => IsModelId(id) case Dashboard => IsDashboardId(id)
  }

  function Recorded(f: Fixture, kind: Kind): Option<string> {
    match kind case Model => f.model case Dashboard => f.dashboard
  }

  /** What the registry's validation demands of the ownership record. */
  predicate ValidFixture(f: Fixture) {
    && f.model.Some? && IsModelId(f.model.value)
    && (f.dashboard.Some? ==> IsDashboardId(f.dashboard.value))
    && (f.pending.Some? ==>
          && IsId(f.pending.value.kind, f.pending.value.id)
          && Recorded(f, f.pending.value.kind) == Some(f.pending.value.id)
          && (f.pending.value.kind.Model? ==> f.dashboard.None?))
  }

  predicate ValidSlot(slot: Slot) {
    slot.fixture.Some? ==> ValidFixture(slot.fixture.value)
  }

  function RemoveObject(s: Snapshot, kind: Kind, id: string): Snapshot {
    match kind
    case Model => s.(models := s.models - {id})
    case Dashboard => s.(dashboards := s.dashboards - {id})
  }

  function Apply(s: Snapshot, e: Effect): Snapshot {
    match e
    case Save(slot) => s.(slot := slot)
    case PostModel(id, model) => s.(models := s.models[id := model])
    case PostDashboard(id, dashboard) => s.(dashboards := s.dashboards[id := dashboard])
    case Delete(kind, id) => RemoveObject(s, kind, id)
    case Vanish(kind, id) => RemoveObject(s, kind, id)
  }

  function ApplyAll(s: Snapshot, effects: seq<Effect>): Snapshot
    decreases |effects|
  {
    if effects == [] then s else ApplyAll(Apply(s, effects[0]), effects[1..])
  }

  /** The effects a program performs one after the other, and whether it ends without an error. */
  datatype Trace = Trace(effects: seq<Effect>, ok: bool)

  // ----- the programs

  predicate ModelVerified(s: Snapshot, id: string) {
    id in s.models && s.models[id].name == ModelName(s.slot.user) && s.models[id].intact
  }

  predicate DashboardVerified(s: Snapshot, id: string, model: Option<string>) {
    && id in s.dashboards && s.dashboards[id].name == DashboardName(s.slot.user)
    && model == Some(s.dashboards[id].model) && s.dashboards[id].intact
  }

  predicate Exists(s: Snapshot, kind: Kind, id: string) {
    match kind case Model => id in s.models case Dashboard => id in s.dashboards
  }

  predicate Verified(s: Snapshot, kind: Kind, id: string, f: Fixture) {
    match kind case Model => ModelVerified(s, id) case Dashboard => DashboardVerified(s, id, f.model)
  }

  /** Announce a deletion; a different announcement is never replaced. */
  function Mark(f: Fixture, kind: Kind, id: string): Option<Fixture> {
    if f.pending.Some? && f.pending.value != Pending(kind, id) then None
    else Some(f.(pending := Some(Pending(kind, id))))
  }

  /** Drop an object that is gone; the record itself goes with its model. */
  function Forget(f: Fixture, kind: Kind, id: string): Option<Option<Fixture>> {
    if Recorded(f, kind) != Some(id) || (f.pending.Some? && f.pending.value != Pending(kind, id)) then None
    else
      match kind
      case Dashboard => Some(Some(f.(dashboard := None, pending := None)))
      case Model => Some(if f.dashboard.None? then None else Some(f.(model := None, pending := None)))
  }

  /** Remove one recorded object. `vanishes`: somebody else removes it between our look and our deletion. */
  function RemovePart(s: Snapshot, kind: Kind, vanishes: bool): Trace
    requires s.slot.fixture.Some?
  {
    var f := s.slot.fixture.value;
    if Recorded(f, kind).None? then Trace([], true)
    else
      var id := Recorded(f, kind).value;
      if !Exists(s, kind, id) then
        var forgotten := Forget(f, kind, id);
        if forgotten.None? then Trace([], false) else Trace([Save(s.slot.(fixture := forgotten.value))], true)
      else if !Verified(s, kind, id, f) then Trace([], false)
      else
        var marked := Mark(f, kind, id);
        if marked.None? then Trace([], false)
        else
          var forgotten := Forget(marked.value, kind, id);
          var deleted := [Save(s.slot.(fixture := marked))] + (if vanishes then [Vanish(kind, id)] else []) + [Delete(kind, id)];
          if forgotten.None? then Trace(deleted, false)
          else Trace(deleted + [Save(s.slot.(fixture := forgotten.value))], true)
  }

  function Begun(slot: Slot): Slot {
    slot.(provisioned := false, cleaning := true)
  }

  /** The dashboard first, then the model, then the end of the cleanup. */
  function CleanupTrace(s: Snapshot, dashboardVanishes: bool, modelVanishes: bool): Trace {
    if s.slot.fixture.None? then Trace(if s.slot.cleaning then [Save(s.slot.(cleaning := false))] else [], true)
    else if (!s.slot.provisioned && !s.slot.cleaning) || s.slot.account.None? then Trace([], false)
    else
      var s1 := Apply(s, Save(Begun(s.slot)));
      var d := RemovePart(s1, Dashboard, dashboardVanishes);
      var s2 := ApplyAll(s1, d.effects);
      if !d.ok || s2.slot.fixture.None? then Trace([Save(Begun(s.slot))] + d.effects, false)
      else
        var m := RemovePart(s2, Model, modelVanishes);
        var s3 := ApplyAll(s2, m.effects);
        if !m.ok then Trace([Save(Begun(s.slot))] + d.effects + m.effects, false)
        else Trace([Save(Begun(s.slot))] + d.effects + m.effects + [Save(s3.slot.(cleaning := false))], true)
  }

  /** What the application answers while a fixture is being created. */
  datatype Reply = Reply(account: string, hasOrders: bool, modelId: string, modelIntact: bool, dashboardId: string, dashboardIntact: bool)

  predicate ModelNameTaken(s: Snapshot) {
    exists id :: id in s.models && s.models[id].name == ModelName(s.slot.user)
  }

  predicate DashboardNameTaken(s: Snapshot) {
    exists id :: id in s.dashboards && s.dashboards[id].name == DashboardName(s.slot.user)
  }

  function EnsureModel(s: Snapshot, r: Reply): Trace {
    if s.slot.fixture.Some? && s.slot.fixture.value.model.Some? then
      Trace([], ModelVerified(s, s.slot.fixture.value.model.value))
    else if ModelNameTaken(s) || !r.hasOrders then Trace([], false)
    else
      var post := PostModel(r.modelId, ModelObject(ModelName(s.slot.user), r.modelIntact));
      if !IsModelId(r.modelId) then Trace([post], false)
      else Trace([post, Save(s.slot.(fixture := Some(Fixture(Some(r.modelId), None, None))))], r.modelIntact)
  }

  function EnsureDashboard(s: Snapshot, r: Reply): Trace
    requires s.slot.fixture.Some? && s.slot.fixture.value.model.Some?
  {
    var f := s.slot.fixture.value;
    if f.dashboard.Some? then Trace([], DashboardVerified(s, f.dashboard.value, f.model))
    else if DashboardNameTaken(s) then Trace([], false)
    else
      var post := PostDashboard(r.dashboardId, DashboardObject(DashboardName(s.slot.user), f.model.value, r.dashboardIntact));
      if !IsDashboardId(r.dashboardId) then Trace([post], false)
      else Trace([post, Save(s.slot.(fixture := Some(f.(dashboard := Some(r.dashboardId)))))], r.dashboardIntact)
  }

  /** The entry while it is being provisioned; the account is created first if there is none. */
  function Opening(slot: Slot, r: Reply): seq<Effect> {
    [Save(slot.(provisioned := false))] +
    if slot.account.Some? then [] else [Save(slot.(provisioned := false, account := Some(r.account)))]
  }

  /** The model, then the dashboard that shows it. */
  function EnsureTrace(s: Snapshot, r: Reply): Trace {
    var m := EnsureModel(s, r);
    var s' := ApplyAll(s, m.effects);
    if !m.ok || s'.slot.fixture.None? || s'.slot.fixture.value.model.None? then Trace(m.effects, false)
    else
      var d := EnsureDashboard(s', r);
      Trace(m.effects + d.effects, d.ok)
  }

  function ProvisionTrace(s: Snapshot, r: Reply): Trace {
    if s.slot.cleaning then Trace([], false)
    else
      var s1 := ApplyAll(s, Opening(s.slot, r));
      var e := EnsureTrace(s1, r);
      var s2 := ApplyAll(s1, e.effects);
      if !e.ok then Trace(Opening(s.slot, r) + e.effects, false)
      else Trace(Opening(s.slot, r) + e.effects + [Save(s2.slot.(provisioned := true))], true)
  }

  // ----- runs

  /** Each program may be cut after any number of its effects. Other people may change or remove objects and
      create further ones, but not under the fixture's names. */
  datatype Action =
    | Provision(reply: Reply, cut: nat)
    | Cleanup(dashboardVanishes: bool, modelVanishes: bool, cut: nat)
    | Outside(models: map<string, ModelObject>, dashboards: map<string, DashboardObject>)

  predicate Possible(s: Snapshot, a: Action) {
    match a
    case Provision(_, _) => true
    case Cleanup(_, _, _) => true
    case Outside(models, dashboards) =>
      && (forall id :: id in models && models[id].name == ModelName(s.slot.user) ==>
            id in s.models && s.models[id].name == ModelName(s.slot.user))
      && (forall id :: id in dashboards && dashboards[id].name == DashboardName(s.slot.user) ==>
            id in s.dashboards && s.dashboards[id].name == DashboardName(s.slot.user))
  }

  function Cut(effects: seq<Effect>, k: nat): seq<Effect> {
    if k < |effects| then effects[..k] else effects
  }

  function Perform(s: Snapshot, a: Action): Snapshot {
    match a
    case Provision(reply, k) => ApplyAll(s, Cut(ProvisionTrace(s, reply).effects, k))
    case Cleanup(dv, mv, k) => ApplyAll(s, Cut(CleanupTrace(s, dv, mv).effects, k))
    case Outside(models, dashboards) => s.(models := models, dashboards := dashboards)
  }

  function Run(s: Snapshot, actions: seq<Action>): Snapshot
    decreases |actions|
  {
    if actions == [] then s
    else Run(if Possible(s, actions[0]) then Perform(s, actions[0]) else s, actions[1..])
  }

  // ----- safety

  /** The saved entry validates, and its flags agree with its ownership record. */
  predicate Coherent(slot: Slot) {
    && ValidSlot(slot)
    && (slot.fixture.Some? ==> slot.account.Some?)
    && (slot.fixture.Some? && slot.fixture.value.pending.Some? ==> slot.cleaning)
    && (slot.cleaning ==> !slot.provisioned)
    && (slot.provisioned ==> slot.fixture.Some? && slot.fixture.value.dashboard.Some?)
  }

  ghost predicate OneModel(s: Snapshot) {
    forall i, j ::
      (&& i in s.models && s.models[i].name == ModelName(s.slot.user)
       && j in s.models && s.models[j].name == ModelName(s.slot.user)) ==> i == j
  }

  ghost predicate OneDashboard(s: Snapshot) {
    forall i, j ::
      (&& i in s.dashboards && s.dashboards[i].name == DashboardName(s.slot.user)
       && j in s.dashboards && s.dashboards[j].name == DashboardName(s.slot.user)) ==> i == j
  }

  ghost predicate Safe(s: Snapshot) {
    Coherent(s.slot) && OneModel(s) && OneDashboard(s)
  }

  /** The deletion is announced, and a model's comes after its dashboard's. */
  predicate Announced(slot: Slot, kind: Kind, id: string) {
    && slot.cleaning && !slot.provisioned && slot.fixture.Some?
    && slot.fixture.value.pending == Some(Pending(kind, id))
    && Recorded(slot.fixture.value, kind) == Some(id)
    && (kind.Model? ==> slot.fixture.value.dashboard.None?)
  }

  /** The rule each single effect keeps. */
  predicate Allowed(s: Snapshot, e: Effect) {
    match e
    case Save(slot) => Coherent(slot) && slot.user == s.slot.user
    case PostModel(id, model) =>
      s.slot.fixture.None? && !s.slot.provisioned && !s.slot.cleaning && !ModelNameTaken(s)
    case PostDashboard(id, dashboard) =>
      && s.slot.fixture.Some? && s.slot.fixture.value.dashboard.None? && !s.slot.provisioned && !s.slot.cleaning
      && Some(dashboard.model) == s.slot.fixture.value.model && !DashboardNameTaken(s)
    case Delete(kind, id) => Announced(s.slot, kind, id)
    case Vanish(_, _) => true
  }

  predicate AllAllowed(s: Snapshot, effects: seq<Effect>)
    decreases |effects|
  {
    effects == [] || (Allowed(s, effects[0]) && AllAllowed(Apply(s, effects[0]), effects[1..]))
  }

  lemma AllowedIsSafe(s: Snapshot, e: Effect)
    requires Safe(s) && Allowed(s, e)
    ensures Safe(Apply(s, e))
  {
  }

  lemma {:induction false} AllAllowedIsSafe(s: Snapshot, effects: seq<Effect>)
    requires Safe(s) && AllAllowed(s, effects)
    ensures Safe(ApplyAll(s, effects))
    decreases |effects|
  {
    if effects != [] {
      AllowedIsSafe(s, effects[0]);
      AllAllowedIsSafe(Apply(s, effects[0]), effects[1..]);
    }
  }

  lemma {:induction false} ApplySplits(s: Snapshot, a: seq<Effect>, b: seq<Effect>)
    ensures ApplyAll(s, a + b) == ApplyAll(ApplyAll(s, a), b)
    ensures AllAllowed(s, a + b) <==> AllAllowed(s, a) && AllAllowed(ApplyAll(s, a), b)
    decreases |a|
  {
    if a == [] {
      assert a + b == b;
    } else {
      assert (a + b)[1..] == a[1..] + b;
      ApplySplits(Apply(s, a[0]), a[1..], b);
    }
  }

  lemma ApplyOne(s: Snapshot, e: Effect)
    ensures ApplyAll(s, [e]) == Apply(s, e)
    ensures AllAllowed(s, [e]) <==> Allowed(s, e)
  {
    assert [e][1..] == [];
  }

  lemma ApplyTwo(s: Snapshot, e: Effect, g: Effect)
    ensures ApplyAll(s, [e, g]) == Apply(Apply(s, e), g)
    ensures AllAllowed(s, [e, g]) <==> Allowed(s, e) && Allowed(Apply(s, e), g)
  {
    ApplyOne(s, e);
    ApplyOne(Apply(s, e), g);
    ApplySplits(s, [e], [g]);
    assert [e] + [g] == [e, g];
  }

  lemma CutIsAllowed(s: Snapshot, effects: seq<Effect>, k: nat)
    requires AllAllowed(s, effects)
    ensures AllAllowed(s, Cut(effects, k))
  {
    if k < |effects| {
      assert effects == effects[..k] + effects[k..];
      ApplySplits(s, effects[..k], effects[k..]);
    }
  }
}
