/**
 Session directories and the processes that own them: supervisors create and close sessions, guardians and
 other launchers' sweepers remove abandoned ones, and processes are born, die and have their numbers reused
 in between. Every reading of the process table is a step of its own.
 */
module Sessions {
  import opened Common

  /** A process number together with the clock tick at which the process was born. */
  datatype Identity = Identity(pid: nat, tick: nat)

  /** `live` is the process table; `last` is the latest birth tick each number was ever given. */
  datatype World = World(now: nat, live: map<nat, nat>, last: map<nat, nat>)

  /** The session is launching until its child is recorded; from then on it is running. */
  datatype Metadata = Metadata(owner: Identity, child: Option<Identity>, guardian: Option<Identity>)

  /**
   A sweeper reads the metadata (`Opened`), finds no guardian (`Read`), no supervisor (`Unguarded`) and no
   child (`OwnerGone`), and removes. A guardian alternates between reading the supervisor (`Watching`) and
   the child (`WatchedOwner`) until it removes.
   */
  datatype Actor =
    | Opened(dir: nat)
    | Read(dir: nat, data: Metadata)
    | Unguarded(dir: nat, data: Metadata)
    | OwnerGone(dir: nat, data: Metadata)
    | Watching(dir: nat, data: Metadata)
    | WatchedOwner(dir: nat, data: Metadata, ownerAlive: bool)
    | Removing(dir: nat, data: Metadata)
    | Finished

  /** `used` are the directory identities ever given out. */
  datatype State = State(world: World, dirs: map<nat, Metadata>, used: set<nat>, actors: map<nat, Actor>)

  datatype Event =
    | Tick
    | Spawn(pid: nat)
    | Kill(pid: nat)
    | Create(dir: nat, pid: nat)
    | RecordChild(dir: nat, pid: nat)
    | StartGuardian(dir: nat, actor: nat)
    | RecordGuardian(dir: nat, pid: nat)
    | Close(dir: nat)
    | OpenSweep(dir: nat, actor: nat)
    | Act(actor: nat)

  function Init(): State {
    State(World(0, map[], map[]), map[], {}, map[])
  }

  /** The number still has the recorded birth tick. */
  predicate Alive(w: World, id: Identity) {
    id.pid in w.live && w.live[id.pid] == id.tick
  }

  /** The identity was given to some process, perhaps long ago. */
  predicate Born(w: World, id: Identity) {
    id.pid in w.last && id.tick <= w.last[id.pid]
  }

  predicate Gone(w: World, id: Identity) {
    Born(w, id) && !Alive(w, id)
  }

  /** The system does not give one number to two processes within one tick. */
  predicate CanSpawn(w: World, pid: nat) {
    pid !in w.live && (pid in w.last ==> w.last[pid] < w.now)
  }

  predicate Enabled(s: State, e: Event) {
    match e
    case Tick => true
    case Spawn(pid) => CanSpawn(s.world, pid)
    case Kill(pid) => pid in s.world.live
    case Create(dir, pid) => dir !in s.used && pid in s.world.live
    case RecordChild(dir, pid) =>
      dir in s.dirs && Alive(s.world, s.dirs[dir].owner) && s.dirs[dir].child.None? && pid in s.world.live
    case StartGuardian(dir, actor) =>
      dir in s.dirs && Alive(s.world, s.dirs[dir].owner) && s.dirs[dir].child.Some? && actor !in s.actors
    case RecordGuardian(dir, pid) =>
      dir in s.dirs && Alive(s.world, s.dirs[dir].owner) && s.dirs[dir].child.Some? && pid in s.world.live
    case Close(dir) =>
      && dir in s.dirs && Alive(s.world, s.dirs[dir].owner)
      && (s.dirs[dir].child.Some? ==> !Alive(s.world, s.dirs[dir].child.value))
    case OpenSweep(dir, actor) => actor !in s.actors
    case Act(actor) => actor in s.actors
  }

  /** What the actor knows after its next reading of the world `w` and of the directories. */
  function Advance(a: Actor, w: World, dirs: map<nat, Metadata>): Actor {
    match a
    case Opened(dir) => if dir in dirs && dirs[dir].child.Some? then Read(dir, dirs[dir]) else Finished
    case Read(dir, data) => if data.guardian.Some? && Alive(w, data.guardian.value) then Finished else Unguarded(dir, data)
    case Unguarded(dir, data) => if Alive(w, data.owner) then Finished else OwnerGone(dir, data)
    case OwnerGone(dir, data) =>
      if data.child.Some? && Alive(w, data.child.value) then Finished else Removing(dir, data)
    case Watching(dir, data) => WatchedOwner(dir, data, Alive(w, data.owner))
    case WatchedOwner(dir, data, ownerAlive) =>
      if ownerAlive || (data.child.Some? && Alive(w, data.child.value)) then Watching(dir, data) else Removing(dir, data)
    case Removing(_, _) => Finished
    case Finished => Finished
  }

  function IdentityOf(w: World, pid: nat): Identity
    requires pid in w.live
  {
    Identity(pid, w.live[pid])
  }

  function Step(s: State, e: Event): State
    requires Enabled(s, e)
  {
    match e
    case Tick => s.(world := s.world.(now := s.world.now + 1))
    case Spawn(pid) =>
      s.(world := s.world.(live := s.world.live[pid := s.world.now], last := s.world.last[pid := s.world.now]))
    case Kill(pid) => s.(world := s.world.(live := s.world.live - {pid}))
    case Create(dir, pid) =>
      s.(dirs := s.dirs[dir := Metadata(IdentityOf(s.world, pid), None, None)], used := s.used + {dir})
    case RecordChild(dir, pid) =>
      s.(dirs := s.dirs[dir := s.dirs[dir].(child := Some(IdentityOf(s.world, pid)))])
    case StartGuardian(dir, actor) => s.(actors := s.actors[actor := Watching(dir, s.dirs[dir])])
    case RecordGuardian(dir, pid) =>
      s.(dirs := s.dirs[dir := s.dirs[dir].(guardian := Some(IdentityOf(s.world, pid)))])
    case Close(dir) => s.(dirs := s.dirs - {dir})
    case OpenSweep(dir, actor) => s.(actors := s.actors[actor := Opened(dir)])
    case Act(actor) =>
      var a := s.actors[actor];
      s.(actors := s.actors[actor := Advance(a, s.world, s.dirs)],
         dirs := if a.Removing? then s.dirs - {a.dir} else s.dirs)
  }

  /** A run is any interleaving; an event that cannot happen is passed over. */
  function Run(s: State, events: seq<Event>): State
    decreases |events|
  {
    if events == [] then s
    else Run(if Enabled(s, events[0]) then Step(s, events[0]) else s, events[1..])
  }

  // ----- a dead identity stays dead

  ghost predicate WorldOk(w: World) {
    && (forall pid :: pid in w.live ==> pid in w.last && w.live[pid] == w.last[pid])
    && (forall pid :: pid in w.last ==> w.last[pid] <= w.now)
  }

  lemma StepKeepsWorld(s: State, e: Event)
    requires WorldOk(s.world) && Enabled(s, e)
    ensures WorldOk(Step(s, e).world)
    ensures forall id :: Born(s.world, id) ==> Born(Step(s, e).world, id)
    ensures forall id :: Gone(s.world, id) ==> Gone(Step(s, e).world, id)
  {
  }

  lemma {:induction false} DeadNeverRevives(s: State, events: seq<Event>, id: Identity)
    requires WorldOk(s.world) && Gone(s.world, id)
    ensures Gone(Run(s, events).world, id)
    decreases |events|
  {
    if events != [] && Enabled(s, events[0]) {
      StepKeepsWorld(s, events[0]);
      DeadNeverRevives(Step(s, events[0]), events[1..], id);
    } else if events != [] {
      DeadNeverRevives(s, events[1..], id);
    }
  }

  // ----- what every actor knows is still true

  predicate DataOk(w: World, d: Metadata) {
    && Born(w, d.owner)
    && (d.child.Some? ==> Born(w, d.child.value))
  }

  predicate BothGone(w: World, d: Metadata) {
    Gone(w, d.owner) && d.child.Some? && Gone(w, d.child.value)
  }

  /** The actor's copy names the directory's own supervisor and child. */
  predicate CopyOk(dirs: map<nat, Metadata>, used: set<nat>, dir: nat, d: Metadata) {
    && dir in used && d.child.Some?
    && (dir in dirs ==> dirs[dir].owner == d.owner && dirs[dir].child == d.child)
  }

  predicate ActorOk(w: World, dirs: map<nat, Metadata>, used: set<nat>, a: Actor) {
    a.Opened? || a.Finished? ||
    (&& CopyOk(dirs, used, a.dir, a.data) && DataOk(w, a.data)
     && (a.OwnerGone? || (a.WatchedOwner? && !a.ownerAlive) ==> Gone(w, a.data.owner))
     && (a.Removing? ==> BothGone(w, a.data)))
  }

  ghost predicate Good(s: State) {
    && WorldOk(s.world)
    && s.dirs.Keys <= s.used
    && (forall dir :: dir in s.dirs ==> DataOk(s.world, s.dirs[dir]))
    && (forall k :: k in s.actors ==> ActorOk(s.world, s.dirs, s.used, s.actors[k]))
  }

  /** Directories only disappear, appear under an unused identity, or keep the recorded owners. */
  predicate DirsEvolve(dirs: map<nat, Metadata>, used: set<nat>, dirs': map<nat, Metadata>) {
    forall dir :: dir in dirs' && dir in used ==>
      && dir in dirs && dirs'[dir].owner == dirs[dir].owner
      && (dirs[dir].child.Some? ==> dirs'[dir].child == dirs[dir].child)
  }

  lemma StepEvolves(s: State, e: Event)
    requires Good(s) && Enabled(s, e)
    ensures DirsEvolve(s.dirs, s.used, Step(s, e).dirs) && s.used <= Step(s, e).used
    ensures Step(s, e).dirs.Keys <= Step(s, e).used
    ensures forall dir :: dir in Step(s, e).dirs ==> DataOk(Step(s, e).world, Step(s, e).dirs[dir])
  {
    StepKeepsWorld(s, e);
  }

  lemma ActorStaysOk(s: State, e: Event, a: Actor)
    requires Good(s) && Enabled(s, e) && ActorOk(s.world, s.dirs, s.used, a)
    ensures ActorOk(Step(s, e).world, Step(s, e).dirs, Step(s, e).used, a)
  {
    StepKeepsWorld(s, e);
    StepEvolves(s, e);
  }

  lemma AdvanceOk(s: State, a: Actor)
    requires Good(s) && ActorOk(s.world, s.dirs, s.used, a)
    ensures ActorOk(s.world, s.dirs, s.used, Advance(a, s.world, s.dirs))
  {
  }

  lemma StepGood(s: State, e: Event)
    requires Good(s) && Enabled(s, e)
    ensures Good(Step(s, e))
  {
    var s' := Step(s, e);
    StepKeepsWorld(s, e);
    StepEvolves(s, e);
    forall k | k in s'.actors ensures ActorOk(s'.world, s'.dirs, s'.used, s'.actors[k]) {
      if e.Act? && k == e.actor {
        AdvanceOk(s, s.actors[k]);
        ActorStaysOk(s, e, Advance(s.actors[k], s.world, s.dirs));
      } else if k in s.actors {
        ActorStaysOk(s, e, s.actors[k]);
      }
    }
  }

  lemma {:induction false} RunGood(s: State, events: seq<Event>)
    requires Good(s)
    ensures Good(Run(s, events))
    decreases |events|
  {
    if events != [] && Enabled(s, events[0]) {
      StepGood(s, events[0]);
      RunGood(Step(s, events[0]), events[1..]);
    } else if events != [] {
      RunGood(s, events[1..]);
    }
  }

  // ----- main results

  /**
   In every run, a directory disappears only when its own live supervisor closes it after the child is gone,
   or when its recorded supervisor and its recorded child are both gone for good. In particular a session
   whose child was never recorded is removed by nobody but its supervisor.
   */
  lemma RemovalNeedsDeadOwners(events: seq<Event>, e: Event, dir: nat)
    requires var s := Run(Init(), events); Enabled(s, e) && dir in s.dirs && dir !in Step(s, e).dirs
    ensures var s := Run(Init(), events);
      || BothGone(s.world, s.dirs[dir])
      || (e == Close(dir) && Alive(s.world, s.dirs[dir].owner)
          && (s.dirs[dir].child.Some? ==> !Alive(s.world, s.dirs[dir].child.value)))
  {
    RunGood(Init(), events);
    var s := Run(Init(), events);
    if e.Act? {
      assert ActorOk(s.world, s.dirs, s.used, s.actors[e.actor]);
    }
  }

  /**
   Removal is gradual: from the moment an actor decides, and however long it takes, neither recorded owner
   of that directory is alive, whatever happens in between.
   */
  lemma RemoversNeverMeetLiveOwners(events: seq<Event>, later: seq<Event>, actor: nat)
    requires var s := Run(Init(), events); actor in s.actors && s.actors[actor].Removing?
    ensures var s := Run(Init(), events); var a := s.actors[actor]; var s' := Run(s, later);
      && !Alive(s'.world, a.data.owner) && a.data.child.Some? && !Alive(s'.world, a.data.child.value)
      && (a.dir in s'.dirs ==> s'.dirs[a.dir].owner == a.data.owner && s'.dirs[a.dir].child == a.data.child)
  {
    RunGood(Init(), events);
    var s := Run(Init(), events);
    var a := s.actors[actor];
    assert ActorOk(s.world, s.dirs, s.used, a);
    DeadNeverRevives(s, later, a.data.owner);
    DeadNeverRevives(s, later, a.data.child.value);
    CopiesStayCurrent(s, later, a);
  }

  lemma {:induction false} CopiesStayCurrent(s: State, events: seq<Event>, a: Actor)
    requires Good(s) && ActorOk(s.world, s.dirs, s.used, a)
    ensures Good(Run(s, events)) && ActorOk(Run(s, events).world, Run(s, events).dirs, Run(s, events).used, a)
    decreases |events|
  {
    if events != [] && Enabled(s, events[0]) {
      StepGood(s, events[0]);
      ActorStaysOk(s, events[0], a);
      CopiesStayCurrent(Step(s, events[0]), events[1..], a);
    } else if events != [] {
      CopiesStayCurrent(s, events[1..], a);
    }
  }

  // ----- what was recorded

  /** The step records the identity that the process has at that moment as this directory's supervisor. */
  predicate RecordsOwner(s: State, e: Event, dir: nat, id: Identity) {
    e.Create? && e.dir == dir && Enabled(s, e) && id.pid == e.pid && Alive(s.world, id)
  }

  predicate RecordsChild(s: State, e: Event, dir: nat, id: Identity) {
    e.RecordChild? && e.dir == dir && Enabled(s, e) && id.pid == e.pid && Alive(s.world, id)
  }

  function Next(s: State, e: Event): State {
    if Enabled(s, e) then Step(s, e) else s
  }

  lemma StepRecords(s: State, e: Event, dir: nat)
    requires Good(s) && dir in Next(s, e).dirs
    ensures var d := Next(s, e).dirs[dir];
      && ((dir in s.dirs && s.dirs[dir].owner == d.owner) || RecordsOwner(s, e, dir, d.owner))
      && (d.child.Some? ==> (dir in s.dirs && s.dirs[dir].child == d.child) || RecordsChild(s, e, dir, d.child.value))
  {
  }

  ghost predicate OwnerRecorded(events: seq<Event>, dir: nat, id: Identity) {
    exists i :: 0 <= i < |events| && RecordsOwner(Run(Init(), events[..i]), events[i], dir, id)
  }

  ghost predicate ChildRecorded(events: seq<Event>, dir: nat, id: Identity) {
    exists i :: 0 <= i < |events| && RecordsChild(Run(Init(), events[..i]), events[i], dir, id)
  }

  lemma RecordedLonger(events: seq<Event>, dir: nat, id: Identity)
    requires events != []
    ensures OwnerRecorded(events[..|events| - 1], dir, id) ==> OwnerRecorded(events, dir, id)
    ensures ChildRecorded(events[..|events| - 1], dir, id) ==> ChildRecorded(events, dir, id)
  {
    var before := events[..|events| - 1];
    forall i | 0 <= i < |before| ensures before[..i] == events[..i] {
    }
  }

  /**
   In every run the identities in a directory are those that its supervisor had when it created the directory, and that
   its child had when it was recorded there.
   */
  lemma {:induction false} IdentitiesAreRecorded(events: seq<Event>, dir: nat)
    requires dir in Run(Init(), events).dirs
    ensures var d := Run(Init(), events).dirs[dir];
      OwnerRecorded(events, dir, d.owner) && (d.child.Some? ==> ChildRecorded(events, dir, d.child.value))
    decreases |events|
  {
    if events != [] {
      var n := |events| - 1;
      var before, e := events[..n], events[n];
      assert before + [e] == events;
      RunSplits(Init(), before, [e]);
      assert [e][1..] == [];
      RunGood(Init(), before);
      var s := Run(Init(), before);
      StepRecords(s, e, dir);
      var d := Run(Init(), events).dirs[dir];
      if dir in s.dirs { IdentitiesAreRecorded(before, dir); }
      RecordedLonger(events, dir, d.owner);
      if d.child.Some? { RecordedLonger(events, dir, d.child.value); }
    }
  }

  /** A directory that an undisturbed sweep would remove. */
  predicate Orphan(w: World, dirs: map<nat, Metadata>, dir: nat) {
    && dir in dirs && dirs[dir].child.Some?
    && (dirs[dir].guardian.Some? ==> !Alive(w, dirs[dir].guardian.value))
    && !Alive(w, dirs[dir].owner) && !Alive(w, dirs[dir].child.value)
  }

  /** A sweep that nothing interrupts removes the directory exactly when it is an orphan. */
  lemma SweepRemovesExactlyOrphans(s: State, dir: nat, actor: nat)
    requires actor !in s.actors && dir in s.dirs
    ensures var sweep := [OpenSweep(dir, actor), Act(actor), Act(actor), Act(actor), Act(actor), Act(actor)];
      dir !in Run(s, sweep).dirs <==> Orphan(s.world, s.dirs, dir)
  {
    var act := Act(actor);
    var s0 := Step(s, OpenSweep(dir, actor));
    var s1 := Step(s0, act);
    var s2 := Step(s1, act);
    var s3 := Step(s2, act);
    var s4 := Step(s3, act);
    var s5 := Step(s4, act);
    assert dir !in s5.dirs <==> Orphan(s.world, s.dirs, dir);
    RunFirst(s4, act, []);
    RunFirst(s3, act, [act]);
    RunFirst(s2, act, [act, act]);
    RunFirst(s1, act, [act, act, act]);
    RunFirst(s0, act, [act, act, act, act]);
    RunFirst(s, OpenSweep(dir, actor), [act, act, act, act, act]);
  }

  lemma RunFirst(s: State, e: Event, rest: seq<Event>)
    requires Enabled(s, e)
    ensures Run(s, [e] + rest) == Run(Step(s, e), rest)
  {
    assert ([e] + rest)[1..] == rest;
  }

  // ----- the guardian finishes

  /** How many readings a guardian needs once both owners are gone; none when the directory is gone too. */
  function ReadingsLeft(s: State, actor: nat, dir: nat): nat {
    if dir !in s.dirs then 0
    else if actor !in s.actors then 5
    else
      match s.actors[actor]
      case Removing(_, _) => 1
      case WatchedOwner(_, _, false) => 2
      case Watching(_, _) => 3
      case _ => 4
  }

  /** `actor` guards `dir`, whose owners are gone. */
  predicate Mourning(s: State, actor: nat, dir: nat) {
    && dir in s.used
    && (dir in s.dirs ==>
          && actor in s.actors && (var a := s.actors[actor];
          && (a.Watching? || a.WatchedOwner? || a.Removing?)
          && a.dir == dir && BothGone(s.world, a.data)))
  }

  function Readings(events: seq<Event>, actor: nat): nat {
    if events == [] then 0 else (if events[0] == Act(actor) then 1 else 0) + Readings(events[1..], actor)
  }

  lemma MourningStep(s: State, e: Event, actor: nat, dir: nat)
    requires Good(s) && Mourning(s, actor, dir) && Enabled(s, e)
    ensures Mourning(Step(s, e), actor, dir)
    ensures ReadingsLeft(Step(s, e), actor, dir) <=
      if e == Act(actor) && ReadingsLeft(s, actor, dir) > 0 then ReadingsLeft(s, actor, dir) - 1
      else ReadingsLeft(s, actor, dir)
  {
    StepKeepsWorld(s, e);
  }

  /**
   Once both owners are gone, four more readings by the guardian are enough for the directory to be gone,
   whatever else happens between them.
   */
  lemma {:induction false} GuardianFinishes(s: State, events: seq<Event>, actor: nat, dir: nat)
    requires Good(s) && Mourning(s, actor, dir)
    requires Readings(events, actor) >= ReadingsLeft(s, actor, dir)
    ensures dir !in Run(s, events).dirs
    decreases |events|
  {
    if events != [] {
      if Enabled(s, events[0]) {
        MourningStep(s, events[0], actor, dir);
        StepGood(s, events[0]);
        GuardianFinishes(Step(s, events[0]), events[1..], actor, dir);
      } else {
        GuardianFinishes(s, events[1..], actor, dir);
      }
    }
  }

  // ----- the guardian's loop

  /** Each world follows from the one before: nothing gone is back. */
  ghost predicate Follows(worlds: seq<World>) {
    forall i, j, id :: 0 <= i <= j < |worlds| && Gone(worlds[i], id) ==> Gone(worlds[j], id)
  }

  lemma {:induction false} RunSplits(s: State, first: seq<Event>, second: seq<Event>)
    ensures Run(s, first + second) == Run(Run(s, first), second)
    decreases |first|
  {
    if first == [] {
      assert first + second == second;
    } else {
      assert (first + second)[1..] == first[1..] + second;
      RunSplits(if Enabled(s, first[0]) then Step(s, first[0]) else s, first[1..], second);
    }
  }

  /** The worlds that any run passes through follow one another in this sense. */
  lemma RunsFollow(events: seq<Event>, worlds: seq<World>)
    requires |worlds| == |events| + 1
    requires forall i :: 0 <= i <= |events| ==> worlds[i] == Run(Init(), events[..i]).world
    ensures Follows(worlds)
  {
    forall i, j, id | 0 <= i <= j < |worlds| && Gone(worlds[i], id) ensures Gone(worlds[j], id) {
      RunGood(Init(), events[..i]);
      assert events[..j] == events[..i] + events[i..j];
      RunSplits(Init(), events[..i], events[i..j]);
      DeadNeverRevives(Run(Init(), events[..i]), events[i..j], id);
    }
  }

  /**
   The guardian's polling loop over the worlds its successive readings see: poll `k` reads the supervisor in
   `worlds[2 * k]` and the child in `worlds[2 * k + 1]`. It removes the session at the end of the first poll
   that finds both gone, so never while either is alive and at most one poll after both are gone.
   */
  method GuardSession(data: Metadata, worlds: seq<World>) returns (removed: bool, polls: nat)
    requires data.child.Some? && Follows(worlds)
    requires forall w :: w in worlds ==> DataOk(w, data)
    ensures 2 * polls <= |worlds|
    ensures removed ==> polls > 0 && forall i :: 2 * polls - 1 <= i < |worlds| ==> BothGone(worlds[i], data)
    ensures removed && polls > 1 ==> !BothGone(worlds[2 * (polls - 2)], data)
    ensures !removed ==> forall i :: 0 <= i < 2 * polls - 1 ==> !BothGone(worlds[i], data)
    ensures !removed ==> polls == |worlds| / 2
  {
    removed, polls := false, 0;
    while 2 * polls + 1 < |worlds|
      invariant 2 * polls <= |worlds|
      invariant polls > 0 ==> !BothGone(worlds[2 * (polls - 1)], data)
    {
      var ownerAlive := Alive(worlds[2 * polls], data.owner);
      var childAlive := Alive(worlds[2 * polls + 1], data.child.value);
      polls := polls + 1;
      if !ownerAlive && !childAlive {
        assert Gone(worlds[2 * polls - 2], data.owner) && Gone(worlds[2 * polls - 1], data.child.value) by {
          assert worlds[2 * polls - 2] in worlds && worlds[2 * polls - 1] in worlds;
        }
        removed := true;
        return;
      }
    }
  }
}
