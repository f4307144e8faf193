/**
 The turn service and its runner, cut at every `await`: operations interleave step by step while they
 share the two lock maps, the credential vault and the admission counters.
 */
module Turns {
  import opened Common

  /** An owner together with a turn or credential identity. */
  datatype Key = Key(owner: string, id: string)

  /** The limits that apply to one turn, after its own are laid over the runner's. */
  datatype Policy = Policy(maxConcurrent: nat, maxPerOwner: nat, responseBytes: nat)

  datatype Kind = Turn(turn: string, policy: Policy) | Refresh

  datatype Message = Text(bytes: nat) | Terminal(ok: bool)

  /**
   Where an operation stands. `Storing`: its credential is being stored. `Running`: the runner has admitted
   the turn, or the catalog is being fetched. `Settled`: its result is known. `Reading`: the possibly
   rotated credential is being read back. `Stuck`: that read failed. `Released`: its scope is cleared.
   */
  datatype Stage = Storing | Running(bytes: nat) | Settled(ok: bool) | Reading(ok: bool) | Stuck | Released(ok: bool) | Done

  datatype Operation = Operation(kind: Kind, owner: string, credential: string, stage: Stage, aborted: bool, sent: seq<Message>)
  {
    function TurnKey(): Key
      requires kind.Turn?
    {
      Key(owner, kind.turn)
    }

    function CredentialKey(): Key {
      Key(owner, credential)
    }

    /** The operation still has its locks. */
    predicate Holds() {
      !stage.Released? && !stage.Done?
    }

    /** The runner counts this turn. */
    predicate Counted() {
      kind.Turn? && stage.Running?
    }
  }

  /** `ops` are all operations admitted so far; everything else is the service's own state. */
  datatype State = State(ops: map<nat, Operation>, turns: map<Key, nat>, identities: map<Key, nat>, stores: set<Key>,
                         active: int, owners: map<string, int>)

  function Init(): State {
    State(map[], map[], map[], {}, 0, map[])
  }

  /** One step of one operation, or of a caller. Operation numbers are never reused. */
  datatype Event =
    | RunTurn(op: nat, owner: string, turn: string, credential: string, policy: Policy, aborted: bool)
    | RefreshModels(op: nat, owner: string, credential: string, aborted: bool)
    | Begin(op: nat)
    | Delta(op: nat, bytes: nat, text: bool)
    | Finish(op: nat, ok: bool)
    | ReadBack(op: nat)
    | ReadDone(op: nat, ok: bool)
    | Deliver(op: nat)
    | CancelTurn(owner: string, turn: string)
    | RemoveCredential(owner: string, credential: string)

  function With(s: State, op: nat, o: Operation): State {
    s.(ops := s.ops[op := o])
  }

  function At(s: State, op: nat, stage: Stage): State
    requires op in s.ops
  {
    With(s, op, s.ops[op].(stage := stage))
  }

  // ----- the runner's counters

  function OwnerActive(s: State, owner: string): int {
    if owner in s.owners then s.owners[owner] else 0
  }

  function Acquire(s: State, owner: string): State {
    s.(active := s.active + 1, owners := s.owners[owner := OwnerActive(s, owner) + 1])
  }

  function ReleaseCount(s: State, owner: string): State {
    var remaining := OwnerActive(s, owner) - 1;
    s.(active := s.active - 1, owners := if remaining != 0 then s.owners[owner := remaining] else s.owners - {owner})
  }

  predicate Admissible(s: State, owner: string, p: Policy) {
    && p.maxConcurrent >= 1 && p.maxPerOwner >= 1 && p.responseBytes >= 1
    && s.active < p.maxConcurrent && OwnerActive(s, owner) < p.maxPerOwner
  }

  /** The turn leaves the runner by whatever exit; its result is `ok` unless it was aborted. */
  function EndTurn(s: State, op: nat, ok: bool): State
    requires op in s.ops
  {
    var o := s.ops[op];
    At(if o.Counted() then ReleaseCount(s, o.owner) else s, op, Settled(ok && !o.aborted))
  }

  // ----- the steps

  /** Refused as busy, or admitted: the locks are taken and the store is created at once. */
  function Admit(s: State, op: nat, o: Operation): State {
    if o.CredentialKey() in s.identities || (o.kind.Turn? && o.TurnKey() in s.turns) then s
    else
      With(s, op, o).(turns := if o.kind.Turn? then s.turns[o.TurnKey() := op] else s.turns,
                      identities := s.identities[o.CredentialKey() := op],
                      stores := s.stores + {o.CredentialKey()})
  }

  /** The credential is stored. A turn now asks the runner for admission; an aborted one leaves it at once. */
  function BeginStep(s: State, op: nat): State
    requires op in s.ops
  {
    var o := s.ops[op];
    if !o.stage.Storing? then s
    else if o.kind.Refresh? then At(s, op, Running(0))
    else if !Admissible(s, o.owner, o.kind.policy) || o.aborted then At(s, op, Settled(false))
    else At(Acquire(s, o.owner), op, Running(0))
  }

  /** The operation once a piece of the response is charged, and passed on if it is text. */
  function Charged(o: Operation, bytes: nat, text: bool): Operation
    requires o.stage.Running?
  {
    o.(stage := Running(o.stage.bytes + bytes), sent := o.sent + if text then [Text(bytes)] else [])
  }

  /** A piece of the response ends the turn if it is aborted or over its budget. */
  function DeltaStep(s: State, op: nat, bytes: nat, text: bool): State
    requires op in s.ops
  {
    var o := s.ops[op];
    if !o.Counted() then s
    else if o.aborted || o.stage.bytes + bytes > o.kind.policy.responseBytes then EndTurn(s, op, false)
    else With(s, op, Charged(o, bytes, text))
  }

  /** The read creates the scope again if it is gone. */
  function ReadBackStep(s: State, op: nat): State
    requires op in s.ops
  {
    var o := s.ops[op];
    if !o.stage.Settled? then s
    else At(s, op, Reading(o.stage.ok)).(stores := s.stores + {o.CredentialKey()})
  }

  /** Forget the scope and give back the locks. */
  function Clear(s: State, op: nat, ok: bool): State
    requires op in s.ops
  {
    var o := s.ops[op];
    At(s, op, Released(ok)).(turns := if o.kind.Turn? then s.turns - {o.TurnKey()} else s.turns,
                             identities := s.identities - {o.CredentialKey()},
                             stores := s.stores - {o.CredentialKey()})
  }

  /** A failed read is survived by a refresh, but leaves a turn with its locks. */
  function ReadDoneStep(s: State, op: nat, ok: bool): State
    requires op in s.ops
  {
    var o := s.ops[op];
    if !o.stage.Reading? then s
    else if ok || o.kind.Refresh? then Clear(s, op, o.stage.ok)
    else At(s, op, Stuck)
  }

  function DeliverStep(s: State, op: nat): State
    requires op in s.ops
  {
    var o := s.ops[op];
    if !o.stage.Released? then s
    else With(s, op, o.(stage := Done, sent := o.sent + if o.kind.Turn? then [Terminal(o.stage.ok)] else []))
  }

  function Abort(s: State, op: nat): State
    requires op in s.ops
  {
    With(s, op, s.ops[op].(aborted := true))
  }

  predicate Known(s: State, e: Event) {
    match e
    case RunTurn(op, _, _, _, _, _) => op !in s.ops
    case RefreshModels(op, _, _, _) => op !in s.ops
    case CancelTurn(owner, turn) => Key(owner, turn) in s.turns ==> s.turns[Key(owner, turn)] in s.ops
    case RemoveCredential(owner, credential) =>
      Key(owner, credential) in s.identities ==> s.identities[Key(owner, credential)] in s.ops
    case _ => e.op in s.ops
  }

  function Step(s: State, e: Event): State
    requires Known(s, e)
  {
    match e
    case RunTurn(op, owner, turn, credential, policy, aborted) =>
      Admit(s, op, Operation(Turn(turn, policy), owner, credential, Storing, aborted, []))
    case RefreshModels(op, owner, credential, aborted) =>
      Admit(s, op, Operation(Refresh, owner, credential, Storing, aborted, []))
    case Begin(op) => BeginStep(s, op)
    case Delta(op, bytes, text) => DeltaStep(s, op, bytes, text)
    case Finish(op, ok) => if s.ops[op].stage.Running? then EndTurn(s, op, ok) else s
    case ReadBack(op) => ReadBackStep(s, op)
    case ReadDone(op, ok) => ReadDoneStep(s, op, ok)
    case Deliver(op) => DeliverStep(s, op)
    case CancelTurn(owner, turn) =>
      if Key(owner, turn) in s.turns then Abort(s, s.turns[Key(owner, turn)]) else s
    case RemoveCredential(owner, credential) =>
      if Key(owner, credential) in s.identities then Abort(s, s.identities[Key(owner, credential)]) else s
  }

  /** A run is any interleaving of steps; one that no operation can take is passed over. */
  function Run(s: State, events: seq<Event>): State
    decreases |events|
  {
    if events == [] then s
    else Run(if Known(s, events[0]) then Step(s, events[0]) else s, events[1..])
  }

  // ----- locks and the vault

  ghost predicate Locked(s: State) {
    && (forall op :: op in s.ops && s.ops[op].Holds() ==>
          s.ops[op].CredentialKey() in s.identities && s.identities[s.ops[op].CredentialKey()] == op)
    && (forall op :: op in s.ops && s.ops[op].Holds() && s.ops[op].kind.Turn? ==>
          s.ops[op].TurnKey() in s.turns && s.turns[s.ops[op].TurnKey()] == op)
    && (forall k :: k in s.identities ==>
          s.identities[k] in s.ops && s.ops[s.identities[k]].Holds() && s.ops[s.identities[k]].CredentialKey() == k)
    && (forall k :: k in s.turns ==>
          && s.turns[k] in s.ops && s.ops[s.turns[k]].Holds()
          && s.ops[s.turns[k]].kind.Turn? && s.ops[s.turns[k]].TurnKey() == k)
    && s.stores <= s.identities.Keys
  }

  /** Same operation, still holding what it held. */
  predicate SameLocks(o: Operation, p: Operation) {
    p.kind == o.kind && p.owner == o.owner && p.credential == o.credential && p.Holds() == o.Holds()
  }

  lemma WithKeepsLocks(s: State, op: nat, p: Operation)
    requires Locked(s) && op in s.ops && SameLocks(s.ops[op], p)
    ensures Locked(With(s, op, p))
  {
  }

  lemma AdmitKeepsLocks(s: State, op: nat, o: Operation)
    requires Locked(s) && op !in s.ops && o.Holds()
    ensures Locked(Admit(s, op, o))
  {
  }

  lemma ClearKeepsLocks(s: State, op: nat, ok: bool)
    requires Locked(s) && op in s.ops && s.ops[op].Holds()
    ensures Locked(Clear(s, op, ok))
  {
  }

  lemma EndTurnKeepsLocks(s: State, op: nat, ok: bool)
    requires Locked(s) && op in s.ops && s.ops[op].Holds()
    ensures Locked(EndTurn(s, op, ok))
  {
    var o := s.ops[op];
    WithKeepsLocks(s, op, o.(stage := Settled(ok && !o.aborted)));
  }

  lemma BeginKeepsLocks(s: State, op: nat)
    requires Locked(s) && op in s.ops
    ensures Locked(BeginStep(s, op))
  {
    var o := s.ops[op];
    if o.stage.Storing? {
      AcquireKeepsLocks(s, op, o.(stage := Running(0)));
      WithKeepsLocks(s, op, o.(stage := Running(0)));
      WithKeepsLocks(s, op, o.(stage := Settled(false)));
    }
  }

  lemma AcquireKeepsLocks(s: State, op: nat, p: Operation)
    requires Locked(s) && op in s.ops && SameLocks(s.ops[op], p)
    ensures Locked(With(Acquire(s, p.owner), op, p))
  {
    WithKeepsLocks(s, op, p);
  }

  lemma DeltaKeepsLocks(s: State, op: nat, bytes: nat, text: bool)
    requires Locked(s) && op in s.ops
    ensures Locked(DeltaStep(s, op, bytes, text))
  {
    var o := s.ops[op];
    if o.Counted() {
      if o.aborted || o.stage.bytes + bytes > o.kind.policy.responseBytes {
        EndTurnKeepsLocks(s, op, false);
      } else {
        ChargedKeepsNames(o, bytes, text);
        WithKeepsLocks(s, op, Charged(o, bytes, text));
      }
    }
  }

  lemma ChargedKeepsNames(o: Operation, bytes: nat, text: bool)
    requires o.Counted()
    ensures SameLocks(o, Charged(o, bytes, text))
  {
  }

  lemma ReadKeepsLocks(s: State, op: nat, ok: bool)
    requires Locked(s) && op in s.ops
    ensures Locked(ReadBackStep(s, op)) && Locked(ReadDoneStep(s, op, ok)) && Locked(DeliverStep(s, op))
  {
    var o := s.ops[op];
    if o.stage.Settled? { WithKeepsLocks(s, op, o.(stage := Reading(o.stage.ok))); }
    if o.stage.Reading? {
      ClearKeepsLocks(s, op, o.stage.ok);
      WithKeepsLocks(s, op, o.(stage := Stuck));
    }
    if o.stage.Released? {
      WithKeepsLocks(s, op, o.(stage := Done, sent := o.sent + if o.kind.Turn? then [Terminal(o.stage.ok)] else []));
    }
  }

  lemma StepKeepsLocks(s: State, e: Event)
    requires Locked(s) && Known(s, e)
    ensures Locked(Step(s, e))
  {
    match e
    case RunTurn(op, owner, turn, credential, policy, aborted) =>
      AdmitKeepsLocks(s, op, Operation(Turn(turn, policy), owner, credential, Storing, aborted, []));
    case RefreshModels(op, owner, credential, aborted) =>
      AdmitKeepsLocks(s, op, Operation(Refresh, owner, credential, Storing, aborted, []));
    case Begin(op) => BeginKeepsLocks(s, op);
    case Delta(op, bytes, text) => DeltaKeepsLocks(s, op, bytes, text);
    case Finish(op, ok) => if s.ops[op].stage.Running? { EndTurnKeepsLocks(s, op, ok); }
    case ReadBack(op) => ReadKeepsLocks(s, op, true);
    case ReadDone(op, ok) => ReadKeepsLocks(s, op, ok);
    case Deliver(op) => ReadKeepsLocks(s, op, true);
    case CancelTurn(owner, turn) =>
      if Key(owner, turn) in s.turns {
        var op := s.turns[Key(owner, turn)];
        WithKeepsLocks(s, op, s.ops[op].(aborted := true));
      }
    case RemoveCredential(owner, credential) =>
      if Key(owner, credential) in s.identities {
        var op := s.identities[Key(owner, credential)];
        WithKeepsLocks(s, op, s.ops[op].(aborted := true));
      }
  }

  // ----- the counters

  function CountedOps(ops: map<nat, Operation>): set<nat> {
    set op | op in ops && ops[op].Counted()
  }

  function CountedFor(ops: map<nat, Operation>, owner: string): set<nat> {
    set op | op in ops && ops[op].Counted() && ops[op].owner == owner
  }

  ghost predicate CountersOk(s: State) {
    && s.active == |CountedOps(s.ops)|
    && (forall w :: w in s.owners ==> s.owners[w] > 0)
    && (forall w :: OwnerActive(s, w) == |CountedFor(s.ops, w)|)
  }

  /** The operation is counted as it was, for the same owner. */
  lemma UncountedChange(s: State, op: nat, p: Operation)
    requires CountersOk(s)
    requires if op in s.ops then p.Counted() == s.ops[op].Counted() && p.owner == s.ops[op].owner else !p.Counted()
    ensures CountersOk(With(s, op, p))
  {
    var ops := s.ops[op := p];
    assert CountedOps(ops) == CountedOps(s.ops);
    forall w ensures CountedFor(ops, w) == CountedFor(s.ops, w) {
    }
  }

  lemma AcquireCounts(s: State, op: nat, p: Operation)
    requires CountersOk(s) && op in s.ops && !s.ops[op].Counted() && p.Counted() && p.owner == s.ops[op].owner
    ensures CountersOk(With(Acquire(s, p.owner), op, p))
  {
    var ops, s1 := s.ops[op := p], With(Acquire(s, p.owner), op, p);
    assert CountedOps(ops) == CountedOps(s.ops) + {op};
    forall w ensures OwnerActive(s1, w) == |CountedFor(ops, w)| {
      CountedForMore(s.ops, op, p, w);
    }
  }

  lemma CountedForMore(ops: map<nat, Operation>, op: nat, p: Operation, w: string)
    requires op in ops && !ops[op].Counted() && p.Counted()
    ensures |CountedFor(ops[op := p], w)| == |CountedFor(ops, w)| + if w == p.owner then 1 else 0
  {
    assert CountedFor(ops[op := p], w) == if w == p.owner then CountedFor(ops, w) + {op} else CountedFor(ops, w);
  }

  lemma ReleaseCounts(s: State, op: nat, p: Operation)
    requires CountersOk(s) && op in s.ops && s.ops[op].Counted() && !p.Counted() && p.owner == s.ops[op].owner
    ensures CountersOk(With(ReleaseCount(s, p.owner), op, p))
  {
    var ops, s1 := s.ops[op := p], With(ReleaseCount(s, p.owner), op, p);
    assert CountedOps(ops) == CountedOps(s.ops) - {op};
    assert op in CountedFor(s.ops, p.owner);
    forall w ensures OwnerActive(s1, w) == |CountedFor(ops, w)| {
      assert CountedFor(ops, w) == if w == p.owner then CountedFor(s.ops, w) - {op} else CountedFor(s.ops, w);
    }
  }

  lemma EndTurnCounts(s: State, op: nat, ok: bool)
    requires CountersOk(s) && op in s.ops
    ensures CountersOk(EndTurn(s, op, ok))
  {
    var o := s.ops[op];
    var p := o.(stage := Settled(ok && !o.aborted));
    if o.Counted() { ReleaseCounts(s, op, p); } else { UncountedChange(s, op, p); }
  }

  lemma BeginCounts(s: State, op: nat)
    requires CountersOk(s) && op in s.ops
    ensures CountersOk(BeginStep(s, op))
  {
    var o := s.ops[op];
    if o.stage.Storing? {
      if o.kind.Refresh? {
        UncountedChange(s, op, o.(stage := Running(0)));
      } else if !Admissible(s, o.owner, o.kind.policy) || o.aborted {
        UncountedChange(s, op, o.(stage := Settled(false)));
      } else {
        AcquireCounts(s, op, o.(stage := Running(0)));
      }
    }
  }

  lemma DeltaCounts(s: State, op: nat, bytes: nat, text: bool)
    requires CountersOk(s) && op in s.ops
    ensures CountersOk(DeltaStep(s, op, bytes, text))
  {
    var o := s.ops[op];
    if o.Counted() {
      if o.aborted || o.stage.bytes + bytes > o.kind.policy.responseBytes {
        EndTurnCounts(s, op, false);
      } else {
        UncountedChange(s, op, Charged(o, bytes, text));
      }
    }
  }

  lemma ReadCounts(s: State, op: nat, ok: bool)
    requires CountersOk(s) && op in s.ops
    ensures CountersOk(ReadBackStep(s, op)) && CountersOk(ReadDoneStep(s, op, ok)) && CountersOk(DeliverStep(s, op))
  {
    var o := s.ops[op];
    if o.stage.Settled? { UncountedChange(s, op, o.(stage := Reading(o.stage.ok))); }
    if o.stage.Reading? {
      UncountedChange(s, op, o.(stage := Released(o.stage.ok)));
      UncountedChange(s, op, o.(stage := Stuck));
    }
    if o.stage.Released? {
      UncountedChange(s, op, o.(stage := Done, sent := o.sent + if o.kind.Turn? then [Terminal(o.stage.ok)] else []));
    }
  }

  lemma AdmitCounts(s: State, op: nat, o: Operation)
    requires CountersOk(s) && op !in s.ops && !o.Counted()
    ensures CountersOk(Admit(s, op, o))
  {
    UncountedChange(s, op, o);
  }

  lemma StepCounts(s: State, e: Event)
    requires CountersOk(s) && Known(s, e)
    ensures CountersOk(Step(s, e))
  {
    match e
    case RunTurn(op, owner, turn, credential, policy, aborted) =>
      AdmitCounts(s, op, Operation(Turn(turn, policy), owner, credential, Storing, aborted, []));
    case RefreshModels(op, owner, credential, aborted) =>
      AdmitCounts(s, op, Operation(Refresh, owner, credential, Storing, aborted, []));
    case Begin(op) => BeginCounts(s, op);
    case Delta(op, bytes, text) => DeltaCounts(s, op, bytes, text);
    case Finish(op, ok) => EndTurnCounts(s, op, ok);
    case ReadBack(op) => ReadCounts(s, op, true);
    case ReadDone(op, ok) => ReadCounts(s, op, ok);
    case Deliver(op) => ReadCounts(s, op, true);
    case CancelTurn(owner, turn) =>
      if Key(owner, turn) in s.turns {
        var op := s.turns[Key(owner, turn)];
        UncountedChange(s, op, s.ops[op].(aborted := true));
      }
    case RemoveCredential(owner, credential) =>
      if Key(owner, credential) in s.identities {
        var op := s.identities[Key(owner, credential)];
        UncountedChange(s, op, s.ops[op].(aborted := true));
      }
  }

  // ----- what is sent

  function TextBytes(sent: seq<Message>): nat {
    if sent == [] then 0
    else
      var last := sent[|sent| - 1];
      TextBytes(sent[..|sent| - 1]) + if last.Text? then last.bytes else 0
  }

  /** Text only, and after the scope is cleared one terminal message that nothing follows. */
  predicate SentWell(o: Operation) {
    var n := if o.kind.Turn? && o.stage.Done? then |o.sent| - 1 else |o.sent|;
    && 0 <= n && (forall i :: 0 <= i < n ==> o.sent[i].Text?)
    && (n < |o.sent| ==> o.sent[n].Terminal?)
    && (o.kind.Refresh? ==> o.sent == [])
    && (o.kind.Turn? ==> TextBytes(o.sent) <= o.kind.policy.responseBytes)
    && (o.Counted() ==> TextBytes(o.sent) <= o.stage.bytes <= o.kind.policy.responseBytes)
    && (o.stage.Storing? ==> o.sent == []) && (o.stage.Stuck? ==> o.kind.Turn?)
  }

  ghost predicate AllSentWell(s: State) {
    forall op :: op in s.ops ==> SentWell(s.ops[op])
  }

  lemma TextBytesMore(sent: seq<Message>, m: Message)
    ensures TextBytes(sent + [m]) == TextBytes(sent) + if m.Text? then m.bytes else 0
  {
    assert (sent + [m])[..|sent|] == sent;
  }

  lemma WithSends(s: State, op: nat, p: Operation)
    requires AllSentWell(s) && SentWell(p)
    ensures AllSentWell(With(s, op, p))
  {
  }

  /** Moving to a later stage sends nothing. */
  lemma StageSends(s: State, op: nat, stage: Stage)
    requires AllSentWell(s) && op in s.ops && !s.ops[op].stage.Done? && !stage.Done? && !stage.Storing?
    requires (stage.Running? ==> s.ops[op].stage.Storing? && stage.bytes == 0) && (stage.Stuck? ==> s.ops[op].kind.Turn?)
    ensures AllSentWell(At(s, op, stage))
  {
    assert SentWell(s.ops[op]);
    WithSends(s, op, s.ops[op].(stage := stage));
  }

  lemma EndTurnSends(s: State, op: nat, ok: bool)
    requires AllSentWell(s) && op in s.ops && s.ops[op].stage.Running?
    ensures AllSentWell(EndTurn(s, op, ok))
  {
    StageSends(s, op, Settled(ok && !s.ops[op].aborted));
  }

  lemma BeginSends(s: State, op: nat)
    requires AllSentWell(s) && op in s.ops
    ensures AllSentWell(BeginStep(s, op))
  {
    if s.ops[op].stage.Storing? {
      StageSends(s, op, Running(0));
      StageSends(s, op, Settled(false));
    }
  }

  lemma ReadSends(s: State, op: nat, ok: bool)
    requires AllSentWell(s) && op in s.ops
    ensures AllSentWell(ReadBackStep(s, op)) && AllSentWell(ReadDoneStep(s, op, ok))
  {
    var o := s.ops[op];
    if o.stage.Settled? { StageSends(s, op, Reading(o.stage.ok)); }
    if o.stage.Reading? {
      StageSends(s, op, Released(o.stage.ok));
      if o.kind.Turn? { StageSends(s, op, Stuck); }
    }
  }

  /** The piece of text still fits the budget. */
  lemma TextFits(o: Operation, bytes: nat, text: bool)
    requires SentWell(o) && o.Counted() && o.stage.bytes + bytes <= o.kind.policy.responseBytes
    ensures SentWell(Charged(o, bytes, text))
  {
    TextBytesMore(o.sent, Text(bytes));
    assert o.sent + [] == o.sent;
  }

  lemma DeltaSends(s: State, op: nat, bytes: nat, text: bool)
    requires AllSentWell(s) && op in s.ops
    ensures AllSentWell(DeltaStep(s, op, bytes, text))
  {
    var o := s.ops[op];
    if o.Counted() {
      if o.aborted || o.stage.bytes + bytes > o.kind.policy.responseBytes {
        EndTurnSends(s, op, false);
      } else {
        TextFits(o, bytes, text);
        WithSends(s, op, Charged(o, bytes, text));
      }
    }
  }

  lemma DeliverSends(s: State, op: nat)
    requires AllSentWell(s) && op in s.ops
    ensures AllSentWell(DeliverStep(s, op))
  {
    var o := s.ops[op];
    assert SentWell(o);
    if o.stage.Released? {
      TextBytesMore(o.sent, Terminal(o.stage.ok));
      assert o.sent + [] == o.sent;
      WithSends(s, op, o.(stage := Done, sent := o.sent + if o.kind.Turn? then [Terminal(o.stage.ok)] else []));
    }
  }

  lemma AbortSends(s: State, op: nat)
    requires AllSentWell(s) && op in s.ops
    ensures AllSentWell(Abort(s, op))
  {
    assert SentWell(s.ops[op]);
    WithSends(s, op, s.ops[op].(aborted := true));
  }

  lemma StepSends(s: State, e: Event)
    requires AllSentWell(s) && Known(s, e)
    ensures AllSentWell(Step(s, e))
  {
    match e
    case RunTurn(op, owner, turn, credential, policy, aborted) =>
      WithSends(s, op, Operation(Turn(turn, policy), owner, credential, Storing, aborted, []));
    case RefreshModels(op, owner, credential, aborted) =>
      WithSends(s, op, Operation(Refresh, owner, credential, Storing, aborted, []));
    case Begin(op) => BeginSends(s, op);
    case Delta(op, bytes, text) => DeltaSends(s, op, bytes, text);
    case Finish(op, ok) => if s.ops[op].stage.Running? { EndTurnSends(s, op, ok); }
    case ReadBack(op) => ReadSends(s, op, true);
    case ReadDone(op, ok) => ReadSends(s, op, ok);
    case Deliver(op) => DeliverSends(s, op);
    case CancelTurn(owner, turn) =>
      if Key(owner, turn) in s.turns { AbortSends(s, s.turns[Key(owner, turn)]); }
    case RemoveCredential(owner, credential) =>
      if Key(owner, credential) in s.identities { AbortSends(s, s.identities[Key(owner, credential)]); }
  }

  // ----- every run

  ghost predicate Sound(s: State) {
    Locked(s) && CountersOk(s) && AllSentWell(s)
  }

  lemma {:induction false} RunIsSound(s: State, events: seq<Event>)
    requires Sound(s)
    ensures Sound(Run(s, events))
    decreases |events|
  {
    if events != [] {
      var e := events[0];
      if Known(s, e) {
        StepKeepsLocks(s, e);
        StepCounts(s, e);
        StepSends(s, e);
      }
      RunIsSound(if Known(s, e) then Step(s, e) else s, events[1..]);
    }
  }

  lemma InitIsSound()
    ensures Sound(Init())
  {
    assert CountedOps(map[]) == {};
    forall w ensures CountedFor(map[], w) == {} {
    }
  }

  lemma EveryRunIsSound(events: seq<Event>)
    ensures Sound(Run(Init(), events))
  {
    InitIsSound();
    RunIsSound(Init(), events);
  }

  /** Under every interleaving, the lock maps are exactly the live operations and a store exists only under a lock. */
  lemma LocksMatchLiveOperations(events: seq<Event>)
    ensures var s := Run(Init(), events);
      && (forall p, q :: (p in s.ops && q in s.ops && s.ops[p].Holds() && s.ops[q].Holds()
                          && s.ops[p].CredentialKey() == s.ops[q].CredentialKey()) ==> p == q)
      && (forall k :: k in s.identities <==> exists op :: op in s.ops && s.ops[op].Holds() && s.ops[op].CredentialKey() == k)
      && (forall k :: k in s.turns <==>
            exists op :: op in s.ops && s.ops[op].Holds() && s.ops[op].kind.Turn? && s.ops[op].TurnKey() == k)
      && s.stores <= s.identities.Keys
  {
    EveryRunIsSound(events);
  }

  /** Every turn sends text and then, once its scope is cleared, exactly one terminal message; its text keeps its budget. */
  lemma TurnsEndOnce(events: seq<Event>, op: nat)
    requires op in Run(Init(), events).ops && Run(Init(), events).ops[op].kind.Turn?
    ensures var s := Run(Init(), events); var o := s.ops[op];
      && (forall i :: 0 <= i < |o.sent| ==> (o.sent[i].Terminal? <==> o.stage.Done? && i == |o.sent| - 1))
      && (o.stage.Done? ==> o.sent != [] && !o.Holds() && forall k :: k in s.identities ==> s.identities[k] != op)
      && TextBytes(o.sent) <= o.kind.policy.responseBytes
  {
    EveryRunIsSound(events);
    assert SentWell(Run(Init(), events).ops[op]);
  }

  // ----- counters in every run

  function OwnersTotal(owners: map<string, int>, order: seq<string>): int
    requires forall w :: w in order ==> w in owners
  {
    if order == [] then 0 else OwnersTotal(owners, order[..|order| - 1]) + owners[order[|order| - 1]]
  }

  ghost predicate Enumerates(order: seq<string>, keys: set<string>) {
    (forall i, j :: 0 <= i < j < |order| ==> order[i] != order[j]) && (forall w :: w in keys <==> w in order)
  }

  function CountedAmong(ops: map<nat, Operation>, who: seq<string>): set<nat> {
    set op | op in ops && ops[op].Counted() && ops[op].owner in who
  }

  lemma {:induction false} TotalIsCounted(s: State, order: seq<string>)
    requires CountersOk(s)
    requires forall i, j :: 0 <= i < j < |order| ==> order[i] != order[j]
    requires forall w :: w in order ==> w in s.owners
    ensures OwnersTotal(s.owners, order) == |CountedAmong(s.ops, order)|
    decreases |order|
  {
    if order == [] {
      assert CountedAmong(s.ops, order) == {};
    } else {
      var n := |order| - 1;
      TotalIsCounted(s, order[..n]);
      var before, mine := CountedAmong(s.ops, order[..n]), CountedFor(s.ops, order[n]);
      assert order == order[..n] + [order[n]];
      assert CountedAmong(s.ops, order) == before + mine && before !! mine;
      assert s.owners[order[n]] == OwnerActive(s, order[n]);
    }
  }

  /**
   At every point the global counter is the number of running turns and the sum of the owner counters, which are
   never zero; when no turn runs, both are empty.
   */
  lemma CountersMatchRunningTurns(events: seq<Event>, order: seq<string>)
    requires Enumerates(order, Run(Init(), events).owners.Keys)
    ensures var s := Run(Init(), events);
      && s.active == |CountedOps(s.ops)| == OwnersTotal(s.owners, order)
      && (forall w :: w in s.owners ==> s.owners[w] == |CountedFor(s.ops, w)| > 0)
      && (CountedOps(s.ops) == {} ==> s.active == 0 && s.owners == map[])
  {
    EveryRunIsSound(events);
    var s := Run(Init(), events);
    TotalIsCounted(s, order);
    forall op | op in CountedOps(s.ops) ensures op in CountedAmong(s.ops, order) {
      OwnerIsListed(s, op);
    }
    assert CountedOps(s.ops) == CountedAmong(s.ops, order);
    forall w | w in s.owners ensures s.owners[w] == |CountedFor(s.ops, w)| > 0 {
      assert OwnerActive(s, w) == s.owners[w];
    }
    if CountedOps(s.ops) == {} {
      forall w ensures w !in s.owners { assert CountedFor(s.ops, w) <= CountedOps(s.ops); }
    }
  }

  lemma OwnerIsListed(s: State, op: nat)
    requires CountersOk(s) && op in CountedOps(s.ops)
    ensures s.ops[op].owner in s.owners
  {
    var w := s.ops[op].owner;
    assert op in CountedFor(s.ops, w);
    assert OwnerActive(s, w) == |CountedFor(s.ops, w)|;
  }

  /** A turn is admitted only below both of its caps, and is counted at once. */
  lemma AdmissionRespectsCaps(s: State, op: nat)
    requires CountersOk(s) && op in s.ops && s.ops[op].kind.Turn? && s.ops[op].stage.Storing?
    ensures var s1, o := BeginStep(s, op), s.ops[op];
      && (s1.ops[op].stage.Running? <==> Admissible(s, o.owner, o.kind.policy) && !o.aborted)
      && (s1.ops[op].stage.Running? ==>
            |CountedOps(s1.ops)| <= o.kind.policy.maxConcurrent && |CountedFor(s1.ops, o.owner)| <= o.kind.policy.maxPerOwner)
  {
    BeginCounts(s, op);
    assert OwnerActive(BeginStep(s, op), s.ops[op].owner) == |CountedFor(BeginStep(s, op).ops, s.ops[op].owner)|;
  }

  // ----- the one way to keep a lock for ever

  predicate FailedRead(e: Event) {
    e.ReadDone? && !e.ok
  }

  predicate IsStuck(s: State, op: nat) {
    op in s.ops && s.ops[op].stage.Stuck?
  }

  /** The credential read of this very turn fails in this step. */
  predicate ReadFails(s: State, e: Event, op: nat) {
    e == ReadDone(op, false) && op in s.ops && s.ops[op].kind.Turn? && s.ops[op].stage.Reading?
  }

  /** What a step may make of an operation: its names stay, and it is stuck if it was, or by a failed read of a turn. */
  predicate Becomes(o: Operation, p: Operation, failed: bool) {
    && p.CredentialKey() == o.CredentialKey() && p.kind == o.kind
    && (p.stage.Stuck? <==> o.stage.Stuck? || (failed && o.kind.Turn? && o.stage.Reading?))
  }

  ghost predicate OnlyBecomes(s: State, s1: State, target: nat, failed: bool) {
    && (forall op :: op in s.ops ==> op in s1.ops && (op != target ==> s1.ops[op] == s.ops[op]))
    && (forall op :: op in s1.ops && op !in s.ops ==> !s1.ops[op].stage.Stuck?)
    && (target in s.ops ==> Becomes(s.ops[target], s1.ops[target], failed))
  }

  function Target(s: State, e: Event): nat
    requires Known(s, e)
  {
    match e
    case CancelTurn(owner, turn) => if Key(owner, turn) in s.turns then s.turns[Key(owner, turn)] else 0
    case RemoveCredential(owner, credential) =>
      if Key(owner, credential) in s.identities then s.identities[Key(owner, credential)] else 0
    case _ => e.op
  }

  lemma StepBecomes(s: State, e: Event)
    requires Known(s, e)
    ensures OnlyBecomes(s, Step(s, e), Target(s, e), FailedRead(e))
  {
    var s1, t := Step(s, e), Target(s, e);
    match e
    case Begin(op) => BeginBecomes(s, op);
    case Delta(op, bytes, text) => DeltaBecomes(s, op, bytes, text);
    case ReadDone(op, ok) => ReadDoneBecomes(s, op, ok);
    case _ =>
  }

  lemma BeginBecomes(s: State, op: nat)
    requires op in s.ops
    ensures OnlyBecomes(s, BeginStep(s, op), op, false)
  {
  }

  lemma DeltaBecomes(s: State, op: nat, bytes: nat, text: bool)
    requires op in s.ops
    ensures OnlyBecomes(s, DeltaStep(s, op, bytes, text), op, false)
  {
  }

  lemma ReadDoneBecomes(s: State, op: nat, ok: bool)
    requires op in s.ops
    ensures OnlyBecomes(s, ReadDoneStep(s, op, ok), op, !ok)
  {
  }

  lemma StepSticks(s: State, e: Event, op: nat)
    requires Known(s, e)
    ensures IsStuck(Step(s, e), op) <==> IsStuck(s, op) || ReadFails(s, e, op)
  {
    StepBecomes(s, e);
  }

  function Next(s: State, e: Event): State {
    if Known(s, e) then Step(s, e) else s
  }

  lemma {:induction false} RunLast(s: State, events: seq<Event>, e: Event)
    ensures Run(s, events + [e]) == Next(Run(s, events), e)
    decreases |events|
  {
    if events == [] {
      assert [] + [e] == [e] && [e][1..] == [];
    } else {
      assert (events + [e])[1..] == events[1..] + [e];
      RunLast(Next(s, events[0]), events[1..], e);
    }
  }

  /** The turn's own credential read failed at some point of the run. */
  ghost predicate ReadFailed(events: seq<Event>, op: nat) {
    exists i :: 0 <= i < |events| && ReadFails(Run(Init(), events[..i]), events[i], op)
  }

  /** A turn is stuck exactly when its own credential read failed. */
  lemma {:induction false} StuckExactly(events: seq<Event>, op: nat)
    ensures IsStuck(Run(Init(), events), op) <==> ReadFailed(events, op)
    decreases |events|
  {
    if events != [] {
      var n := |events| - 1;
      var before, e := events[..n], events[n];
      var s := Run(Init(), before);
      StuckExactly(before, op);
      RunLast(Init(), before, e);
      assert before + [e] == events;
      if Known(s, e) { StepSticks(s, e, op); }
      ReadFailedLast(events, op);
    }
  }

  lemma ReadFailedLast(events: seq<Event>, op: nat)
    requires events != []
    ensures var n := |events| - 1;
      ReadFailed(events, op) <==> ReadFailed(events[..n], op) || ReadFails(Run(Init(), events[..n]), events[n], op)
  {
    var n := |events| - 1;
    forall i | 0 <= i < n ensures events[..n][..i] == events[..i] {
    }
  }

  /** A stuck turn has both its locks in everything that follows. */
  lemma {:induction false} FailedReadKeepsTheLocks(s: State, events: seq<Event>, op: nat)
    requires Sound(s) && IsStuck(s, op)
    ensures var s1, o := Run(s, events), s.ops[op];
      && IsStuck(s1, op) && o.kind.Turn?
      && o.CredentialKey() in s1.identities && s1.identities[o.CredentialKey()] == op
      && o.TurnKey() in s1.turns && s1.turns[o.TurnKey()] == op
    decreases |events|
  {
    assert SentWell(s.ops[op]);
    if events != [] {
      var e := events[0];
      if Known(s, e) {
        StepKeepsLocks(s, e);
        StepCounts(s, e);
        StepSends(s, e);
        StepSticks(s, e, op);
        StepKeepsNames(s, e, op);
      }
      FailedReadKeepsTheLocks(Next(s, e), events[1..], op);
    }
  }

  lemma StepKeepsNames(s: State, e: Event, op: nat)
    requires Known(s, e) && op in s.ops
    ensures op in Step(s, e).ops && Step(s, e).ops[op].CredentialKey() == s.ops[op].CredentialKey()
    ensures Step(s, e).ops[op].kind == s.ops[op].kind && Step(s, e).ops[op].owner == s.ops[op].owner
  {
    StepBecomes(s, e);
  }

  /** Let the operation fail at once and read its credential back. */
  function WayOut(op: nat): seq<Event> {
    [Begin(op), Finish(op, false), ReadBack(op), ReadDone(op, true)]
  }

  /** The operation's locks and its store are gone. */
  predicate Free(s: State, o: Operation) {
    && o.CredentialKey() !in s.identities && o.CredentialKey() !in s.stores
    && (o.kind.Turn? ==> o.TurnKey() !in s.turns)
  }

  lemma RunTwo(s: State, a: Event, b: Event)
    ensures Run(s, [a, b]) == Next(Next(s, a), b)
  {
    RunLast(s, [], a);
    RunLast(s, [a], b);
    assert [] + [a] == [a] && [a] + [b] == [a, b];
  }

  lemma RunFour(s: State, a: Event, b: Event, c: Event, d: Event)
    ensures Run(s, [a, b, c, d]) == Next(Next(Next(Next(s, a), b), c), d)
  {
    RunTwo(s, a, b);
    RunLast(s, [a, b], c);
    RunLast(s, [a, b, c], d);
    assert [a, b] + [c] == [a, b, c] && [a, b, c] + [d] == [a, b, c, d];
  }

  /** The operation is still there under its names. */
  predicate On(s: State, op: nat, o: Operation) {
    op in s.ops && s.ops[op].kind == o.kind && s.ops[op].CredentialKey() == o.CredentialKey()
  }

  lemma BeginMoves(s: State, op: nat)
    requires op in s.ops && s.ops[op].Holds() && !s.ops[op].stage.Stuck?
    ensures var s1 := Next(s, Begin(op));
      On(s1, op, s.ops[op]) && s1.ops[op].Holds() && !s1.ops[op].stage.Stuck? && !s1.ops[op].stage.Storing?
  {
  }

  lemma FinishMoves(s: State, op: nat)
    requires op in s.ops && s.ops[op].Holds() && !s.ops[op].stage.Stuck? && !s.ops[op].stage.Storing?
    ensures var s1 := Next(s, Finish(op, false));
      On(s1, op, s.ops[op]) && (s1.ops[op].stage.Settled? || s1.ops[op].stage.Reading?)
  {
  }

  lemma ReadMoves(s: State, op: nat)
    requires op in s.ops && (s.ops[op].stage.Settled? || s.ops[op].stage.Reading?)
    ensures var s1 := Next(s, ReadBack(op)); On(s1, op, s.ops[op]) && s1.ops[op].stage.Reading?
  {
  }

  lemma ClearFrees(s: State, op: nat)
    requires op in s.ops && s.ops[op].stage.Reading?
    ensures var s1 := Next(s, ReadDone(op, true)); Free(s1, s.ops[op]) && op in s1.ops && !s1.ops[op].Holds()
  {
  }

  /** An operation that is not stuck can always be brought to give everything back. */
  lemma WayOutFrees(s: State, op: nat)
    requires op in s.ops && s.ops[op].Holds() && !s.ops[op].stage.Stuck?
    ensures var s1 := Run(s, WayOut(op)); Free(s1, s.ops[op]) && op in s1.ops && !s1.ops[op].Holds()
  {
    RunFour(s, Begin(op), Finish(op, false), ReadBack(op), ReadDone(op, true));
    BeginMoves(s, op);
    var s1 := Next(s, Begin(op));
    FinishMoves(s1, op);
    var s2 := Next(s1, Finish(op, false));
    ReadMoves(s2, op);
    ClearFrees(Next(s2, ReadBack(op)), op);
  }

  /**
   In every run, the locks of a live operation can still be given back exactly when its own credential read, as
   a turn, has not failed; otherwise no continuation frees either of them.
   */
  lemma LocksAreLostExactly(events: seq<Event>, op: nat)
    requires op in Run(Init(), events).ops && Run(Init(), events).ops[op].Holds()
    ensures var s := Run(Init(), events); var o := s.ops[op];
      && (ReadFailed(events, op) <==> forall later :: o.CredentialKey() in Run(s, later).identities)
      && (ReadFailed(events, op) ==> o.kind.Turn? && forall later :: o.TurnKey() in Run(s, later).turns)
      && (!ReadFailed(events, op) ==> Free(Run(s, WayOut(op)), o))
  {
    var s := Run(Init(), events);
    var o := s.ops[op];
    EveryRunIsSound(events);
    StuckExactly(events, op);
    if IsStuck(s, op) {
      FailedReadKeepsTheLocks(s, [], op);
      forall later ensures o.CredentialKey() in Run(s, later).identities && o.TurnKey() in Run(s, later).turns {
        FailedReadKeepsTheLocks(s, later, op);
      }
    } else {
      WayOutFrees(s, op);
    }
  }

  /** It happens: one turn that runs to its end and then cannot read its credential. */
  lemma SomeTurnKeepsItsLocks(owner: string, turn: string, credential: string)
    ensures var events := [RunTurn(0, owner, turn, credential, Policy(1, 1, 1), false)] +
                          [Begin(0), Finish(0, true), ReadBack(0), ReadDone(0, false)];
      var s := Run(Init(), events);
      IsStuck(s, 0) && forall later :: Key(owner, credential) in Run(s, later).identities && Key(owner, turn) in Run(s, later).turns
  {
    var start := RunTurn(0, owner, turn, credential, Policy(1, 1, 1), false);
    var rest := [Begin(0), Finish(0, true), ReadBack(0), ReadDone(0, false)];
    var s0 := Next(Init(), start);
    assert ([start] + rest)[1..] == rest;
    RunFour(s0, Begin(0), Finish(0, true), ReadBack(0), ReadDone(0, false));
    var s1 := Next(s0, Begin(0));
    assert s1.ops[0].stage == Running(0);
    var s2 := Next(s1, Finish(0, true));
    assert s2.ops[0].stage == Settled(true);
    var s := Run(Init(), [start] + rest);
    assert IsStuck(s, 0);
    EveryRunIsSound([start] + rest);
    forall later ensures Key(owner, credential) in Run(s, later).identities && Key(owner, turn) in Run(s, later).turns {
      FailedReadKeepsTheLocks(s, later, 0);
    }
  }
}
