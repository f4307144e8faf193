/** The service and its runner as objects changed in place: one method for each stretch between two awaits. */
module TurnObject {
  import opened Turns

  class TurnService {
    /** The operations' own local variables: where each stands, whether it is aborted, what it emitted. */
    var ops: map<nat, Operation>
    var turns: map<Key, nat>
    var identities: map<Key, nat>
    var stores: set<Key>
    var active: int
    var owners: map<string, int>

    function View(): State
      reads this
    {
      State(ops, turns, identities, stores, active, owners)
    }

    constructor ()
      ensures View() == Init() && Sound(View())
    {
      ops, turns, identities, stores, active, owners := map[], map[], map[], {}, 0, map[];
      new;
      InitIsSound();
    }

    /** Refused as busy, or the locks are taken and the store is created, all before the first await. */
    method TakeLocks(op: nat, o: Operation) returns (busy: bool)
      requires op !in ops
      modifies this
      ensures View() == Admit(old(View()), op, o)
      ensures busy <==> o.CredentialKey() in old(identities) || (o.kind.Turn? && o.TurnKey() in old(turns))
      ensures busy <==> op !in ops
    {
      if o.kind.Turn? && o.TurnKey() in turns { return true; }
      if o.CredentialKey() in identities { return true; }
      if o.kind.Turn? { turns := turns[o.TurnKey() := op]; }
      identities := identities[o.CredentialKey() := op];
      stores := stores + {o.CredentialKey()};
      ops := ops[op := o];
      return false;
    }

    method StartRun(op: nat, owner: string, turn: string, credential: string, policy: Policy, aborted: bool) returns (busy: bool)
      requires Sound(View()) && op !in ops
      modifies this
      ensures Sound(View()) && View() == Step(old(View()), RunTurn(op, owner, turn, credential, policy, aborted))
      ensures busy <==> Key(owner, turn) in old(turns) || Key(owner, credential) in old(identities)
      ensures busy <==> op !in ops
    {
      SoundStep(View(), RunTurn(op, owner, turn, credential, policy, aborted));
      busy := TakeLocks(op, Operation(Turn(turn, policy), owner, credential, Storing, aborted, []));
    }

    method StartRefresh(op: nat, owner: string, credential: string, aborted: bool) returns (busy: bool)
      requires Sound(View()) && op !in ops
      modifies this
      ensures Sound(View()) && View() == Step(old(View()), RefreshModels(op, owner, credential, aborted))
      ensures busy <==> Key(owner, credential) in old(identities)
      ensures busy <==> op !in ops
    {
      SoundStep(View(), RefreshModels(op, owner, credential, aborted));
      busy := TakeLocks(op, Operation(Refresh, owner, credential, Storing, aborted, []));
    }

    method CheckCaps(op: nat)
      requires op in ops && ops[op].stage.Storing?
      modifies this
      ensures View() == BeginStep(old(View()), op)
    {
      var o := ops[op];
      if o.kind.Refresh? {
        ops := ops[op := o.(stage := Running(0))];
        return;
      }
      var policy := o.kind.policy;
      var ownerActive := if o.owner in owners then owners[o.owner] else 0;
      if policy.maxConcurrent < 1 || policy.maxPerOwner < 1 || policy.responseBytes < 1
        || active >= policy.maxConcurrent || ownerActive >= policy.maxPerOwner || o.aborted {
        ops := ops[op := o.(stage := Settled(false))];
        return;
      }
      active := active + 1;
      owners := owners[o.owner := ownerActive + 1];
      ops := ops[op := o.(stage := Running(0))];
    }

    /** The credential is stored: the runner checks its caps and counts the turn. */
    method BeginRun(op: nat)
      requires Sound(View()) && op in ops && ops[op].stage.Storing?
      modifies this
      ensures Sound(View()) && View() == Step(old(View()), Begin(op))
    {
      SoundStep(View(), Begin(op));
      CheckCaps(op);
    }

    /** The runner's final block. */
    method GiveBackSlot(op: nat, ok: bool)
      requires op in ops && ops[op].stage.Running? && (ops[op].kind.Turn? ==> ops[op].owner in owners)
      modifies this
      ensures View() == EndTurn(old(View()), op, ok)
    {
      var o := ops[op];
      if o.kind.Turn? {
        active := active - 1;
        var remaining := owners[o.owner] - 1;
        if remaining != 0 { owners := owners[o.owner := remaining]; } else { owners := owners - {o.owner}; }
      }
      ops := ops[op := o.(stage := Settled(ok && !o.aborted))];
    }

    method LeaveRunner(op: nat, ok: bool)
      requires Sound(View()) && op in ops && ops[op].stage.Running?
      modifies this
      ensures Sound(View()) && View() == Step(old(View()), Finish(op, ok))
    {
      SoundStep(View(), Finish(op, ok));
      if ops[op].kind.Turn? { RunningOwnerIsCounted(View(), op); }
      GiveBackSlot(op, ok);
    }

    method Charge(op: nat, bytes: nat, text: bool)
      requires op in ops && ops[op].Counted() && ops[op].owner in owners
      modifies this
      ensures View() == DeltaStep(old(View()), op, bytes, text)
    {
      var o := ops[op];
      var total := o.stage.bytes + bytes;
      if o.aborted || total > o.kind.policy.responseBytes {
        GiveBackSlot(op, false);
        return;
      }
      ops := ops[op := o.(stage := Running(total), sent := o.sent + if text then [Text(bytes)] else [])];
    }

    /** One piece of the response stream. */
    method Receive(op: nat, bytes: nat, text: bool)
      requires Sound(View()) && op in ops && ops[op].Counted()
      modifies this
      ensures Sound(View()) && View() == Step(old(View()), Delta(op, bytes, text))
    {
      SoundStep(View(), Delta(op, bytes, text));
      RunningOwnerIsCounted(View(), op);
      Charge(op, bytes, text);
    }

    method OpenScope(op: nat)
      requires op in ops && ops[op].stage.Settled?
      modifies this
      ensures View() == ReadBackStep(old(View()), op)
    {
      var o := ops[op];
      stores := stores + {o.CredentialKey()};
      ops := ops[op := o.(stage := Reading(o.stage.ok))];
    }

    method StartReadBack(op: nat)
      requires Sound(View()) && op in ops && ops[op].stage.Settled?
      modifies this
      ensures Sound(View()) && View() == Step(old(View()), ReadBack(op))
    {
      SoundStep(View(), ReadBack(op));
      OpenScope(op);
    }

    method ClearScope(op: nat, ok: bool)
      requires op in ops && ops[op].stage.Reading?
      modifies this
      ensures View() == ReadDoneStep(old(View()), op, ok)
      ensures op in ops && (ops[op].Holds() <==> !ok && old(ops[op]).kind.Turn?)
    {
      var o := ops[op];
      if !ok && o.kind.Turn? {
        ops := ops[op := o.(stage := Stuck)];
        return;
      }
      stores := stores - {o.CredentialKey()};
      if o.kind.Turn? { turns := turns - {o.TurnKey()}; }
      identities := identities - {o.CredentialKey()};
      ops := ops[op := o.(stage := Released(o.stage.ok))];
    }

    /** The scope is forgotten and the locks are given back, unless a turn's read failed. */
    method FinishReadBack(op: nat, ok: bool)
      requires Sound(View()) && op in ops && ops[op].stage.Reading?
      modifies this
      ensures Sound(View()) && View() == Step(old(View()), ReadDone(op, ok))
      ensures op in ops && (ops[op].Holds() <==> !ok && old(ops[op]).kind.Turn?)
    {
      SoundStep(View(), ReadDone(op, ok));
      ClearScope(op, ok);
    }

    method EmitTerminal(op: nat)
      requires Sound(View()) && op in ops && ops[op].stage.Released?
      modifies this
      ensures Sound(View()) && View() == Step(old(View()), Deliver(op))
    {
      SoundStep(View(), Deliver(op));
      var o := ops[op];
      ops := ops[op := o.(stage := Done, sent := o.sent + if o.kind.Turn? then [Terminal(o.stage.ok)] else [])];
    }

    method AbortOperation(op: nat)
      requires op in ops
      modifies this
      ensures View() == Abort(old(View()), op)
    {
      ops := ops[op := ops[op].(aborted := true)];
    }

    method Cancel(owner: string, turn: string) returns (found: bool)
      requires Sound(View())
      modifies this
      ensures Sound(View()) && View() == Step(old(View()), CancelTurn(owner, turn))
      ensures found <==> Key(owner, turn) in old(turns)
    {
      SoundStep(View(), CancelTurn(owner, turn));
      found := Key(owner, turn) in turns;
      if found { AbortOperation(turns[Key(owner, turn)]); }
    }

    method Remove(owner: string, credential: string)
      requires Sound(View())
      modifies this
      ensures Sound(View()) && View() == Step(old(View()), RemoveCredential(owner, credential))
    {
      SoundStep(View(), RemoveCredential(owner, credential));
      if Key(owner, credential) in identities { AbortOperation(identities[Key(owner, credential)]); }
    }
  }

  lemma SoundStep(s: State, e: Event)
    requires Sound(s) && match e {
      case RunTurn(op, _, _, _, _, _) => op !in s.ops
      case RefreshModels(op, _, _, _) => op !in s.ops
      case CancelTurn(_, _) => true
      case RemoveCredential(_, _) => true
      case _ => e.op in s.ops }
    ensures Known(s, e) && Sound(Step(s, e))
  {
    StepKeepsLocks(s, e);
    StepCounts(s, e);
    StepSends(s, e);
  }

  lemma RunningOwnerIsCounted(s: State, op: nat)
    requires Sound(s) && op in s.ops && s.ops[op].Counted()
    ensures s.ops[op].owner in s.owners
  {
    OwnerIsListed(s, op);
  }
}
