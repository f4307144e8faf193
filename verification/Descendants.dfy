/** The process-descendant closure of the browser isolation probe. */
module Descendants {

  datatype Record = Record(pid: int, ppid: int, birth: int)

  /** A snapshot of the process table; parent links may be stale and may even form cycles. */
  type Table = map<int, Record>

  /** A process identity that survives reuse of its number. */
  datatype Owner = Owner(pid: int, birth: int)

  function Identity(r: Record): Owner {
    Owner(r.pid, r.birth)
  }

  predicate Verified(t: Table, owner: Owner) {
    owner.pid in t && Identity(t[owner.pid]) == owner
  }

  /** A chain of processes of the table, each the parent of the next. */
  predicate Chain(t: Table, path: seq<int>) {
    && path != []
    && (forall i :: 0 <= i < |path| ==> path[i] in t)
    && (forall i :: 0 < i < |path| ==> t[path[i]].ppid == path[i - 1])
  }

  ghost predicate Reaches(t: Table, root: int, pid: int) {
    exists path :: Chain(t, path) && path[0] == root && path[|path| - 1] == pid
  }

  /** The reference definition: the verified owner's reachable processes, with their records. */
  ghost function Family(t: Table, owner: Owner): Table {
    if Verified(t, owner) then map pid | pid in t && Reaches(t, owner.pid, pid) :: t[pid] else map[]
  }

  lemma ReachesItself(t: Table, root: int)
    requires root in t
    ensures Reaches(t, root, root)
  {
    assert Chain(t, [root]);
  }

  lemma ReachesChild(t: Table, root: int, pid: int)
    requires pid in t && Reaches(t, root, t[pid].ppid)
    ensures Reaches(t, root, pid)
  {
    var path :| Chain(t, path) && path[0] == root && path[|path| - 1] == t[pid].ppid;
    assert Chain(t, path + [pid]);
  }

  /** A set that holds the root and every child of its members holds everything reachable. */
  lemma {:induction false} ClosedHoldsReachable(t: Table, closed: set<int>, path: seq<int>)
    requires Chain(t, path) && path[0] in closed
    requires forall pid :: pid in t && t[pid].ppid in closed ==> pid in closed
    ensures path[|path| - 1] in closed
    decreases |path|
  {
    if |path| > 1 {
      var shorter := path[..|path| - 1];
      assert Chain(t, shorter);
      ClosedHoldsReachable(t, closed, shorter);
      assert t[path[|path| - 1]].ppid == shorter[|shorter| - 1];
    }
  }

  lemma EmptyOrHasKey(t: Table)
    ensures t == map[] || exists pid :: pid in t
  {
    if forall pid :: pid !in t {
      assert t == map[];
    }
  }

  lemma GrowthDecreases(records: Table, owned: Table, added: Table)
    requires added != map[] && added.Keys <= records.Keys && added.Keys !! owned.Keys
    ensures records.Keys - (owned + added).Keys < records.Keys - owned.Keys
  {
    EmptyOrHasKey(added);
    var pid :| pid in added;
    assert pid in records.Keys - owned.Keys;
  }

  /** Growing the owned set until nothing is added finds exactly the reachable processes. */
  method Descendants(records: Table, owner: Owner) returns (owned: Table)
    ensures owned == Family(records, owner)
  {
    if owner.pid !in records || Identity(records[owner.pid]) != owner {
      return map[];
    }
    owned := map[owner.pid := records[owner.pid]];
    ReachesItself(records, owner.pid);
    while true
      invariant owner.pid in owned && owned.Keys <= records.Keys
      invariant forall pid :: pid in owned ==> owned[pid] == records[pid] && Reaches(records, owner.pid, pid)
      decreases records.Keys - owned.Keys
    {
      var added := map pid | pid in records && pid !in owned && records[pid].ppid in owned :: records[pid];
      if added == map[] {
        assert forall pid :: pid in records && pid !in owned && records[pid].ppid in owned ==> pid in added.Keys;
        forall pid | Reaches(records, owner.pid, pid) ensures pid in owned {
          var path :| Chain(records, path) && path[0] == owner.pid && path[|path| - 1] == pid;
          ClosedHoldsReachable(records, owned.Keys, path);
        }
        assert owned.Keys == Family(records, owner).Keys;
        return;
      }
      forall pid | pid in added ensures Reaches(records, owner.pid, pid) {
        ReachesChild(records, owner.pid, pid);
      }
      GrowthDecreases(records, owned, added);
      owned := owned + added;
    }
  }

  lemma ReachesTransitively(t: Table, a: int, b: int, path: seq<int>)
    requires Reaches(t, a, b) && Chain(t, path) && path[0] == b
    ensures Reaches(t, a, path[|path| - 1])
  {
    var first :| Chain(t, first) && first[0] == a && first[|first| - 1] == b;
    var whole := first[..|first| - 1] + path;
    assert Chain(t, whole);
  }

  /** Everything on a chain from a member of the family is in the family. */
  lemma ChainStaysInFamily(t: Table, owner: Owner, path: seq<int>)
    requires Chain(t, path) && path[0] in Family(t, owner)
    ensures Chain(Family(t, owner), path)
  {
    forall i | 0 <= i < |path| ensures path[i] in Family(t, owner) {
      assert Chain(t, path[..i + 1]);
      ReachesTransitively(t, owner.pid, path[0], path[..i + 1]);
    }
  }

  /**
   Taking the descendants of a member inside a family is taking them in the full table; of a process
   outside the family there are none.
   */
  lemma NestedDescendants(t: Table, endpoint: Owner, child: Owner)
    ensures Family(Family(t, endpoint), child) ==
            if child.pid in Family(t, endpoint) then Family(t, child) else map[]
  {
    var inner := Family(t, endpoint);
    if child.pid in inner {
      forall pid | pid in t
        ensures Reaches(inner, child.pid, pid) <==> Reaches(t, child.pid, pid)
        ensures Reaches(t, child.pid, pid) ==> pid in inner
      {
        if Reaches(t, child.pid, pid) {
          var path :| Chain(t, path) && path[0] == child.pid && path[|path| - 1] == pid;
          ChainStaysInFamily(t, endpoint, path);
        }
        if Reaches(inner, child.pid, pid) {
          var path :| Chain(inner, path) && path[0] == child.pid && path[|path| - 1] == pid;
          assert Chain(t, path);
        }
      }
      assert Family(inner, child) == Family(t, child);
    }
  }

  /** No process outside a family has its parent inside it. */
  lemma FamilyIsClosed(t: Table, owner: Owner, pid: int)
    requires pid in t && t[pid].ppid in Family(t, owner)
    ensures pid in Family(t, owner)
  {
    ReachesChild(t, owner.pid, pid);
  }
}
