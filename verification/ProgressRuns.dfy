/** Incremental quorum tracking over whole runs: when the granted value is exact, and when it is not. */
module ProgressRuns {
  import opened Basics
  import opened Quorums
  import opened Progress

  datatype Op = Op(id: NodeId, value: int)

  function RunOps(t: Tracker, ops: seq<Op>): (r: Tracker)
    requires t.voters <= |t.vector|
    ensures r.configs == t.configs && r.voters == t.voters && |r.vector| == |t.vector|
    decreases |ops|
  {
    if |ops| == 0 then t else RunOps(IncreaseTo(t, ops[0].id, ops[0].value), ops[1..])
  }

  predicate OpGuard(t: Tracker, op: Op)
    requires t.voters <= |t.vector|
  {
    match IndexOf(t.vector, op.id)
    case None => true
    case Some(i) => op.value <= t.vector[i].value || Guard(t, i, op.value)
  }

  predicate Guarded(t: Tracker, ops: seq<Op>)
    requires t.voters <= |t.vector|
    decreases |ops|
  {
    |ops| == 0 || (OpGuard(t, ops[0]) && Guarded(IncreaseTo(t, ops[0].id, ops[0].value), ops[1..]))
  }

  lemma NewIsOk(configs: seq<set<NodeId>>, voters: seq<NodeId>, learners: seq<NodeId>, d: int)
    requires NoDup(voters + learners)
    ensures Sound(New(configs, voters, learners, d), d)
  {
  }

  lemma IncreaseKeeps(t: Tracker, d: int, op: Op)
    requires Sound(t, d) && OpGuard(t, op)
    ensures Sound(IncreaseTo(t, op.id, op.value), d)
  {
    match IndexOf(t.vector, op.id)
    case None =>
    case Some(i) => UpdateKeeps(t, d, i, if op.value > t.vector[i].value then op.value else t.vector[i].value);
  }

  /** Over every guarded run the granted value is the greatest one held by a quorum, and the voters above
      it stay in descending order at the front. */
  lemma {:induction false} GuardedRunIsExact(t: Tracker, d: int, ops: seq<Op>)
    requires Sound(t, d) && Guarded(t, ops)
    ensures Sound(RunOps(t, ops), d)
    decreases |ops|
  {
    if |ops| > 0 {
      IncreaseKeeps(t, d, ops[0]);
      GuardedRunIsExact(IncreaseTo(t, ops[0].id, ops[0].value), d, ops[1..]);
    }
  }

  // ---- who is tracked ----

  ghost predicate VotersAre(t: Tracker, configs: seq<set<NodeId>>, voters: set<NodeId>) {
    t.voters <= |t.vector| && t.configs == configs && Ids(t.vector, t.voters) == voters
  }

  lemma NewVoters(configs: seq<set<NodeId>>, voters: seq<NodeId>, learners: seq<NodeId>, d: int)
    ensures VotersAre(New(configs, voters, learners, d), configs, SetOf(voters))
  {
    var t := New(configs, voters, learners, d);
    assert forall i :: 0 <= i < |voters| ==> t.vector[i].id == (voters + learners)[i] == voters[i];
  }

  lemma MovedIds(v: seq<Entry>, voters: nat, i: nat, r: seq<Entry>, k: nat)
    requires i < voters <= |v| && Moved(v, i, r, k)
    ensures Ids(r, voters) == Ids(v, voters)
  {
    forall y | y in Ids(v, voters)
      ensures y in Ids(r, voters)
    {
      var j :| 0 <= j < voters && v[j].id == y;
      var j' := if j < k || j > i then j else if j == i then k else j + 1;
      assert r[j'] == v[j];
    }
    forall y | y in Ids(r, voters)
      ensures y in Ids(v, voters)
    {
      var j :| 0 <= j < voters && r[j].id == y;
      var j' := if j < k || j > i then j else if j == k then i else j - 1;
      assert r[j] == v[j'];
    }
  }

  lemma VotersStay(t: Tracker, configs: seq<set<NodeId>>, voters: set<NodeId>, op: Op)
    requires VotersAre(t, configs, voters)
    ensures VotersAre(IncreaseTo(t, op.id, op.value), configs, voters)
  {
    match IndexOf(t.vector, op.id)
    case None =>
    case Some(i) =>
      var x := if op.value > t.vector[i].value then op.value else t.vector[i].value;
      var v := t.vector[i := Entry(t.vector[i].id, x)];
      assert forall j :: 0 <= j < |v| ==> v[j].id == t.vector[j].id;
      assert Ids(v, t.voters) == Ids(t.vector, t.voters);
      if i < t.voters {
        var (r, k) := MoveUp(v, i);
        MoveUpIs(v, i);
        MovedIds(v, t.voters, i, r, k);
      }
  }

  lemma {:induction false} RunAppend(t: Tracker, a: seq<Op>, b: seq<Op>)
    requires t.voters <= |t.vector|
    ensures RunOps(t, a + b) == RunOps(RunOps(t, a), b)
    decreases |a|
  {
    if |a| == 0 {
      assert a + b == b;
    } else {
      assert (a + b)[1..] == a[1..] + b;
      RunAppend(IncreaseTo(t, a[0].id, a[0].value), a[1..], b);
    }
  }

  // ---- the sorting update ----

  function RaiseSorted(t: Tracker, op: Op): (r: Tracker)
    requires t.voters <= |t.vector|
    ensures r.configs == t.configs && r.voters == t.voters && |r.vector| == |t.vector|
  {
    match IndexOf(t.vector, op.id)
    case None => t
    case Some(i) => UpdateSorted(t, i, if op.value > t.vector[i].value then op.value else t.vector[i].value)
  }

  lemma RaiseSortedKeeps(t: Tracker, d: int, op: Op)
    requires Sound(t, d)
    ensures Sound(RaiseSorted(t, op), d)
  {
    match IndexOf(t.vector, op.id)
    case None =>
    case Some(i) => UpdateSortedKeeps(t, d, i, if op.value > t.vector[i].value then op.value else t.vector[i].value);
  }

  function RunSorted(t: Tracker, ops: seq<Op>): (r: Tracker)
    requires t.voters <= |t.vector|
    ensures r.voters == t.voters && |r.vector| == |t.vector|
    decreases |ops|
  {
    if |ops| == 0 then t else RunSorted(RaiseSorted(t, ops[0]), ops[1..])
  }

  /** If a voter were moved up whenever it goes above the granted value, every run would be exact, for
      every joint quorum set and any number of voters. */
  lemma {:induction false} SortedRunIsExact(t: Tracker, d: int, ops: seq<Op>)
    requires Sound(t, d)
    ensures Sound(RunSorted(t, ops), d)
    decreases |ops|
  {
    if |ops| > 0 {
      RaiseSortedKeeps(t, d, ops[0]);
      SortedRunIsExact(RaiseSorted(t, ops[0]), d, ops[1..]);
    }
  }
}
