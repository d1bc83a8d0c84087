/** The tracker as the mutable object it is, and its uses: a change of the quorum set, and an election. */
module ProgressVec {
  import opened Basics
  import opened Quorums
  import opened Progress
  import opened ProgressRuns

  // ---- values by id ----

  lemma MovedMembers(v: seq<Entry>, i: nat, r: seq<Entry>, k: nat, e: Entry)
    requires Moved(v, i, r, k)
    ensures e in r <==> e in v
  {
    if e in v {
      var j :| 0 <= j < |v| && v[j] == e;
      var j' := if j < k || j > i then j else if j == i then k else j + 1;
      assert r[j'] == e;
    }
    if e in r {
      var j :| 0 <= j < |r| && r[j] == e;
      var j' := if j < k || j > i then j else if j == k then i else j - 1;
      assert v[j'] == e;
    }
  }

  /** An update changes the value of one id and no other. */
  lemma UpdateMembers(t: Tracker, i: nat, x: int, e: Entry)
    requires t.voters <= |t.vector| && Distinct(t.vector) && i < |t.vector|
    ensures e in UpdateAt(t, i, x).vector <==>
            if e.id == t.vector[i].id then e.value == x else e in t.vector
  {
    var v := t.vector[i := Entry(t.vector[i].id, x)];
    assert v[i] == Entry(t.vector[i].id, x);
    assert e in v <==> if e.id == t.vector[i].id then e.value == x else e in t.vector by {
      if e in t.vector && e.id != t.vector[i].id {
        var j :| 0 <= j < |t.vector| && t.vector[j] == e;
        assert v[j] == e;
      }
    }
    var (r, k) := MoveUp(v, i);
    MoveUpIs(v, i);
    MovedMembers(v, i, r, k, e);
  }

  /** The greatest value that the operations give to an id, or the default. */
  function Highest(ops: seq<Op>, id: NodeId, d: int): (r: int)
    ensures r >= d && forall k :: 0 <= k < |ops| && ops[k].id == id ==> ops[k].value <= r
    ensures r == d || exists k :: 0 <= k < |ops| && ops[k] == Op(id, r)
    decreases |ops|
  {
    if |ops| == 0 then d
    else
      var r := Highest(ops[1..], id, if ops[0].id == id && d < ops[0].value then ops[0].value else d);
      assert forall k :: 0 < k < |ops| ==> ops[k] == ops[1..][k - 1];
      r
  }

  lemma RaiseStep(t: Tracker, op: Op, id: NodeId, x: int)
    requires t.voters <= |t.vector| && Distinct(t.vector) && Entry(id, x) in t.vector
    ensures var t' := IncreaseTo(t, op.id, op.value);
            Distinct(t'.vector)
            && Entry(id, if op.id == id && x < op.value then op.value else x) in t'.vector
  {
    match IndexOf(t.vector, op.id)
    case None =>
      var j :| 0 <= j < |t.vector| && t.vector[j] == Entry(id, x);
    case Some(i) =>
      var y := if op.value > t.vector[i].value then op.value else t.vector[i].value;
      UpdateDistinct(t, i, y);
      UpdateMembers(t, i, y, Entry(id, if op.id == id && x < op.value then op.value else x));
  }

  lemma UpdateDistinct(t: Tracker, i: nat, x: int)
    requires t.voters <= |t.vector| && Distinct(t.vector) && i < |t.vector|
    ensures Distinct(UpdateAt(t, i, x).vector)
  {
    var v := t.vector[i := Entry(t.vector[i].id, x)];
    assert Distinct(v);
    var (r, k) := MoveUp(v, i);
    MoveUpIs(v, i);
    MovedDistinct(v, i, r, k);
  }

  lemma {:induction false} RaisesAll(t: Tracker, ops: seq<Op>, id: NodeId, x: int)
    requires t.voters <= |t.vector| && Distinct(t.vector) && Entry(id, x) in t.vector
    ensures Distinct(RunOps(t, ops).vector) && Entry(id, Highest(ops, id, x)) in RunOps(t, ops).vector
    decreases |ops|
  {
    hide IncreaseTo;
    if |ops| > 0 {
      RaiseStep(t, ops[0], id, x);
      RaisesAll(IncreaseTo(t, ops[0].id, ops[0].value), ops[1..], id,
                if ops[0].id == id && x < ops[0].value then ops[0].value else x);
    }
  }

  /** After every run, in order or not, a tracked id has the greatest value it was raised to, or the default. */
  lemma RunValues(configs: seq<set<NodeId>>, voters: seq<NodeId>, learners: seq<NodeId>, d: int, ops: seq<Op>,
                  id: NodeId, x: int)
    requires NoDup(voters + learners) && id in voters + learners
    ensures Entry(id, x) in RunOps(New(configs, voters, learners, d), ops).vector <==> x == Highest(ops, id, d)
  {
    hide Highest, RunOps;
    var t := New(configs, voters, learners, d);
    var i :| 0 <= i < |voters + learners| && (voters + learners)[i] == id;
    assert t.vector[i] == Entry(id, d);
    assert Distinct(t.vector) by { NewIsOk(configs, voters, learners, d); }
    RaisesAll(t, ops, id, d);
  }

  // ---- change of the quorum set ----

  /** Every entry is carried over in turn, where its id is tracked. */
  function Absorb(t: Tracker, entries: seq<Entry>): (r: Tracker)
    requires t.voters <= |t.vector|
    ensures r.voters == t.voters && |r.vector| == |t.vector|
  {
    if |entries| == 0 then t
    else
      var t1 := Absorb(t, entries[..|entries| - 1]);
      var e := entries[|entries| - 1];
      match IndexOf(t1.vector, e.id)
      case None => t1
      case Some(i) => UpdateAt(t1, i, e.value)
  }

  function Upgrade(was: Tracker, configs: seq<set<NodeId>>, voters: seq<NodeId>, learners: seq<NodeId>, d: int)
    : Tracker
  {
    Absorb(New(configs, voters, learners, d), was.vector)
  }

  ghost predicate HasId(v: seq<Entry>, id: NodeId) {
    exists i :: 0 <= i < |v| && v[i].id == id
  }

  /** What the upgraded tracker holds after the first entries were carried over. */
  ghost predicate Absorbed(v: seq<Entry>, entries: seq<Entry>, ids: seq<NodeId>, d: int) {
    forall e: Entry ::
      e in v <==> e.id in ids && (e in entries || (!HasId(entries, e.id) && e.value == d))
  }

  lemma NewMembers(configs: seq<set<NodeId>>, voters: seq<NodeId>, learners: seq<NodeId>, d: int)
    ensures Absorbed(New(configs, voters, learners, d).vector, [], voters + learners, d)
  {
    var v, ids := New(configs, voters, learners, d).vector, voters + learners;
    assert forall i :: 0 <= i < |ids| ==> v[i] == Entry(ids[i], d);
    forall e: Entry
      ensures e in v <==> e.id in ids && e.value == d
    {
      if e.id in ids && e.value == d {
        var i :| 0 <= i < |ids| && ids[i] == e.id;
        assert v[i] == e;
      }
    }
  }

  lemma IdTracked(v: seq<Entry>, entries: seq<Entry>, ids: seq<NodeId>, d: int, id: NodeId)
    requires Absorbed(v, entries, ids, d)
    ensures HasId(v, id) <==> id in ids
  {
    if id in ids {
      if j :| 0 <= j < |entries| && entries[j].id == id {
        assert entries[j] in v;
      } else {
        assert Entry(id, d) in v;
      }
    }
    if j :| 0 <= j < |v| && v[j].id == id {
      assert v[j] in v;
    }
  }

  /** Carrying over one more entry: its id still has the default value. */
  lemma AbsorbStep(t: Tracker, d: int, entries: seq<Entry>, ids: seq<NodeId>)
    requires |entries| > 0 && Distinct(entries) && Sound(t, d) && entries[|entries| - 1].value >= d
    requires Absorbed(t.vector, entries[..|entries| - 1], ids, d)
    ensures var e := entries[|entries| - 1];
            match IndexOf(t.vector, e.id)
            case None => Absorbed(t.vector, entries, ids, d)
            case Some(i) =>
              Sound(UpdateAt(t, i, e.value), d) && Absorbed(UpdateAt(t, i, e.value).vector, entries, ids, d)
  {
    hide Sound;
    var front, e := entries[..|entries| - 1], entries[|entries| - 1];
    IdTracked(t.vector, front, ids, d, e.id);
    assert !HasId(front, e.id);
    match IndexOf(t.vector, e.id)
    case None => AbsorbNothing(t.vector, entries, ids, d);
    case Some(i) =>
      assert t.vector[i] in t.vector;
      assert t.vector[i].value == d;
      AbsorbUpdates(t, d, i, e.value);
      assert Distinct(t.vector) by { SoundDistinct(t, d); }
      forall x: Entry
        ensures x in UpdateAt(t, i, e.value).vector <==>
                x.id in ids && (x in entries || (!HasId(entries, x.id) && x.value == d))
      {
        UpdateMembers(t, i, e.value, x);
        EntriesGrow(entries, x);
      }
  }

  lemma SoundDistinct(t: Tracker, d: int)
    requires Sound(t, d)
    ensures Distinct(t.vector)
  {
  }

  lemma AbsorbUpdates(t: Tracker, d: int, i: nat, x: int)
    requires Sound(t, d) && i < |t.vector| && t.vector[i].value == d <= x
    ensures Sound(UpdateAt(t, i, x), d)
  {
    UpdateKeeps(t, d, i, x);
  }

  lemma EntriesGrow(entries: seq<Entry>, x: Entry)
    requires |entries| > 0
    ensures var front, e := entries[..|entries| - 1], entries[|entries| - 1];
            (x in entries <==> x in front || x == e)
            && (HasId(entries, x.id) <==> HasId(front, x.id) || x.id == e.id)
  {
  }

  lemma AbsorbNothing(v: seq<Entry>, entries: seq<Entry>, ids: seq<NodeId>, d: int)
    requires |entries| > 0 && Absorbed(v, entries[..|entries| - 1], ids, d)
    requires entries[|entries| - 1].id !in ids
    ensures Absorbed(v, entries, ids, d)
  {
  }

  /** A change of the quorum set is exact whatever state the old tracker was in: the granted value is the
      greatest one held by a quorum of the new set, ids that stay keep their values, and new ones start at
      the default. */
  lemma {:induction false} UpgradeIsExact(configs: seq<set<NodeId>>, voters: seq<NodeId>, learners: seq<NodeId>,
                                          d: int, entries: seq<Entry>)
    requires NoDup(voters + learners) && Distinct(entries)
    requires forall i :: 0 <= i < |entries| ==> entries[i].value >= d
    ensures var t := Absorb(New(configs, voters, learners, d), entries);
            Sound(t, d) && Absorbed(t.vector, entries, voters + learners, d)
    decreases |entries|
  {
    hide Sound, Absorbed;
    if |entries| == 0 {
      NewIsOk(configs, voters, learners, d);
      NewMembers(configs, voters, learners, d);
    } else {
      UpgradeIsExact(configs, voters, learners, d, entries[..|entries| - 1]);
      AbsorbStep(Absorb(New(configs, voters, learners, d), entries[..|entries| - 1]), d, entries, voters + learners);
    }
  }

  // ---- elections ----

  /** The grants, as raises from 0 to 1. */
  function Grants(ids: seq<NodeId>): (ops: seq<Op>)
    ensures |ops| == |ids|
  {
    seq(|ids|, i requires 0 <= i < |ids| => Op(ids[i], 1))
  }

  ghost predicate Flags(t: Tracker) {
    (t.granted == 0 || t.granted == 1)
    && forall i :: 0 <= i < |t.vector| ==> t.vector[i].value == 0 || t.vector[i].value == 1
  }

  lemma {:induction false} ScanOne(configs: seq<set<NodeId>>, v: seq<Entry>, voters: nat, i: nat, g: int)
    requires voters <= |v| && (forall j :: 0 <= j < |v| ==> v[j].value == 0 || v[j].value == 1)
    requires g == 0 || g == 1
    ensures Scan(configs, v, voters, i, g) == 0 || Scan(configs, v, voters, i, g) == 1
    decreases |v| - i
  {
    if i < voters && v[i].value > g && !IsQuorum(configs, Ids(v, i + 1)) {
      ScanOne(configs, v, voters, i + 1, g);
    }
  }

  lemma FlagsStay(t: Tracker, id: NodeId)
    requires t.voters <= |t.vector| && Flags(t)
    ensures Flags(IncreaseTo(t, id, 1)) && OpGuard(t, Op(id, 1))
  {
    match IndexOf(t.vector, id)
    case None =>
    case Some(i) =>
      var v := t.vector[i := Entry(id, 1)];
      var (r, k) := MoveUp(v, i);
      MoveUpIs(v, i);
      forall j | 0 <= j < |r|
        ensures r[j].value == 0 || r[j].value == 1
      {
        MovedMembers(v, i, r, k, r[j]);
      }
      ScanOne(t.configs, r, t.voters, k, t.granted);
  }

  /** Who has granted so far: the ids with flag 1. */
  ghost predicate GrantedBy(t: Tracker, ids: seq<NodeId>, grants: seq<NodeId>) {
    forall e: Entry :: e in t.vector <==> e.id in ids && e.value == (if e.id in grants then 1 else 0)
  }

  lemma GrantStep(t: Tracker, ids: seq<NodeId>, grants: seq<NodeId>, id: NodeId)
    requires Sound(t, 0) && Flags(t) && GrantedBy(t, ids, grants)
    ensures var t' := IncreaseTo(t, id, 1);
            Sound(t', 0) && Flags(t') && GrantedBy(t', ids, grants + [id])
  {
    hide Exact, Ordered;
    FlagsStay(t, id);
    IncreaseKeeps(t, 0, Op(id, 1));
    match IndexOf(t.vector, id)
    case None =>
      var x := Entry(id, if id in grants then 1 else 0);
      assert x in t.vector <==> id in ids;
    case Some(i) =>
      assert t.vector[i] in t.vector;
      forall e: Entry
        ensures e in IncreaseTo(t, id, 1).vector <==>
                e.id in ids && e.value == (if e.id in grants + [id] then 1 else 0)
      {
        UpdateMembers(t, i, 1, e);
      }
  }

  lemma GrantBase(configs: seq<set<NodeId>>, voters: seq<NodeId>)
    requires NoDup(voters)
    ensures var t := New(configs, voters, [], 0);
            Sound(t, 0) && Flags(t) && GrantedBy(t, voters, [])
  {
    assert voters + [] == voters;
    NewIsOk(configs, voters, [], 0);
    NewMembers(configs, voters, [], 0);
  }

  lemma {:induction false} GrantRun(configs: seq<set<NodeId>>, voters: seq<NodeId>, grants: seq<NodeId>)
    requires NoDup(voters)
    ensures var t := RunOps(New(configs, voters, [], 0), Grants(grants));
            Sound(t, 0) && Flags(t) && GrantedBy(t, voters, grants)
    decreases |grants|
  {
    hide Sound, Flags, GrantedBy, IncreaseTo;
    var t0 := New(configs, voters, [], 0);
    assert voters + [] == voters;
    if |grants| == 0 {
      GrantBase(configs, voters);
    } else {
      var front, id := grants[..|grants| - 1], grants[|grants| - 1];
      GrantRun(configs, voters, front);
      assert grants == front + [id];
      assert Grants(grants) == Grants(front) + [Op(id, 1)];
      RunAppend(t0, Grants(front), [Op(id, 1)]);
      var t := RunOps(t0, Grants(front));
      GrantStep(t, voters, front, id);
      assert RunOps(t, [Op(id, 1)]) == RunOps(IncreaseTo(t, id, 1), [Op(id, 1)][1..]);
    }
  }

  /** After any grants, in any order and repeated or not, the election is won exactly if the granting
      voters form a quorum. */
  lemma ElectionIsExact(configs: seq<set<NodeId>>, voters: seq<NodeId>, grants: seq<NodeId>)
    requires NoDup(voters) && grants != [] && (forall g :: g in grants ==> g in voters)
    ensures RunOps(New(configs, voters, [], 0), Grants(grants)).granted == 1
            <==> IsQuorum(configs, SetOf(grants))
  {
    var t := RunOps(New(configs, voters, [], 0), Grants(grants));
    GrantRun(configs, voters, grants);
    assert Holders(t, 1) == SetOf(grants) by {
      forall g | g in SetOf(grants)
        ensures g in Holders(t, 1)
      {
        assert g in grants && g in voters;
        assert Entry(g, 1) in t.vector;
        var i :| 0 <= i < |t.vector| && t.vector[i] == Entry(g, 1);
        assert t.vector[i].id == g;
      }
      forall g | g in Holders(t, 1)
        ensures g in SetOf(grants)
      {
        var i :| 0 <= i < t.voters && t.vector[i].value >= 1 && t.vector[i].id == g;
        assert t.vector[i] in t.vector;
      }
    }
    if t.granted == 0 {
      assert Entry(grants[0], 1) in t.vector;
      var i :| 0 <= i < |t.vector| && t.vector[i] == Entry(grants[0], 1);
      assert t.vector[i].value > t.granted;
    }
  }

  // ---- the object ----

  /** The ids of the first `k` entries in order. */
  function IdSeq(v: seq<Entry>, k: nat): seq<NodeId>
    requires k <= |v|
  {
    seq(k, j requires 0 <= j < k => v[j].id)
  }

  lemma IdSeqIs(v: seq<Entry>, k: nat)
    requires k <= |v| && Distinct(v)
    ensures NoDup(IdSeq(v, k)) && SetOf(IdSeq(v, k)) == Ids(v, k)
  {
    var ids := IdSeq(v, k);
    assert forall j :: 0 <= j < k ==> ids[j] == v[j].id;
    assert forall y :: y in Ids(v, k) <==> y in SetOf(ids);
  }

  class VecProgress {
    var configs: seq<set<NodeId>>
    var granted: int
    var voterCount: nat
    var vector: seq<Entry>

    function View(): Tracker
      reads this
    {
      Tracker(configs, granted, voterCount, vector)
    }

    /** Ids are tracked once, voters first. */
    ghost predicate Valid()
      reads this
    {
      voterCount <= |vector| && Distinct(vector)
    }

    constructor (configs: seq<set<NodeId>>, voters: seq<NodeId>, learners: seq<NodeId>, d: int)
      requires NoDup(voters + learners)
      ensures Valid() && View() == New(configs, voters, learners, d)
    {
      this.configs := configs;
      granted := d;
      voterCount := |voters|;
      vector := New(configs, voters, learners, d).vector;
      new;
      var ids := voters + learners;
      assert forall i :: 0 <= i < |ids| ==> vector[i].id == ids[i];
    }

    method Index(target: NodeId) returns (r: Option<nat>)
      ensures r == IndexOf(vector, target)
    {
      for i := 0 to |vector|
        invariant IndexOf(vector, target) == IndexFrom(vector, target, i)
      {
        if vector[i].id == target {
          return Some(i);
        }
      }
      return None;
    }

    method MoveUp(index: nat) returns (k: nat)
      requires index < |vector|
      modifies this`vector
      ensures (vector, k) == Progress.MoveUp(old(vector), index)
    {
      var i := index;
      while i > 0
        invariant 0 <= i <= index && |vector| == |old(vector)|
        invariant Progress.MoveUp(vector, i) == Progress.MoveUp(old(vector), index)
      {
        if vector[i - 1].value < vector[i].value {
          vector := Swap(vector, i - 1, i);
        } else {
          return i;
        }
        i := i - 1;
      }
      return 0;
    }

    /** Set the value of a tracked id. Values do not go down. */
    method Update(id: NodeId, value: int) returns (r: Result<int, int>)
      requires Valid()
      requires forall i :: 0 <= i < |vector| && vector[i].id == id ==> vector[i].value <= value
      modifies this
      ensures Valid()
      ensures match IndexOf(old(vector), id)
              case None => r == Err(granted) && View() == old(View())
              case Some(i) => r == Ok(granted) && View() == UpdateAt(old(View()), i, value)
    {
      var index := Index(id);
      if index.None? {
        return Err(granted);
      }
      var i := index.value;
      var prev := vector[i].value;
      vector := vector[i := Entry(id, value)];
      if prev == value || i >= voterCount {
        return Ok(granted);
      }
      if prev <= granted && value > granted {
        ghost var v := vector;
        assert Distinct(v);
        var k := MoveUp(i);
        MoveUpIs(v, i);
        MovedDistinct(v, i, vector, k);
        Rescan(k);
      }
      return Ok(granted);
    }

    /** From high to low, find the greatest value that a quorum holds. */
    method Rescan(start: nat)
      requires Valid()
      modifies this`granted
      ensures granted == Scan(configs, vector, voterCount, start, old(granted))
    {
      var k := start;
      while k < voterCount
        invariant 0 <= k && granted == old(granted)
        invariant Scan(configs, vector, voterCount, k, granted)
                  == Scan(configs, vector, voterCount, start, old(granted))
        decreases |vector| - k
      {
        if vector[k].value <= granted {
          break;
        }
        IdSeqIs(vector, k + 1);
        var ok := CountQuorum(configs, IdSeq(vector, k + 1));
        if ok {
          granted := vector[k].value;
          return;
        }
        k := k + 1;
      }
    }

    /** Set the value if it is greater than the current one. */
    method Raise(id: NodeId, value: int) returns (r: Result<int, int>)
      requires Valid()
      modifies this
      ensures Valid() && View() == IncreaseTo(old(View()), id, value)
      ensures r == if IndexOf(old(vector), id).None? then Err(granted) else Ok(granted)
    {
      var index := Index(id);
      match index {
        case None => r := Err(granted);
        case Some(i) => r := Update(id, if value > vector[i].value then value else vector[i].value);
      }
    }

    /** Build a tracker for another quorum set with the values of this one. */
    method UpgradeQuorumSet(configs: seq<set<NodeId>>, voters: seq<NodeId>, learners: seq<NodeId>, d: int)
      returns (p: VecProgress)
      requires Valid() && NoDup(voters + learners)
      requires forall i :: 0 <= i < |vector| ==> vector[i].value >= d
      ensures fresh(p) && p.Valid() && p.View() == Upgrade(View(), configs, voters, learners, d)
    {
      p := new VecProgress(configs, voters, learners, d);
      ghost var t0 := p.View();
      for k := 0 to |vector|
        invariant fresh(p) && p.Valid() && p.View() == Absorb(t0, vector[..k])
      {
        assert vector[..k + 1][..k] == vector[..k];
        StillDefault(configs, voters, learners, d, vector, k);
        var _ := p.Update(vector[k].id, vector[k].value);
      }
      assert vector[..|vector|] == vector;
    }
  }

  /** An entry that is about to be carried over still has the default value, so it is not lowered. */
  lemma StillDefault(configs: seq<set<NodeId>>, voters: seq<NodeId>, learners: seq<NodeId>, d: int,
                     entries: seq<Entry>, k: nat)
    requires NoDup(voters + learners) && Distinct(entries) && k < |entries|
    requires forall i :: 0 <= i < |entries| ==> entries[i].value >= d
    ensures var t := Absorb(New(configs, voters, learners, d), entries[..k]);
            forall i :: 0 <= i < |t.vector| && t.vector[i].id == entries[k].id ==> t.vector[i].value == d
  {
    hide Sound;
    var t := Absorb(New(configs, voters, learners, d), entries[..k]);
    UpgradeIsExact(configs, voters, learners, d, entries[..k]);
    forall i | 0 <= i < |t.vector| && t.vector[i].id == entries[k].id
      ensures t.vector[i].value == d
    {
      assert t.vector[i] in t.vector;
    }
  }

  /** A candidate counts the voters that grant it its vote. */
  class Candidate {
    const progress: VecProgress

    constructor (configs: seq<set<NodeId>>, voters: seq<NodeId>)
      requires NoDup(voters)
      ensures fresh(progress) && progress.Valid() && progress.View() == New(configs, voters, [], 0)
    {
      assert voters + [] == voters;
      progress := new VecProgress(configs, voters, [], 0);
    }

    /** Whether the vote is granted by a quorum now; an error if the node is not a voter. */
    method GrantBy(target: NodeId) returns (r: Result<bool, ()>)
      requires progress.Valid() && Flags(progress.View())
      modifies progress
      ensures progress.Valid() && Flags(progress.View())
      ensures progress.View() == IncreaseTo(old(progress.View()), target, 1)
      ensures r == if IndexOf(old(progress.vector), target).None? then Err(()) else Ok(progress.granted == 1)
    {
      FlagsStay(progress.View(), target);
      var g := progress.Raise(target, 1);
      r := if g.Ok? then Ok(g.value == 1) else Err(());
    }
  }
}
