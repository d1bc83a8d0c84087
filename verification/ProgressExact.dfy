/** When incremental quorum tracking is exact on every run, for every joint quorum set. */
module ProgressExact {
  import opened Basics
  import opened Quorums
  import opened Progress
  import opened ProgressRuns

  /** Every two voters are a quorum. */
  ghost predicate PairsAreQuorums(configs: seq<set<NodeId>>, voters: set<NodeId>) {
    forall a, b :: a in voters && b in voters && a != b ==> IsQuorum(configs, {a, b})
  }

  /** The voters that are no quorum alone. */
  ghost function Weak(configs: seq<set<NodeId>>, voters: set<NodeId>): set<NodeId> {
    set v | v in voters && !IsQuorum(configs, {v})
  }

  // ---- every two voters are a quorum ----

  /** At most one voter is above the granted value, and it is at the front. */
  lemma PairsAreGuarded(t: Tracker, d: int, configs: seq<set<NodeId>>, voters: set<NodeId>, op: Op)
    requires Sound(t, d) && VotersAre(t, configs, voters) && PairsAreQuorums(configs, voters)
    ensures OpGuard(t, op)
  {
    match IndexOf(t.vector, op.id)
    case None =>
    case Some(i) =>
      if 0 < i < t.voters && t.vector[i].value > t.granted {
        var two := {t.vector[0].id, t.vector[i].id};
        QuorumGrows(configs, two, Holders(t, t.vector[i].value));
      }
  }

  lemma {:induction false} PairsRunIsExact(t: Tracker, d: int, configs: seq<set<NodeId>>, voters: set<NodeId>,
                                           ops: seq<Op>)
    requires Sound(t, d) && VotersAre(t, configs, voters) && PairsAreQuorums(configs, voters)
    ensures Sound(RunOps(t, ops), d)
    decreases |ops|
  {
    hide PairsAreQuorums, Sound, VotersAre;
    if |ops| > 0 {
      PairsAreGuarded(t, d, configs, voters, ops[0]);
      IncreaseKeeps(t, d, ops[0]);
      VotersStay(t, configs, voters, ops[0]);
      PairsRunIsExact(IncreaseTo(t, ops[0].id, ops[0].value), d, configs, voters, ops[1..]);
    }
  }

  // ---- the voters that are no quorum alone are none together ----

  /** A voter that is a quorum alone is not above the granted value, nor before one that is. */
  ghost predicate Led(configs: seq<set<NodeId>>, v: seq<Entry>, voters: nat, granted: int)
    requires voters <= |v|
  {
    forall i, j :: 0 <= i <= j < voters && IsQuorum(configs, {v[i].id}) ==> v[j].value <= granted
  }

  /** The granted value is that of a voter that is a quorum alone, if it was ever raised. */
  ghost predicate Ruled(t: Tracker, d: int) {
    t.voters <= |t.vector| && Distinct(t.vector) && Led(t.configs, t.vector, t.voters, t.granted) && d <= t.granted
    && (t.granted == d
        || exists i :: 0 <= i < t.voters && IsQuorum(t.configs, {t.vector[i].id}) && t.vector[i].value >= t.granted)
  }

  lemma RuledIsExact(t: Tracker, d: int, voters: set<NodeId>)
    requires Ruled(t, d) && VotersAre(t, t.configs, voters) && !IsQuorum(t.configs, Weak(t.configs, voters))
    ensures Exact(t, d)
  {
    if t.granted != d {
      var i :| 0 <= i < t.voters && IsQuorum(t.configs, {t.vector[i].id}) && t.vector[i].value >= t.granted;
      QuorumGrows(t.configs, {t.vector[i].id}, Holders(t, t.granted));
    }
    forall i | 0 <= i < t.voters && t.vector[i].value > t.granted
      ensures !IsQuorum(t.configs, Holders(t, t.vector[i].value))
    {
      var u := t.vector[i].value;
      forall y | y in Holders(t, u)
        ensures y in Weak(t.configs, voters)
      {
        var j :| 0 <= j < t.voters && t.vector[j].value >= u && t.vector[j].id == y;
        assert y in Ids(t.vector, t.voters);
      }
      if IsQuorum(t.configs, Holders(t, u)) {
        QuorumGrows(t.configs, Holders(t, u), Weak(t.configs, voters));
        assert false;
      }
    }
  }

  /** `r` is `v` after the voter at `i` was raised to `x` and moved up to `k`. */
  ghost predicate Risen(v: seq<Entry>, i: nat, x: int, r: seq<Entry>, k: nat) {
    i < |v| && var v1 := v[i := Entry(v[i].id, x)];
    Moved(v1, i, r, k) && (forall j :: k <= j < i ==> v1[j].value < x) && (k > 0 ==> v1[k - 1].value >= x)
  }

  /** Where the element at `a` of the new vector was. */
  function Before(i: nat, k: nat, a: nat): nat {
    if a < k || a > i then a else if a == k then i else a - 1
  }

  lemma RisenAt(v: seq<Entry>, i: nat, x: int, r: seq<Entry>, k: nat, a: nat)
    requires Risen(v, i, x, r, k) && a < |v|
    ensures var b := Before(i, k, a);
            b < |v| && r[a].id == v[b].id && r[a].value == (if a == k then x else v[b].value)
            && (k < a <= i ==> r[a].value < x)
  {
    var v1 := v[i := Entry(v[i].id, x)];
    assert r[a] == v1[Before(i, k, a)];
  }

  /** A voter that is a quorum alone goes above the granted value: it is then the first such voter, and what is
      behind it is below it. */
  lemma RulerRises(configs: seq<set<NodeId>>, v: seq<Entry>, voters: nat, g: int, i: nat, x: int,
                   r: seq<Entry>, k: nat)
    requires i < voters <= |v| && Led(configs, v, voters, g) && g < x && Risen(v, i, x, r, k)
    requires IsQuorum(configs, {v[i].id})
    ensures Led(configs, r, voters, x)
  {
    hide IsQuorum;
    forall a, b | 0 <= a <= b < voters && IsQuorum(configs, {r[a].id})
      ensures r[b].value <= x
    {
      RisenAt(v, i, x, r, k, a);
      RisenAt(v, i, x, r, k, b);
      assert b > i ==> v[b].value <= g;
    }
  }

  lemma OtherRises(configs: seq<set<NodeId>>, v: seq<Entry>, voters: nat, g: int, i: nat, x: int,
                   r: seq<Entry>, k: nat)
    requires i < voters <= |v| && Led(configs, v, voters, g) && v[i].value <= g < x && Risen(v, i, x, r, k)
    requires !IsQuorum(configs, {v[i].id})
    ensures Led(configs, r, voters, g)
  {
    hide IsQuorum;
    forall a, b | 0 <= a <= b < voters && IsQuorum(configs, {r[a].id})
      ensures r[b].value <= g
    {
      RisenAt(v, i, x, r, k, a);
      RisenAt(v, i, x, r, k, b);
    }
  }

  /** The voters up to one above the granted value are none that are a quorum alone. */
  lemma FrontIsWeak(configs: seq<set<NodeId>>, v: seq<Entry>, voters: nat, k: nat, g: int)
    requires k < voters <= |v| && Led(configs, v, voters, g) && v[k].value > g
    requires !IsQuorum(configs, Weak(configs, Ids(v, voters)))
    ensures !IsQuorum(configs, Ids(v, k + 1))
  {
    hide IsQuorum;
    forall y | y in Ids(v, k + 1)
      ensures y in Weak(configs, Ids(v, voters))
    {
      var j :| 0 <= j < k + 1 && v[j].id == y;
    }
    LessIsNone(configs, Ids(v, k + 1), Weak(configs, Ids(v, voters)));
  }

  /** As long as no voter above the granted value is behind one that is a quorum alone, the scan grants nothing. */
  lemma {:induction false} ScanStays(configs: seq<set<NodeId>>, v: seq<Entry>, voters: nat, k: nat, g: int)
    requires voters <= |v| && Led(configs, v, voters, g)
    requires !IsQuorum(configs, Weak(configs, Ids(v, voters)))
    ensures Scan(configs, v, voters, k, g) == g
    decreases |v| - k
  {
    hide IsQuorum, Led, Ids, Weak;
    if k < voters && v[k].value > g {
      FrontIsWeak(configs, v, voters, k, g);
      ScanStays(configs, v, voters, k + 1, g);
    }
  }

  lemma RiseKeeps(t: Tracker, d: int, voters: set<NodeId>, i: nat, x: int)
    requires Ruled(t, d) && VotersAre(t, t.configs, voters) && !IsQuorum(t.configs, Weak(t.configs, voters))
    requires i < t.voters && t.vector[i].value <= t.granted < x
    ensures Ruled(Reposition(t, i, x), d)
  {
    hide IsQuorum, Weak;
    var v1 := t.vector[i := Entry(t.vector[i].id, x)];
    var (r, k) := MoveUp(v1, i);
    MoveUpIs(v1, i);
    assert Distinct(v1);
    MovedDistinct(v1, i, r, k);
    assert Ids(v1, t.voters) == voters by {
      assert forall j :: 0 <= j < |v1| ==> v1[j].id == t.vector[j].id;
    }
    MovedIds(v1, t.voters, i, r, k);
    var t' := Reposition(t, i, x);
    if IsQuorum(t.configs, {t.vector[i].id}) {
      RulerRises(t.configs, t.vector, t.voters, t.granted, i, x, r, k);
      QuorumGrows(t.configs, {r[k].id}, Ids(r, k + 1));
      assert t'.granted == x && t'.vector[k].value == x && IsQuorum(t.configs, {t'.vector[k].id});
    } else {
      OtherRises(t.configs, t.vector, t.voters, t.granted, i, x, r, k);
      ScanStays(t.configs, r, t.voters, k, t.granted);
      RulerStays(t, i, x, r, k);
    }
  }

  lemma RulerStays(t: Tracker, i: nat, x: int, r: seq<Entry>, k: nat)
    requires t.voters <= |t.vector| && i < t.voters && Risen(t.vector, i, x, r, k)
    requires !IsQuorum(t.configs, {t.vector[i].id})
    ensures (exists j :: 0 <= j < t.voters && IsQuorum(t.configs, {t.vector[j].id}) && t.vector[j].value >= t.granted)
            ==> exists j :: 0 <= j < t.voters && IsQuorum(t.configs, {r[j].id}) && r[j].value >= t.granted
  {
    hide IsQuorum;
    if j :| 0 <= j < t.voters && IsQuorum(t.configs, {t.vector[j].id}) && t.vector[j].value >= t.granted {
      var j' := if j < k || j > i then j else j + 1;
      RisenAt(t.vector, i, x, r, k, j');
      assert r[j'].id == t.vector[j].id;
    }
  }

  lemma PlaceKeeps(t: Tracker, d: int, i: nat, x: int)
    requires Ruled(t, d) && i < |t.vector| && t.vector[i].value <= x
    requires i >= t.voters || t.vector[i].value > t.granted || x <= t.granted
    ensures Ruled(t.(vector := t.vector[i := Entry(t.vector[i].id, x)]), d)
  {
    hide IsQuorum;
    var t' := t.(vector := t.vector[i := Entry(t.vector[i].id, x)]);
    assert forall j :: 0 <= j < |t.vector| ==> t'.vector[j].id == t.vector[j].id;
    if t.granted != d {
      var j :| 0 <= j < t.voters && IsQuorum(t.configs, {t.vector[j].id}) && t.vector[j].value >= t.granted;
      assert IsQuorum(t'.configs, {t'.vector[j].id}) && t'.vector[j].value >= t'.granted;
    }
  }

  lemma RuledKeeps(t: Tracker, d: int, voters: set<NodeId>, op: Op)
    requires Ruled(t, d) && VotersAre(t, t.configs, voters) && !IsQuorum(t.configs, Weak(t.configs, voters))
    ensures Ruled(IncreaseTo(t, op.id, op.value), d)
  {
    hide IsQuorum, Ruled, Weak, Reposition, VotersAre;
    assert t.voters <= |t.vector| by { RuledFits(t, d); }
    match IndexOf(t.vector, op.id)
    case None =>
    case Some(i) =>
      var x := if op.value > t.vector[i].value then op.value else t.vector[i].value;
      if i < t.voters && t.vector[i].value <= t.granted < x {
        RiseKeeps(t, d, voters, i, x);
      } else {
        PlaceKeeps(t, d, i, x);
      }
  }

  lemma RuledFits(t: Tracker, d: int)
    requires Ruled(t, d)
    ensures t.voters <= |t.vector|
  {
  }

  lemma {:induction false} RuledRunIsExact(t: Tracker, d: int, voters: set<NodeId>, ops: seq<Op>)
    requires Ruled(t, d) && VotersAre(t, t.configs, voters) && !IsQuorum(t.configs, Weak(t.configs, voters))
    ensures Exact(RunOps(t, ops), d)
    decreases |ops|
  {
    hide IsQuorum, Ruled, Weak, Exact;
    if |ops| == 0 {
      RuledIsExact(t, d, voters);
    } else {
      RuledKeeps(t, d, voters, ops[0]);
      VotersStay(t, t.configs, voters, ops[0]);
      RuledRunIsExact(IncreaseTo(t, ops[0].id, ops[0].value), d, voters, ops[1..]);
    }
  }

  // ---- runs that go wrong ----

  /** Nothing is granted, and the voters that were raised are `front`, at the front. */
  ghost predicate Fronted(t: Tracker, d: int, front: seq<Entry>) {
    t.voters <= |t.vector| && Distinct(t.vector) && |front| <= t.voters && t.vector[..|front|] == front
    && (forall j :: |front| <= j < t.voters ==> t.vector[j].value == d) && t.granted == d
  }

  /** A voter that was not raised goes to the end of the front, unless it outdoes its end, and its value is granted
      exactly if the front is a quorum with it. */
  lemma PushFront(t: Tracker, d: int, front: seq<Entry>, z: NodeId, x: int)
    requires Fronted(t, d, front) && z in Ids(t.vector, t.voters) && z !in Ids(front, |front|) && d < x
    requires |front| > 0 ==> front[|front| - 1].value >= x
    ensures var t', more := IncreaseTo(t, z, x), front + [Entry(z, x)];
            Fronted(t'.(granted := d), d, more)
            && t'.granted == if IsQuorum(t.configs, Ids(more, |more|)) then x else d
  {
    hide IsQuorum, MoveUp;
    var i :| 0 <= i < t.voters && t.vector[i].id == z;
    IndexIs(t.vector, i);
    assert forall j :: 0 <= j < |front| ==> t.vector[j] == front[j];
    var v1, more := t.vector[i := Entry(z, x)], front + [Entry(z, x)];
    var (r, k) := MoveUp(v1, i);
    MoveUpIs(v1, i);
    StopsAfter(t, d, front, i, x, k);
    FrontMoved(t, d, front, i, x, r);
    PrefixIds(r, more);
    ScanFront(t.configs, r, t.voters, k, d);
  }

  lemma FrontMoved(t: Tracker, d: int, front: seq<Entry>, i: nat, x: int, r: seq<Entry>)
    requires Fronted(t, d, front) && |front| <= i < t.voters
    requires Moved(t.vector[i := Entry(t.vector[i].id, x)], i, r, |front|)
    ensures Fronted(t.(vector := r), d, front + [Entry(t.vector[i].id, x)])
  {
    var v1, more := t.vector[i := Entry(t.vector[i].id, x)], front + [Entry(t.vector[i].id, x)];
    assert Distinct(v1);
    MovedDistinct(v1, i, r, |front|);
    forall j | |front| < j < t.voters
      ensures r[j].value == d
    {
      assert r[j] == v1[Before(i, |front|, j)];
    }
    assert r[..|more|] == more;
  }

  lemma StopsAfter(t: Tracker, d: int, front: seq<Entry>, i: nat, x: int, k: nat)
    requires Fronted(t, d, front) && |front| <= i < t.voters && d < x && k <= i
    requires |front| > 0 ==> front[|front| - 1].value >= x
    requires var v1 := t.vector[i := Entry(t.vector[i].id, x)];
             (forall j :: k <= j < i ==> v1[j].value < x) && (k > 0 ==> v1[k - 1].value >= x)
    ensures k == |front|
  {
    var v1 := t.vector[i := Entry(t.vector[i].id, x)];
    assert |front| > 0 ==> v1[|front| - 1] == front[|front| - 1];
  }

  lemma IndexIs(v: seq<Entry>, i: nat)
    requires Distinct(v) && i < |v|
    ensures IndexOf(v, v[i].id) == Some(i)
  {
  }

  lemma PrefixIds(v: seq<Entry>, front: seq<Entry>)
    requires |front| <= |v| && v[..|front|] == front
    ensures Ids(v, |front|) == Ids(front, |front|)
  {
    assert forall j :: 0 <= j < |front| ==> v[j] == front[j];
  }

  lemma ScanFront(configs: seq<set<NodeId>>, v: seq<Entry>, voters: nat, k: nat, d: int)
    requires k < voters <= |v| && v[k].value > d && (k + 1 < voters ==> v[k + 1].value <= d)
    ensures Scan(configs, v, voters, k, d) == if IsQuorum(configs, Ids(v, k + 1)) then v[k].value else d
  {
  }

  /** A voter of the front that is raised stays where it is. */
  lemma RaiseFront(t: Tracker, d: int, front: seq<Entry>, k: nat, x: int)
    requires Fronted(t, d, front) && k < |front| && d < front[k].value < x
    ensures Fronted(IncreaseTo(t, front[k].id, x), d, front[k := Entry(front[k].id, x)])
  {
    assert t.vector[k] == front[k];
    IndexIs(t.vector, k);
    var v := t.vector[k := Entry(front[k].id, x)];
    assert v[..|front|] == front[k := Entry(front[k].id, x)];
    assert Distinct(v);
  }

  /** A run from `t` to `t'`. */
  ghost predicate Runs(t: Tracker, ops: seq<Op>, t': Tracker) {
    t.voters <= |t.vector| && RunOps(t, ops) == t'
  }

  lemma RunsOn(t: Tracker, ops: seq<Op>, t': Tracker, op: Op)
    requires Runs(t, ops, t')
    ensures t'.voters <= |t'.vector| && Runs(t, ops + [op], IncreaseTo(t', op.id, op.value))
  {
    hide IncreaseTo;
    RunAppend(t, ops, [op]);
    assert [op][1..] == [];
    assert RunOps(t', [op]) == RunOps(IncreaseTo(t', op.id, op.value), []);
  }

  /** The voters of `ids`, all raised to `x`. */
  function Raised(ids: seq<NodeId>, x: int): seq<Entry> {
    seq(|ids|, i requires 0 <= i < |ids| => Entry(ids[i], x))
  }

  lemma RaisedIds(ids: seq<NodeId>, x: int)
    ensures Ids(Raised(ids, x), |ids|) == SetOf(ids)
  {
    assert forall i :: 0 <= i < |ids| ==> Raised(ids, x)[i].id == ids[i];
  }

  lemma {:induction false} FrontRun(t: Tracker, d: int, configs: seq<set<NodeId>>, voters: set<NodeId>,
                                     ids: seq<NodeId>)
    returns (ops: seq<Op>, t': Tracker)
    requires Fronted(t, d, []) && VotersAre(t, configs, voters)
    requires NoDup(ids) && SetOf(ids) <= voters && !IsQuorum(configs, SetOf(ids))
    ensures Runs(t, ops, t') && Fronted(t', d, Raised(ids, d + 9)) && VotersAre(t', configs, voters)
  {
    hide IsQuorum, VotersAre;
    if |ids| == 0 {
      ops, t' := [], t;
      assert Raised(ids, d + 9) == [];
    } else {
      var rest, z := ids[..|ids| - 1], ids[|ids| - 1];
      SetOfLast(ids);
      if IsQuorum(configs, SetOf(rest)) {
        QuorumGrows(configs, SetOf(rest), SetOf(ids));
        assert false;
      }
      var ops1, t1 := FrontRun(t, d, configs, voters, rest);
      RaisedIds(rest, d + 9);
      RaisedIds(ids, d + 9);
      assert Raised(ids, d + 9) == Raised(rest, d + 9) + [Entry(z, d + 9)];
      assert Ids(t1.vector, t1.voters) == voters && t1.configs == configs by { VotersAreIs(t1, configs, voters); }
      PushFront(t1, d, Raised(rest, d + 9), z, d + 9);
      ops, t' := ops1 + [Op(z, d + 9)], IncreaseTo(t1, z, d + 9);
      RunsOn(t, ops1, t1, Op(z, d + 9));
      VotersStay(t1, configs, voters, Op(z, d + 9));
    }
  }

  lemma VotersAreIs(t: Tracker, configs: seq<set<NodeId>>, voters: set<NodeId>)
    requires VotersAre(t, configs, voters)
    ensures t.voters <= |t.vector| && Ids(t.vector, t.voters) == voters && t.configs == configs
  {
  }

  /** Three voters `a`, `b`, `c` and others: without `c` they are no quorum, with it they are; and without `a` they are
      none, or `c` completes a quorum with either of the two alone. */
  ghost predicate Trap(configs: seq<set<NodeId>>, voters: set<NodeId>, rest: seq<NodeId>,
                       a: NodeId, b: NodeId, c: NodeId)
  {
    var f := SetOf(rest);
    NoDup(rest) && f + {a, b, c} <= voters && a !in f && b !in f && c !in f && a != b && a != c && b != c
    && !IsQuorum(configs, f + {a, b}) && IsQuorum(configs, f + {a, b, c})
    && (!IsQuorum(configs, f + {b, c})
        || (rest == [] && !IsQuorum(configs, {c}) && IsQuorum(configs, {a, c}) && IsQuorum(configs, {b, c})))
  }

  /** Raise `a` by 5 and `b` by 4, and then `b` by 7, which leaves it behind `a`. */
  lemma Tangle(t: Tracker, d: int, configs: seq<set<NodeId>>, voters: set<NodeId>, rest: seq<NodeId>,
               a: NodeId, b: NodeId)
    returns (ops: seq<Op>, t': Tracker)
    requires Fronted(t, d, []) && VotersAre(t, configs, voters) && NoDup(rest) && a != b
    requires var f := SetOf(rest);
             f + {a, b} <= voters && a !in f && b !in f && !IsQuorum(configs, f + {a, b})
    ensures Runs(t, ops, t') && VotersAre(t', configs, voters)
    ensures Fronted(t', d, Raised(rest, d + 9) + [Entry(a, d + 5), Entry(b, d + 7)])
  {
    hide IsQuorum, VotersAre, Fronted, Runs;
    var f := SetOf(rest);
    LessIsNone(configs, f, f + {a, b});
    LessIsNone(configs, f + {a}, f + {a, b});
    var ops1, t1 := FrontRun(t, d, configs, voters, rest);
    var e0, e1, e2 := Raised(rest, d + 9), Raised(rest, d + 9) + [Entry(a, d + 5)],
      Raised(rest, d + 9) + [Entry(a, d + 5)] + [Entry(b, d + 4)];
    RaisedIds(rest, d + 9);
    IdsPush(e0, Entry(a, d + 5));
    IdsPush(e1, Entry(b, d + 4));
    var t2 := PushRun(t, ops1, t1, d, configs, voters, e0, a, d + 5);
    assert f + {a} + {b} == f + {a, b};
    var t3 := PushRun(t, ops1 + [Op(a, d + 5)], t2, d, configs, voters, e1, b, d + 4);
    RaiseFront(t3, d, e2, |rest| + 1, d + 7);
    RunsOn(t, ops1 + [Op(a, d + 5)] + [Op(b, d + 4)], t3, Op(b, d + 7));
    VotersStay(t3, configs, voters, Op(b, d + 7));
    ops, t' := ops1 + [Op(a, d + 5)] + [Op(b, d + 4)] + [Op(b, d + 7)], IncreaseTo(t3, b, d + 7);
    assert e2[|rest| + 1 := Entry(b, d + 7)] == e0 + [Entry(a, d + 5), Entry(b, d + 7)];
  }

  lemma LessIsNone(configs: seq<set<NodeId>>, a: set<NodeId>, b: set<NodeId>)
    requires a <= b && !IsQuorum(configs, b)
    ensures !IsQuorum(configs, a)
  {
    if IsQuorum(configs, a) {
      QuorumGrows(configs, a, b);
    }
  }

  lemma IdsPush(front: seq<Entry>, e: Entry)
    ensures Ids(front + [e], |front| + 1) == Ids(front, |front|) + {e.id}
  {
    var more := front + [e];
    assert more[|front|] == e && forall i :: 0 <= i < |front| ==> more[i] == front[i];
  }

  /** One more voter is raised and no quorum is reached. */
  lemma PushRun(t0: Tracker, ops: seq<Op>, t: Tracker, d: int, configs: seq<set<NodeId>>, voters: set<NodeId>,
                front: seq<Entry>, z: NodeId, x: int) returns (t': Tracker)
    requires Runs(t0, ops, t) && Fronted(t, d, front) && VotersAre(t, configs, voters)
    requires z in voters && z !in Ids(front, |front|) && d < x && (|front| > 0 ==> front[|front| - 1].value >= x)
    requires !IsQuorum(configs, Ids(front, |front|) + {z})
    ensures Runs(t0, ops + [Op(z, x)], t') && Fronted(t', d, front + [Entry(z, x)]) && VotersAre(t', configs, voters)
    ensures t' == IncreaseTo(t, z, x)
  {
    hide IsQuorum;
    IdsPush(front, Entry(z, x));
    PushFront(t, d, front, z, x);
    RunsOn(t0, ops, t, Op(z, x));
    VotersStay(t, configs, voters, Op(z, x));
    t' := IncreaseTo(t, z, x);
  }

  /** `c` at 6 stops behind `b` at 7 and completes a quorum with `a`, which is at 5. */
  lemma GrantsTooMuch(t: Tracker, d: int, configs: seq<set<NodeId>>, voters: set<NodeId>, rest: seq<NodeId>,
                      a: NodeId, b: NodeId, c: NodeId)
    requires Trap(configs, voters, rest, a, b, c) && !IsQuorum(configs, SetOf(rest) + {b, c})
    requires VotersAre(t, configs, voters) && Fronted(t, d, Raised(rest, d + 9) + [Entry(a, d + 5), Entry(b, d + 7)])
    ensures !Exact(IncreaseTo(t, c, d + 6), d)
  {
    hide IsQuorum, IncreaseTo;
    var e0, f := Raised(rest, d + 9), SetOf(rest);
    var front := e0 + [Entry(a, d + 5), Entry(b, d + 7)];
    assert front == e0 + [Entry(a, d + 5)] + [Entry(b, d + 7)];
    RaisedIds(rest, d + 9);
    IdsPush(e0, Entry(a, d + 5));
    IdsPush(e0 + [Entry(a, d + 5)], Entry(b, d + 7));
    IdsPush(front, Entry(c, d + 6));
    assert f + {a} + {b} == f + {a, b} && f + {a, b} + {c} == f + {a, b, c};
    PushFront(t, d, front, c, d + 6);
    var t', more := IncreaseTo(t, c, d + 6), front + [Entry(c, d + 6)];
    assert t'.granted == d + 6;
    forall y | y in Holders(t', d + 6)
      ensures y in f + {b, c}
    {
      var j :| 0 <= j < t'.voters && t'.vector[j].value >= d + 6 && t'.vector[j].id == y;
      assert j < |more| ==> t'.vector[j] == more[j];
      assert j < |rest| ==> more[j] == Entry(rest[j], d + 9) && rest[j] in SetOf(rest);
      assert more[|rest|] == Entry(a, d + 5);
    }
    LessIsNone(configs, Holders(t', d + 6), f + {b, c});
  }

  /** `c` at 9 goes to the front and completes a quorum with `a` at 5, while `b` behind it is at 7. */
  lemma GrantsTooLittle(t: Tracker, d: int, configs: seq<set<NodeId>>, voters: set<NodeId>,
                        a: NodeId, b: NodeId, c: NodeId)
    requires Trap(configs, voters, [], a, b, c) && !IsQuorum(configs, {c})
    requires IsQuorum(configs, {a, c}) && IsQuorum(configs, {b, c})
    requires VotersAre(t, configs, voters) && Fronted(t, d, [Entry(a, d + 5), Entry(b, d + 7)])
    ensures !Exact(IncreaseTo(t, c, d + 9), d)
  {
    hide IsQuorum, Trap;
    assert c in voters && c != a && c != b by { TrapVoters(configs, voters, [], a, b, c); }
    var front := [Entry(a, d + 5), Entry(b, d + 7)];
    assert t.vector[0] == front[0] && t.vector[1] == front[1];
    var i :| 0 <= i < t.voters && t.vector[i].id == c;
    IndexIs(t.vector, i);
    var v1 := t.vector[i := Entry(c, d + 9)];
    var (r, k) := MoveUp(v1, i);
    MoveUpIs(v1, i);
    assert k == 0 && r[0] == Entry(c, d + 9) && r[1] == v1[0] && r[2] == v1[1];
    assert Ids(r, 1) == {c} && Ids(r, 2) == {a, c};
    ScanTwo(configs, r, t.voters, d);
    var t' := IncreaseTo(t, c, d + 9);
    assert t'.vector == r && t'.granted == d + 5;
    assert b in Holders(t', d + 7) && c in Holders(t', d + 7);
    QuorumGrows(configs, {b, c}, Holders(t', r[2].value));
  }

  lemma TrapVoters(configs: seq<set<NodeId>>, voters: set<NodeId>, rest: seq<NodeId>, a: NodeId, b: NodeId, c: NodeId)
    requires Trap(configs, voters, rest, a, b, c)
    ensures c in voters && c != a && c != b
  {
  }

  lemma ScanTwo(configs: seq<set<NodeId>>, v: seq<Entry>, voters: nat, d: int)
    requires 2 <= voters <= |v| && v[0].value > d && v[1].value > d
    requires !IsQuorum(configs, Ids(v, 1)) && IsQuorum(configs, Ids(v, 2))
    ensures Scan(configs, v, voters, 0, d) == v[1].value
  {
    assert Scan(configs, v, voters, 1, d) == v[1].value;
  }

  // ---- three voters to go wrong with ----

  function Without(ids: seq<NodeId>, i: nat): seq<NodeId>
    requires i < |ids|
  {
    ids[..i] + ids[i + 1..]
  }

  lemma WithoutIs(ids: seq<NodeId>, i: nat)
    requires NoDup(ids) && i < |ids|
    ensures NoDup(Without(ids, i)) && SetOf(Without(ids, i)) == SetOf(ids) - {ids[i]}
  {
    var r := Without(ids, i);
    assert forall j :: 0 <= j < |r| ==> r[j] == ids[if j < i then j else j + 1];
    forall y | y in SetOf(ids) - {ids[i]}
      ensures y in SetOf(r)
    {
      var j :| 0 <= j < |ids| && ids[j] == y;
      assert r[if j < i then j else j - 1] == y;
    }
  }

  /** Voters are added to a set that is no quorum until the next one completes a quorum. */
  lemma {:induction false} Fill(configs: seq<set<NodeId>>, weak: set<NodeId>, ids: seq<NodeId>)
    returns (more: seq<NodeId>, c: NodeId)
    requires NoDup(ids) && SetOf(ids) <= weak && |ids| >= 2 && !IsQuorum(configs, SetOf(ids)) && IsQuorum(configs, weak)
    ensures NoDup(more) && |more| >= 2 && SetOf(more) <= weak && c in weak - SetOf(more)
    ensures !IsQuorum(configs, SetOf(more)) && IsQuorum(configs, SetOf(more) + {c})
    decreases |weak - SetOf(ids)|
  {
    hide IsQuorum;
    assert SetOf(ids) != weak;
    var z :| z in weak && z !in SetOf(ids);
    if IsQuorum(configs, SetOf(ids) + {z}) {
      more, c := ids, z;
    } else {
      var next := ids + [z];
      assert next[..|ids|] == ids;
      SetOfLast(next);
      assert forall i :: 0 <= i < |ids| ==> ids[i] in SetOf(ids);
      assert weak - SetOf(next) == weak - SetOf(ids) - {z};
      more, c := Fill(configs, weak, next);
    }
  }

  /** As long as any one voter can be left out, one is. */
  lemma {:induction false} FindTrap(configs: seq<set<NodeId>>, voters: set<NodeId>, ids: seq<NodeId>, c: NodeId)
    returns (rest: seq<NodeId>, a: NodeId, b: NodeId)
    requires NoDup(ids) && |ids| >= 2 && SetOf(ids) + {c} <= voters && c !in SetOf(ids) && !IsQuorum(configs, {c})
    requires !IsQuorum(configs, SetOf(ids)) && IsQuorum(configs, SetOf(ids) + {c})
    ensures Trap(configs, voters, rest, a, b, c)
    decreases |ids|
  {
    hide IsQuorum, SetOf;
    assert forall i :: 0 <= i < |ids| ==> ids[i] in SetOf(ids) by { SetOfHas(ids); }
    if i :| 0 <= i < |ids| && !IsQuorum(configs, SetOf(ids) - {ids[i]} + {c}) {
      WithoutIs(ids, i);
      WithoutIs(Without(ids, i), 0);
      SetOfHas(Without(ids, i));
      a, b, rest := ids[i], Without(ids, i)[0], Without(Without(ids, i), 0);
      assert SetOf(rest) + {a, b} == SetOf(ids) && SetOf(rest) + {a, b, c} == SetOf(ids) + {c};
      assert SetOf(rest) + {b, c} == SetOf(ids) - {ids[i]} + {c};
    } else if |ids| > 2 {
      WithoutIs(ids, 0);
      LessIsNone(configs, SetOf(Without(ids, 0)), SetOf(ids));
      rest, a, b := FindTrap(configs, voters, Without(ids, 0), c);
    } else {
      a, b, rest := ids[0], ids[1], [];
      assert SetOf(ids) == {a, b} && SetOf(rest) == {} by { SetOfTwo(ids); }
      assert {} + {a, b} == {a, b} && {} + {a, b, c} == {a, b} + {c} && {} + {b, c} == {b, c};
      assert SetOf(ids) - {ids[0]} + {c} == {b, c} && SetOf(ids) - {ids[1]} + {c} == {a, c};
    }
  }

  lemma SetOfHas(ids: seq<NodeId>)
    ensures forall i :: 0 <= i < |ids| ==> ids[i] in SetOf(ids)
  {
  }

  lemma SetOfTwo(ids: seq<NodeId>)
    requires |ids| == 2
    ensures SetOf(ids) == {ids[0], ids[1]} && SetOf([]) == {}
  {
  }

  // ---- the exact condition ----

  lemma NewFronted(configs: seq<set<NodeId>>, voters: seq<NodeId>, learners: seq<NodeId>, d: int)
    requires NoDup(voters + learners)
    ensures Fronted(New(configs, voters, learners, d), d, [])
  {
    NewIsOk(configs, voters, learners, d);
  }

  /** Two voters that are no quorum lead to a run that grants a value that is not the greatest one held by a quorum. */
  lemma WrongRun(configs: seq<set<NodeId>>, voters: seq<NodeId>, learners: seq<NodeId>, d: int, p: NodeId, q: NodeId)
    returns (ops: seq<Op>)
    requires NoDup(voters + learners) && p in SetOf(voters) && q in SetOf(voters) && p != q
    requires !IsQuorum(configs, {p, q}) && IsQuorum(configs, Weak(configs, SetOf(voters)))
    ensures !Exact(RunOps(New(configs, voters, learners, d), ops), d)
  {
    hide IsQuorum, Exact, IncreaseTo;
    var vs, weak, t := SetOf(voters), Weak(configs, SetOf(voters)), New(configs, voters, learners, d);
    LessIsNone(configs, {p}, {p, q});
    LessIsNone(configs, {q}, {p, q});
    SetOfTwo([p, q]);
    assert SetOf([p, q]) == {p, q};
    var ids, c := Fill(configs, weak, [p, q]);
    var rest, a, b := FindTrap(configs, vs, ids, c);
    NewFronted(configs, voters, learners, d);
    NewVoters(configs, voters, learners, d);
    var ops1, t1 := Tangle(t, d, configs, vs, rest, a, b);
    if !IsQuorum(configs, SetOf(rest) + {b, c}) {
      GrantsTooMuch(t1, d, configs, vs, rest, a, b, c);
      RunsOn(t, ops1, t1, Op(c, d + 6));
      ops := ops1 + [Op(c, d + 6)];
    } else {
      assert Raised([], d + 9) + [Entry(a, d + 5), Entry(b, d + 7)] == [Entry(a, d + 5), Entry(b, d + 7)];
      GrantsTooLittle(t1, d, configs, vs, a, b, c);
      RunsOn(t, ops1, t1, Op(c, d + 9));
      ops := ops1 + [Op(c, d + 9)];
    }
  }

  /** The granted value is exact on every run if and only if every two voters are a quorum, or the voters that are no
      quorum alone are none together. */
  lemma ExactIff(configs: seq<set<NodeId>>, voters: seq<NodeId>, learners: seq<NodeId>, d: int)
    requires NoDup(voters + learners)
    ensures (forall ops :: Exact(RunOps(New(configs, voters, learners, d), ops), d))
            <==> PairsAreQuorums(configs, SetOf(voters)) || !IsQuorum(configs, Weak(configs, SetOf(voters)))
  {
    hide IsQuorum, Weak, Exact, RunOps;
    var vs, t := SetOf(voters), New(configs, voters, learners, d);
    NewIsOk(configs, voters, learners, d);
    NewVoters(configs, voters, learners, d);
    if PairsAreQuorums(configs, vs) {
      forall ops
        ensures Exact(RunOps(t, ops), d)
      {
        PairsRunIsExact(t, d, configs, vs, ops);
      }
    } else if !IsQuorum(configs, Weak(configs, vs)) {
      assert Ruled(t, d);
      forall ops
        ensures Exact(RunOps(t, ops), d)
      {
        RuledRunIsExact(t, d, vs, ops);
      }
    } else {
      var p, q :| p in vs && q in vs && p != q && !IsQuorum(configs, {p, q});
      var ops := WrongRun(configs, voters, learners, d, p, q);
      assert !Exact(RunOps(t, ops), d);
    }
  }

  // ---- the configs of a membership ----

  /** The voters are the members of the configs. */
  ghost predicate Covers(configs: seq<set<NodeId>>, voters: set<NodeId>) {
    (forall i :: 0 <= i < |configs| ==> configs[i] <= voters)
    && forall v :: v in voters ==> exists i :: 0 <= i < |configs| && v in configs[i]
  }

  lemma AllAreQuorum(configs: seq<set<NodeId>>, voters: set<NodeId>)
    requires Covers(configs, voters)
    ensures IsQuorum(configs, voters) <==> {} !in configs
  {
    forall i | 0 <= i < |configs|
      ensures IsMajority(configs[i], voters) <==> configs[i] != {}
    {
      assert configs[i] * voters == configs[i];
    }
  }

  /** Among the members of non-empty configs every two are a quorum exactly if they are at most two, or three with all
      configs the same. */
  lemma PairsIff(configs: seq<set<NodeId>>, voters: set<NodeId>)
    requires Covers(configs, voters) && {} !in configs
    ensures PairsAreQuorums(configs, voters)
            <==> |voters| <= 2 || (|voters| == 3 && forall i :: 0 <= i < |configs| ==> configs[i] == voters)
  {
    if |voters| <= 2 {
      FewPairs(configs, voters);
    } else if PairsAreQuorums(configs, voters) {
      forall i | 0 <= i < |configs|
        ensures configs[i] == voters
      {
        SameConfig(configs, voters, i);
      }
      MembersOfSome(configs, voters);
      ThreeAtMost(configs, voters);
    } else if |voters| == 3 && forall i :: 0 <= i < |configs| ==> configs[i] == voters {
      forall a, b | a in voters && b in voters && a != b
        ensures IsQuorum(configs, {a, b})
      {
        assert forall i :: 0 <= i < |configs| ==> configs[i] * {a, b} == {a, b};
      }
    }
  }

  lemma Another(s: set<NodeId>, x: NodeId, y: NodeId) returns (z: NodeId)
    requires |s| > 2 || (x == y && |s| > 1)
    ensures z in s && z != x && z != y
  {
    assert x == y ==> {x, y} == {x};
    if s <= {x, y} {
      SubsetSize(s, {x, y});
    }
    z :| z in s && z !in {x, y};
  }

  /** A config whose majority is within one node is that node. */
  lemma MajorityOfOne(config: set<NodeId>, ids: set<NodeId>, x: NodeId)
    requires IsMajority(config, ids) && config * ids <= {x}
    ensures config == {x}
  {
    SubsetSize(config * ids, {x});
    assert config * ids == {} || config * ids == {x};
    if y :| y in config && y != x {
      SubsetSize({x, y}, config);
    }
  }

  lemma FewPairs(configs: seq<set<NodeId>>, voters: set<NodeId>)
    requires Covers(configs, voters) && {} !in configs && |voters| <= 2
    ensures PairsAreQuorums(configs, voters)
  {
    hide IsQuorum, Covers;
    AllAreQuorum(configs, voters);
    forall a, b | a in voters && b in voters && a != b
      ensures IsQuorum(configs, {a, b})
    {
      TwoAreAll(voters, a, b);
    }
  }

  lemma TwoAreAll(s: set<NodeId>, a: NodeId, b: NodeId)
    requires a in s && b in s && a != b && |s| <= 2
    ensures s == {a, b}
  {
    var rest := s - {a, b};
    assert s == rest + {a, b} && |rest + {a, b}| == |rest| + |{a, b}|;
  }

  lemma MembersOfSome(configs: seq<set<NodeId>>, voters: set<NodeId>)
    requires Covers(configs, voters) && voters != {}
    ensures |configs| > 0
  {
    var v :| v in voters;
  }

  /** A voter outside of a config would leave every other one a majority alone of it. */
  lemma SameConfig(configs: seq<set<NodeId>>, voters: set<NodeId>, i: nat)
    requires Covers(configs, voters) && PairsAreQuorums(configs, voters) && |voters| > 2 && i < |configs|
    ensures configs[i] == voters
  {
    hide IsMajority;
    var c := configs[i];
    if z :| z in voters && z !in c {
      var y := Another(voters, z, z);
      var x := Another(voters, z, y);
      assert IsQuorum(configs, {z, y}) && IsQuorum(configs, {z, x});
      MajorityOfOne(c, {z, y}, y);
      MajorityOfOne(c, {z, x}, x);
    }
  }

  lemma ThreeAtMost(configs: seq<set<NodeId>>, voters: set<NodeId>)
    requires |configs| > 0 && configs[0] == voters && PairsAreQuorums(configs, voters) && |voters| >= 2
    ensures |voters| <= 3
  {
    var a :| a in voters;
    var b := Another(voters, a, a);
    assert IsQuorum(configs, {a, b});
    assert voters * {a, b} == {a, b};
    assert IsMajority(configs[0], {a, b});
  }

  /** Only a sole voter is a quorum alone. */
  lemma WeakAre(configs: seq<set<NodeId>>, voters: set<NodeId>)
    requires Covers(configs, voters) && {} !in configs && |voters| >= 2
    ensures Weak(configs, voters) == voters
  {
    hide IsMajority;
    forall v | v in voters
      ensures !IsQuorum(configs, {v})
    {
      var u := Another(voters, v, v);
      var i :| 0 <= i < |configs| && u in configs[i];
      if IsMajority(configs[i], {v}) {
        MajorityOfOne(configs[i], {v}, v);
      }
    }
  }

  /** For the configs of a membership, joint or not: every run is exact if and only if there are at most two voters, or
      three and all configs are the same, or some config is empty and nothing is ever granted. Without an empty config
      that is: if and only if every two voters are a quorum. */
  lemma MembershipIsExactIff(configs: seq<set<NodeId>>, voters: seq<NodeId>, learners: seq<NodeId>, d: int)
    requires NoDup(voters + learners) && Covers(configs, SetOf(voters))
    ensures (forall ops :: Exact(RunOps(New(configs, voters, learners, d), ops), d))
            <==> {} in configs || |SetOf(voters)| <= 2
                 || (|SetOf(voters)| == 3 && forall i :: 0 <= i < |configs| ==> configs[i] == SetOf(voters))
    ensures {} !in configs ==>
              ((forall ops :: Exact(RunOps(New(configs, voters, learners, d), ops), d))
               <==> PairsAreQuorums(configs, SetOf(voters)))
  {
    hide Exact, RunOps, IsQuorum, PairsAreQuorums, Weak, Covers;
    var vs := SetOf(voters);
    ExactIff(configs, voters, learners, d);
    AllAreQuorum(configs, vs);
    if {} in configs {
      assert Weak(configs, vs) <= vs by { WeakIn(configs, vs); }
      LessIsNone(configs, Weak(configs, vs), vs);
    } else {
      PairsIff(configs, vs);
      if |vs| >= 2 {
        WeakAre(configs, vs);
      }
    }
  }

  lemma WeakIn(configs: seq<set<NodeId>>, voters: set<NodeId>)
    ensures Weak(configs, voters) <= voters
  {
  }

  /** The granted value of a single majority is exact on every run if and only if it has at most three voters. */
  lemma MajorityIsExactIff(config: set<NodeId>, voters: seq<NodeId>, learners: seq<NodeId>, d: int)
    requires NoDup(voters + learners) && SetOf(voters) == config
    ensures (forall ops :: Exact(RunOps(New([config], voters, learners, d), ops), d)) <==> |config| <= 3
  {
    hide Exact, RunOps, SetOf;
    assert [config][0] == config;
    assert forall v :: v in config ==> v in [config][0];
    assert {} in [config] <==> config == {};
    MembershipIsExactIff([config], voters, learners, d);
  }

  /** Going from voters 1 and 2 to voters 1 and 3 already fails. */
  lemma ThreeVotersFail(d: int) returns (ops: seq<Op>)
    ensures !Exact(RunOps(New([{1, 2}, {1, 3}], [1, 2, 3], [], d), ops), d)
  {
    hide Exact, RunOps, SetOf, Covers, PairsAreQuorums;
    TwoConfigs();
    MembershipIsExactIff([{1, 2}, {1, 3}], [1, 2, 3], [], d);
    ops :| !Exact(RunOps(New([{1, 2}, {1, 3}], [1, 2, 3], [], d), ops), d);
  }

  lemma TwoConfigs()
    ensures var configs: seq<set<NodeId>>, voters: seq<NodeId> := [{1, 2}, {1, 3}], [1, 2, 3];
            NoDup(voters + []) && Covers(configs, SetOf(voters)) && SetOf(voters) == {1, 2, 3} && {} !in configs
            && configs[0] != SetOf(voters)
  {
    var configs: seq<set<NodeId>>, voters: seq<NodeId> := [{1, 2}, {1, 3}], [1, 2, 3];
    assert voters + [] == voters;
    assert SetOf(voters) == {1, 2, 3} by { assert voters[0] == 1 && voters[1] == 2 && voters[2] == 3; }
    assert 1 in configs[0] && 2 in configs[0] && 3 !in configs[0] && 3 in configs[1];
  }
}
