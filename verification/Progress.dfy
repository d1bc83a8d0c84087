/** Incremental quorum tracking: what an update of the tracked values computes, as functions.

    Values are integers; they stand for the elements of any totally ordered type of progress (a log id, or
    a granted flag as 0 and 1). */
module Progress {
  import opened Basics
  import opened Quorums

  datatype Entry = Entry(id: NodeId, value: int)

  /** The first `voters` entries of `vector` are the voters, the rest are learners. */
  datatype Tracker = Tracker(configs: seq<set<NodeId>>, granted: int, voters: nat, vector: seq<Entry>)

  // ---- the operations ----

  function Swap(v: seq<Entry>, i: nat, j: nat): seq<Entry>
    requires i < |v| && j < |v|
  {
    v[i := v[j]][j := v[i]]
  }

  /** The element at `i` goes up past smaller ones; also its new index. */
  function MoveUp(v: seq<Entry>, i: nat): (r: (seq<Entry>, nat))
    requires i < |v|
    ensures |r.0| == |v| && r.1 <= i
    decreases i
  {
    if i > 0 && v[i - 1].value < v[i].value then MoveUp(Swap(v, i - 1, i), i - 1) else (v, i)
  }

  /** The ids of the first `k` entries. */
  function Ids(v: seq<Entry>, k: nat): set<NodeId>
    requires k <= |v|
  {
    set i | 0 <= i < k :: v[i].id
  }

  /** From high to low, the first value whose prefix is a quorum. */
  function Scan(configs: seq<set<NodeId>>, v: seq<Entry>, voters: nat, i: nat, granted: int): int
    requires voters <= |v|
    decreases |v| - i
  {
    if i >= voters || v[i].value <= granted then granted
    else if IsQuorum(configs, Ids(v, i + 1)) then v[i].value
    else Scan(configs, v, voters, i + 1, granted)
  }

  function IndexOf(v: seq<Entry>, id: NodeId): (r: Option<nat>)
    ensures r.None? <==> forall i :: 0 <= i < |v| ==> v[i].id != id
    ensures r.Some? ==> r.value < |v| && v[r.value].id == id
  {
    IndexFrom(v, id, 0)
  }

  function IndexFrom(v: seq<Entry>, id: NodeId, k: nat): (r: Option<nat>)
    requires k <= |v|
    ensures r.None? <==> forall i :: k <= i < |v| ==> v[i].id != id
    ensures r.Some? ==> k <= r.value < |v| && v[r.value].id == id
    ensures r.Some? ==> forall i :: k <= i < r.value ==> v[i].id != id
    decreases |v| - k
  {
    if k == |v| then None else if v[k].id == id then Some(k) else IndexFrom(v, id, k + 1)
  }

  /** The entry at `i` takes the value `x`, goes up to its place, and the granted value is searched anew. */
  function Reposition(t: Tracker, i: nat, x: int): Tracker
    requires t.voters <= |t.vector| && i < |t.vector|
  {
    var (v, k) := MoveUp(t.vector[i := Entry(t.vector[i].id, x)], i);
    t.(vector := v, granted := Scan(t.configs, v, t.voters, k, t.granted))
  }

  /** The entry at `i` takes the value `x`. Only a voter that comes from at or below the granted value
      and goes above it is moved up. */
  function UpdateAt(t: Tracker, i: nat, x: int): (r: Tracker)
    requires t.voters <= |t.vector| && i < |t.vector|
    ensures r.configs == t.configs && r.voters == t.voters && |r.vector| == |t.vector|
  {
    var prev := t.vector[i].value;
    if prev == x || i >= t.voters || !(prev <= t.granted < x) then
      t.(vector := t.vector[i := Entry(t.vector[i].id, x)])
    else Reposition(t, i, x)
  }

  /** The update that the documented order calls for: a voter is moved up whenever it goes above the
      granted value, wherever it comes from. */
  function UpdateSorted(t: Tracker, i: nat, x: int): (r: Tracker)
    requires t.voters <= |t.vector| && i < |t.vector|
    ensures r.configs == t.configs && r.voters == t.voters && |r.vector| == |t.vector|
  {
    if t.vector[i].value == x || i >= t.voters || x <= t.granted then
      t.(vector := t.vector[i := Entry(t.vector[i].id, x)])
    else Reposition(t, i, x)
  }

  /** Raise the value of `id`, if it is tracked and the value is greater. */
  function IncreaseTo(t: Tracker, id: NodeId, value: int): (r: Tracker)
    requires t.voters <= |t.vector|
    ensures r.configs == t.configs && r.voters == t.voters && |r.vector| == |t.vector|
  {
    match IndexOf(t.vector, id)
    case None => t
    case Some(i) => UpdateAt(t, i, if value > t.vector[i].value then value else t.vector[i].value)
  }

  function New(configs: seq<set<NodeId>>, voters: seq<NodeId>, learners: seq<NodeId>, d: int): Tracker {
    var ids := voters + learners;
    Tracker(configs, d, |voters|, seq(|ids|, i requires 0 <= i < |ids| => Entry(ids[i], d)))
  }

  // ---- the simple definition ----

  ghost predicate Distinct(v: seq<Entry>) {
    forall i, j :: 0 <= i < j < |v| ==> v[i].id != v[j].id
  }

  /** The voters at or above `u`. */
  function Holders(t: Tracker, u: int): set<NodeId>
    requires t.voters <= |t.vector|
  {
    set i | 0 <= i < t.voters && t.vector[i].value >= u :: t.vector[i].id
  }

  /** `t.granted` is the greatest value held by a quorum of the voters, or `d` if there is none. */
  ghost predicate Exact(t: Tracker, d: int)
    requires t.voters <= |t.vector|
  {
    d <= t.granted
    && (t.granted == d || IsQuorum(t.configs, Holders(t, t.granted)))
    && forall i :: 0 <= i < t.voters && t.vector[i].value > t.granted ==>
         !IsQuorum(t.configs, Holders(t, t.vector[i].value))
  }

  /** Voters above the granted value come first, in descending order. */
  ghost predicate Ordered(v: seq<Entry>, voters: nat, granted: int)
    requires voters <= |v|
  {
    forall i, j :: 0 <= i < j < voters && v[j].value > granted ==> v[i].value >= v[j].value
  }

  ghost predicate Sound(t: Tracker, d: int) {
    t.voters <= |t.vector| && Distinct(t.vector) && Ordered(t.vector, t.voters, t.granted) && Exact(t, d)
  }

  // ---- quorums and prefixes ----

  lemma QuorumGrows(configs: seq<set<NodeId>>, a: set<NodeId>, b: set<NodeId>)
    requires IsQuorum(configs, a) && a <= b
    ensures IsQuorum(configs, b)
  {
    forall i | 0 <= i < |configs|
      ensures IsMajority(configs[i], b)
    {
      SubsetSize(configs[i] * a, configs[i] * b);
    }
  }

  /** Where the values fall below `u`. */
  function Cut(v: seq<Entry>, voters: nat, k: nat, u: int): (c: nat)
    requires k <= voters <= |v|
    ensures k <= c <= voters
    ensures forall i :: k <= i < c ==> v[i].value >= u
    ensures c < voters ==> v[c].value < u
    decreases voters - k
  {
    if k == voters || v[k].value < u then k else Cut(v, voters, k + 1, u)
  }

  lemma HoldersArePrefix(t: Tracker, u: int)
    requires t.voters <= |t.vector| && Ordered(t.vector, t.voters, t.granted) && u > t.granted
    ensures Holders(t, u) == Ids(t.vector, Cut(t.vector, t.voters, 0, u))
  {
  }

  /** Scanning from `k` finds the greatest value held by a quorum, if every greater one is behind `k`. */
  lemma {:induction false} ScanIs(t: Tracker, k: nat)
    requires t.voters <= |t.vector| && Ordered(t.vector, t.voters, t.granted)
    ensures var g := Scan(t.configs, t.vector, t.voters, k, t.granted);
            t.granted <= g
            && (g != t.granted ==> IsQuorum(t.configs, Holders(t, g)))
            && (forall c :: k < c <= t.voters && t.vector[c - 1].value > g ==>
                  !IsQuorum(t.configs, Ids(t.vector, c)))
    decreases |t.vector| - k
  {
    hide IsQuorum, Ids;
    if k < t.voters && t.vector[k].value > t.granted {
      if IsQuorum(t.configs, Ids(t.vector, k + 1)) {
        PrefixHolds(t, k);
        QuorumGrows(t.configs, Ids(t.vector, k + 1), Holders(t, t.vector[k].value));
      } else {
        ScanIs(t, k + 1);
      }
    }
  }

  lemma PrefixHolds(t: Tracker, k: nat)
    requires t.voters <= |t.vector| && Ordered(t.vector, t.voters, t.granted)
    requires k < t.voters && t.vector[k].value > t.granted
    ensures Ids(t.vector, k + 1) <= Holders(t, t.vector[k].value)
  {
  }

  // ---- moving up ----

  /** `r` is `v` with the element at `i` taken out and put back at `k`. */
  ghost predicate Moved(v: seq<Entry>, i: nat, r: seq<Entry>, k: nat) {
    k <= i < |v| && |r| == |v| && r[k] == v[i]
    && (forall j :: 0 <= j < k || i < j < |v| ==> r[j] == v[j])
    && (forall j :: k <= j < i ==> r[j + 1] == v[j])
  }

  lemma {:induction false} MoveUpIs(v: seq<Entry>, i: nat)
    requires i < |v|
    ensures var (r, k) := MoveUp(v, i);
            Moved(v, i, r, k)
            && (forall j :: k <= j < i ==> v[j].value < v[i].value)
            && (k > 0 ==> v[k - 1].value >= v[i].value)
    decreases i
  {
    if i > 0 && v[i - 1].value < v[i].value {
      var w := Swap(v, i - 1, i);
      var (r, k) := MoveUp(w, i - 1);
      MoveUpIs(w, i - 1);
      assert forall j :: 0 <= j < i - 1 ==> w[j] == v[j];
      forall j | k <= j < i
        ensures r[j + 1] == v[j] && v[j].value < v[i].value
      {
        if j < i - 1 {
          assert w[j].value < w[i - 1].value && r[j + 1] == w[j];
        }
      }
    }
  }

  lemma MovedOrdered(v: seq<Entry>, voters: nat, g: int, i: nat, x: int, r: seq<Entry>, k: nat)
    requires i < voters <= |v| && Ordered(v, voters, g) && v[i].value <= x && g < x
    requires var v1 := v[i := Entry(v[i].id, x)];
             Moved(v1, i, r, k) && (forall j :: k <= j < i ==> v1[j].value < x)
             && (k > 0 ==> v1[k - 1].value >= x)
    ensures Ordered(r, voters, g)
  {
    forall a, b | 0 <= a < b < voters && r[b].value > g
      ensures r[a].value >= r[b].value
    {
      var v1 := v[i := Entry(v[i].id, x)];
      var a' := if a < k || a > i then a else if a == k then i else a - 1;
      var b' := if b < k || b > i then b else if b == k then i else b - 1;
      assert r[a] == v1[a'] && r[b] == v1[b'];
    }
  }

  lemma MovedDistinct(v: seq<Entry>, i: nat, r: seq<Entry>, k: nat)
    requires Distinct(v) && Moved(v, i, r, k)
    ensures Distinct(r)
  {
    forall a, b | 0 <= a < b < |r|
      ensures r[a].id != r[b].id
    {
      var a' := if a < k || a > i then a else if a == k then i else a - 1;
      var b' := if b < k || b > i then b else if b == k then i else b - 1;
      assert r[a] == v[a'] && r[b] == v[b'];
    }
  }

  // ---- one update ----

  /** The update leaves the order intact: a learner, no change, a voter from at or below the granted value,
      one that is at the front, or one that stays at or below its predecessor. */
  predicate Guard(t: Tracker, i: nat, x: int)
    requires t.voters <= |t.vector| && i < |t.vector|
  {
    i >= t.voters || x == t.vector[i].value || t.vector[i].value <= t.granted || i == 0
    || x <= t.vector[i - 1].value
  }

  /** A raise that is not sorted in keeps the granted value right. */
  lemma RaiseInPlace(t: Tracker, d: int, i: nat, x: int)
    requires t.voters <= |t.vector| && Exact(t, d) && i < t.voters
    requires t.vector[i].value <= x && (t.vector[i].value > t.granted || x <= t.granted)
    ensures Exact(t.(vector := t.vector[i := Entry(t.vector[i].id, x)]), d)
  {
    hide IsQuorum, Holders;
    var t' := t.(vector := t.vector[i := Entry(t.vector[i].id, x)]);
    var prev := t.vector[i].value;
    if t.granted != d {
      HoldersRaised(t, i, x, t.granted);
      QuorumGrows(t.configs, Holders(t, t.granted), Holders(t', t.granted));
    }
    forall j | 0 <= j < t'.voters && t'.vector[j].value > t.granted
      ensures !IsQuorum(t.configs, Holders(t', t'.vector[j].value))
    {
      var u := t'.vector[j].value;
      var w := if prev < u <= x then prev else u;
      if IsQuorum(t.configs, Holders(t', u)) {
        HoldersRaised(t, i, x, u);
        QuorumGrows(t.configs, Holders(t', u), Holders(t, w));
        assert false;
      }
    }
  }

  lemma HoldersRaised(t: Tracker, i: nat, x: int, u: int)
    requires t.voters <= |t.vector| && i < t.voters && t.vector[i].value <= x
    ensures var t' := t.(vector := t.vector[i := Entry(t.vector[i].id, x)]);
            var prev := t.vector[i].value;
            Holders(t, u) <= Holders(t', u) <= Holders(t, if prev < u <= x then prev else u)
  {
    var t' := t.(vector := t.vector[i := Entry(t.vector[i].id, x)]);
    forall y | y in Holders(t, u)
      ensures y in Holders(t', u)
    {
      var j :| 0 <= j < t.voters && t.vector[j].value >= u && t.vector[j].id == y;
      assert t'.vector[j].id == y;
    }
    forall y | y in Holders(t', u)
      ensures y in Holders(t, if t.vector[i].value < u <= x then t.vector[i].value else u)
    {
      var j :| 0 <= j < t'.voters && t'.vector[j].value >= u && t'.vector[j].id == y;
      assert t.vector[j].id == y;
    }
  }

  lemma LearnerRaised(t: Tracker, d: int, i: nat, x: int)
    requires t.voters <= |t.vector| && Exact(t, d) && t.voters <= i < |t.vector|
    ensures Exact(t.(vector := t.vector[i := Entry(t.vector[i].id, x)]), d)
  {
    hide IsQuorum;
    var t' := t.(vector := t.vector[i := Entry(t.vector[i].id, x)]);
    forall u
      ensures Holders(t', u) == Holders(t, u)
    {
      assert forall j :: 0 <= j < t.voters ==> t'.vector[j] == t.vector[j];
    }
  }

  /** Holders of a value above the new one are who they were before the element was moved. */
  lemma HoldersMoved(t: Tracker, i: nat, x: int, r: seq<Entry>, k: nat, u: int)
    requires i < t.voters <= |t.vector| && t.vector[i].value <= x
    requires Moved(t.vector[i := Entry(t.vector[i].id, x)], i, r, k)
    ensures u > x ==> Holders(t.(vector := r), u) == Holders(t, u)
    ensures Holders(t, u) <= Holders(t.(vector := r), u)
  {
    var t', v1 := t.(vector := r), t.vector[i := Entry(t.vector[i].id, x)];
    forall y | y in Holders(t, u)
      ensures y in Holders(t', u)
    {
      var j :| 0 <= j < t.voters && t.vector[j].value >= u && t.vector[j].id == y;
      var j' := if j < k || j > i then j else if j == i then k else j + 1;
      assert r[j'] == v1[j];
    }
    if u > x {
      forall y | y in Holders(t', u)
        ensures y in Holders(t, u)
      {
        var j :| 0 <= j < t'.voters && r[j].value >= u && r[j].id == y;
        var j' := if j < k || j > i then j else if j == k then i else j - 1;
        assert r[j] == v1[j'];
        assert t.vector[j'].id == y;
      }
    }
  }

  lemma MoveUpExact(t: Tracker, d: int, i: nat, x: int)
    requires Sound(t, d) && i < t.voters && t.vector[i].value <= x && t.granted < x
    ensures Sound(Reposition(t, i, x), d)
  {
    var v1 := t.vector[i := Entry(t.vector[i].id, x)];
    var (r, k) := MoveUp(v1, i);
    MoveUpIs(v1, i);
    MovedOrdered(t.vector, t.voters, t.granted, i, x, r, k);
    assert Distinct(v1);
    MovedDistinct(v1, i, r, k);
    ScanExact(t, d, i, x, r, k);
  }

  lemma ScanExact(t: Tracker, d: int, i: nat, x: int, r: seq<Entry>, k: nat)
    requires Sound(t, d) && i < t.voters && t.vector[i].value <= x && t.granted < x
    requires Moved(t.vector[i := Entry(t.vector[i].id, x)], i, r, k) && Ordered(r, t.voters, t.granted)
    ensures var g := Scan(t.configs, r, t.voters, k, t.granted);
            t.granted <= g && Exact(t.(vector := r, granted := g), d)
  {
    var t1 := t.(vector := r);
    var g := Scan(t.configs, r, t.voters, k, t.granted);
    var t2 := t1.(granted := g);
    ScanIs(t1, k);
    assert Holders(t2, g) == Holders(t1, g);
    if g == t.granted && g != d {
      HoldersMoved(t, i, x, r, k, g);
      QuorumGrows(t.configs, Holders(t, g), Holders(t1, g));
    }
    forall j | 0 <= j < t.voters && r[j].value > g
      ensures !IsQuorum(t.configs, Holders(t2, r[j].value))
    {
      NothingGreater(t, d, i, x, r, k, g, j);
      assert Holders(t2, r[j].value) == Holders(t1, r[j].value);
    }
  }

  lemma NothingGreater(t: Tracker, d: int, i: nat, x: int, r: seq<Entry>, k: nat, g: int, j: nat)
    requires Sound(t, d) && i < t.voters && t.vector[i].value <= x && t.granted < x
    requires Moved(t.vector[i := Entry(t.vector[i].id, x)], i, r, k) && Ordered(r, t.voters, t.granted)
    requires t.granted <= g && j < t.voters && r[j].value > g
    requires forall c :: k < c <= t.voters && r[c - 1].value > g ==> !IsQuorum(t.configs, Ids(r, c))
    ensures !IsQuorum(t.configs, Holders(t.(vector := r), r[j].value))
  {
    hide IsQuorum, Distinct;
    var t1, u := t.(vector := r), r[j].value;
    var c := Cut(r, t.voters, 0, u);
    HoldersArePrefix(t1, u);
    assert j < c;
    if c <= k {
      assert u > x && r[j] == t.vector[j];
      HoldersMoved(t, i, x, r, k, u);
    } else {
      assert r[c - 1].value > g;
    }
  }

  /** One update keeps the granted value right; it keeps the order exactly when the guard holds. */
  lemma UpdateKeeps(t: Tracker, d: int, i: nat, x: int)
    requires Sound(t, d) && i < |t.vector| && t.vector[i].value <= x
    ensures var t' := UpdateAt(t, i, x);
            t'.voters <= |t'.vector| && Exact(t', d)
            && (Sound(t', d) <==> Guard(t, i, x))
  {
    hide Exact;
    var t1 := t.(vector := t.vector[i := Entry(t.vector[i].id, x)]);
    if i >= t.voters {
      LearnerRaised(t, d, i, x);
      assert Distinct(t1.vector);
    } else if t.vector[i].value <= t.granted < x {
      MoveUpExact(t, d, i, x);
    } else {
      RaiseInPlace(t, d, i, x);
      assert Distinct(t1.vector);
      assert t1.vector[i].value == x;
      if i > 0 && x > t.granted && x > t.vector[i - 1].value {
        assert t1.vector[i - 1].value < t1.vector[i].value;
      }
    }
  }

  /** The sorting update keeps both the order and the granted value, always. */
  lemma UpdateSortedKeeps(t: Tracker, d: int, i: nat, x: int)
    requires Sound(t, d) && i < |t.vector| && t.vector[i].value <= x
    ensures Sound(UpdateSorted(t, i, x), d)
  {
    if i < t.voters && t.vector[i].value < x && t.granted < x {
      MoveUpExact(t, d, i, x);
    } else {
      UpdateKeeps(t, d, i, x);
    }
  }
}
