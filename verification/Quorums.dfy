/** Majority and joint quorums. */
module Quorums {
  import opened Basics

  predicate IsMajority(config: set<NodeId>, ids: set<NodeId>) {
    2 * |config * ids| > |config|
  }

  /** A joint quorum is a majority of every sub-config. */
  predicate IsQuorum(configs: seq<set<NodeId>>, ids: set<NodeId>) {
    forall i :: 0 <= i < |configs| ==> IsMajority(configs[i], ids)
  }

  /** Two majorities of one config share a member. */
  lemma MajoritiesIntersect(config: set<NodeId>, a: set<NodeId>, b: set<NodeId>)
    returns (n: NodeId)
    requires IsMajority(config, a) && IsMajority(config, b)
    ensures n in config && n in a && n in b
  {
    var x, y := config * a, config * b;
    if x * y == {} {
      assert |x + y| == |x| + |y|;
      SubsetSize(x + y, config);
      assert false;
    }
    n :| n in x * y;
  }

  lemma {:induction false} SubsetSize(a: set<NodeId>, b: set<NodeId>)
    requires a <= b
    ensures |a| <= |b|
  {
    if a != {} {
      var x :| x in a;
      SubsetSize(a - {x}, b - {x});
    }
  }

  /** Two joint quorums that share a sub-config share a member. */
  lemma QuorumsIntersect(p: seq<set<NodeId>>, q: seq<set<NodeId>>, c: set<NodeId>,
                         a: set<NodeId>, b: set<NodeId>)
    returns (n: NodeId)
    requires c in p && c in q
    requires IsQuorum(p, a) && IsQuorum(q, b)
    ensures n in a && n in b
  {
    var i :| 0 <= i < |p| && p[i] == c;
    var j :| 0 <= j < |q| && q[j] == c;
    n := MajoritiesIntersect(c, a, b);
  }

  // ---- counting ----

  ghost predicate NoDup(ids: seq<NodeId>) {
    forall i, j :: 0 <= i < j < |ids| ==> ids[i] != ids[j]
  }

  function SetOf(ids: seq<NodeId>): set<NodeId> {
    set i | 0 <= i < |ids| :: ids[i]
  }

  /** How many of the ids are members, counting a repeated one each time. */
  function CountIn(config: set<NodeId>, ids: seq<NodeId>): (c: nat)
    ensures c <= |ids|
  {
    if |ids| == 0 then 0
    else CountIn(config, ids[..|ids| - 1]) + (if ids[|ids| - 1] in config then 1 else 0)
  }

  lemma {:induction false} CountGrows(config: set<NodeId>, ids: seq<NodeId>, k: nat)
    requires k <= |ids|
    ensures CountIn(config, ids[..k]) <= CountIn(config, ids)
  {
    if k < |ids| {
      var front := ids[..|ids| - 1];
      CountGrows(config, front, k);
      assert front[..k] == ids[..k];
    } else {
      assert ids[..k] == ids;
    }
  }

  lemma {:induction false} CountIsSize(config: set<NodeId>, ids: seq<NodeId>)
    requires NoDup(ids)
    ensures CountIn(config, ids) == |config * SetOf(ids)|
  {
    hide SetOf;
    if |ids| > 0 {
      var front, x := ids[..|ids| - 1], ids[|ids| - 1];
      CountIsSize(config, front);
      SetOfLast(ids);
      if x in config {
        assert config * SetOf(ids) == config * SetOf(front) + {x};
      } else {
        assert config * SetOf(ids) == config * SetOf(front);
      }
    } else {
      SetOfNone(ids);
    }
  }

  lemma SetOfNone(ids: seq<NodeId>)
    requires |ids| == 0
    ensures SetOf(ids) == {}
  {
  }

  lemma SetOfLast(ids: seq<NodeId>)
    requires |ids| > 0
    ensures var front, x := ids[..|ids| - 1], ids[|ids| - 1];
            SetOf(ids) == SetOf(front) + {x} && (NoDup(ids) ==> x !in SetOf(front))
  {
  }

  /** The majority test counts ids as they come and stops at the limit. On distinct ids it decides
      `IsMajority`. */
  method CountMajority(config: set<NodeId>, ids: seq<NodeId>) returns (b: bool)
    ensures b <==> 2 * CountIn(config, ids) > |config|
    ensures NoDup(ids) ==> (b <==> IsMajority(config, SetOf(ids)))
  {
    var count, limit := 0, |config|;
    for i := 0 to |ids|
      invariant count == 2 * CountIn(config, ids[..i]) && count <= limit
    {
      assert ids[..i + 1][..i] == ids[..i];
      if ids[i] in config {
        count := count + 2;
        if count > limit {
          CountGrows(config, ids, i + 1);
          CountedMajority(config, ids);
          return true;
        }
      }
    }
    assert ids[..|ids|] == ids;
    CountedMajority(config, ids);
    return false;
  }

  lemma CountedMajority(config: set<NodeId>, ids: seq<NodeId>)
    ensures NoDup(ids) ==> (2 * CountIn(config, ids) > |config| <==> IsMajority(config, SetOf(ids)))
  {
    if NoDup(ids) {
      CountIsSize(config, ids);
    }
  }

  /** The joint test asks every sub-config. */
  method CountQuorum(configs: seq<set<NodeId>>, ids: seq<NodeId>) returns (b: bool)
    requires NoDup(ids)
    ensures b <==> IsQuorum(configs, SetOf(ids))
  {
    for i := 0 to |configs|
      invariant forall j :: 0 <= j < i ==> IsMajority(configs[j], SetOf(ids))
    {
      var ok := CountMajority(configs[i], ids);
      if !ok {
        return false;
      }
    }
    return true;
  }

  /** The counting test gives the right answer for this config. */
  ghost predicate Decides(config: set<NodeId>, ids: seq<NodeId>) {
    2 * CountIn(config, ids) > |config| <==> IsMajority(config, SetOf(ids))
  }

  /** An id above all given ones. */
  function Above(ids: seq<NodeId>): (r: NodeId)
    ensures forall i :: 0 <= i < |ids| ==> ids[i] < r
  {
    if |ids| == 0 then 0
    else
      var r, x := Above(ids[..|ids| - 1]), ids[|ids| - 1];
      if x < r then r else x + 1
  }

  lemma CountTwice(config: set<NodeId>, ids: seq<NodeId>, i: nat, j: nat)
    requires i < j < |ids| && ids[i] in config && ids[j] in config
    ensures CountIn(config, ids) >= 2
  {
    var upToI, upToJ := ids[..i + 1], ids[..j + 1];
    assert upToI[..i] == ids[..i] && upToJ[..j] == ids[..j];
    assert ids[..j][..i + 1] == upToI;
    CountGrows(config, ids[..j], i + 1);
    CountGrows(config, ids, j + 1);
  }

  /** The counting test is right for every config if and only if no id is given twice. */
  lemma TestIsExactIff(ids: seq<NodeId>)
    ensures (forall config :: Decides(config, ids)) <==> NoDup(ids)
  {
    if NoDup(ids) {
      forall config
        ensures Decides(config, ids)
      {
        CountedMajority(config, ids);
      }
    } else {
      var i, j :| 0 <= i < j < |ids| && ids[i] == ids[j];
      var x, y := ids[i], Above(ids);
      var config := {x, y, y + 1};
      CountTwice(config, ids, i, j);
      assert config * SetOf(ids) == {x};
      assert !Decides(config, ids);
    }
  }
}
