/** Rebuilding the compressed list from storage after a restart, by a stack-driven binary search. */
module KeyLogIds {
  import opened Basics
  import opened LogIdList

  function Lead(p: Plain, x: nat): LeaderId
    requires Has(p, x)
  {
    p.leaders[x - p.start]
  }

  function Id(p: Plain, x: nat): LogId
    requires Has(p, x)
  {
    LogId(Lead(p, x), x)
  }

  /** Leaders never go back along a log. */
  predicate Sorted(p: Plain) {
    forall i, j :: 0 <= i <= j < |p.leaders| ==> LeaderLe(p.leaders[i], p.leaders[j])
  }

  lemma LeadLe(p: Plain, x: nat, y: nat)
    requires Sorted(p) && Has(p, x) && Has(p, y) && x <= y
    ensures LeaderLe(Lead(p, x), Lead(p, y))
  {
  }

  predicate Range(p: Plain, a: nat, b: nat) {
    Has(p, a) && Has(p, b) && a <= b
  }

  /** The first id of each leader between `a` and `b`, in order. */
  function Firsts(p: Plain, a: nat, b: nat): (r: seq<LogId>)
    requires Range(p, a, b)
    ensures |r| > 0 && r[0] == Id(p, a) && r[|r| - 1].index <= b
    ensures r[|r| - 1].leader == Lead(p, b)
    decreases b
  {
    if a == b then [Id(p, a)]
    else if Lead(p, b) == Lead(p, b - 1) then Firsts(p, a, b - 1)
    else Firsts(p, a, b - 1) + [Id(p, b)]
  }

  /** The key ids of a range: the first id of each leader, and the last id if it is not among them. */
  function KeyIds(p: Plain, a: nat, b: nat): seq<LogId>
    requires Range(p, a, b)
  {
    var r := Firsts(p, a, b);
    if r[|r| - 1] == Id(p, b) then r else r + [Id(p, b)]
  }

  /** How often the leader changes from `a` to `b`. */
  function Changes(p: Plain, a: nat, b: nat): nat
    requires Range(p, a, b)
    decreases b
  {
    if a == b then 0 else Changes(p, a, b - 1) + if Lead(p, b) == Lead(p, b - 1) then 0 else 1
  }

  /** The base-2 logarithm, rounded up. */
  function CeilLog(n: nat): nat {
    if n <= 1 then 0 else 1 + CeilLog((n + 1) / 2)
  }

  lemma {:induction false} CeilLogIs(n: nat)
    requires n >= 1
    ensures Pow2(CeilLog(n)) >= n
    ensures n >= 2 ==> Pow2(CeilLog(n) - 1) < n
  {
    if n >= 3 {
      CeilLogIs((n + 1) / 2);
      if CeilLog(n) >= 2 {
        assert Pow2(CeilLog(n) - 1) == 2 * Pow2(CeilLog((n + 1) / 2) - 1);
      }
    }
  }

  function Pow2(k: nat): nat {
    if k == 0 then 1 else 2 * Pow2(k - 1)
  }

  lemma {:induction false} CeilLogUp(m: nat, n: nat)
    requires m <= n
    ensures CeilLog(m) <= CeilLog(n)
    decreases n
  {
    if m >= 2 {
      CeilLogUp((m + 1) / 2, (n + 1) / 2);
    }
  }

  // ---- runs of one leader ----

  lemma {:induction false} SameRun(p: Plain, a: nat, c: nat, b: nat)
    requires Sorted(p) && Range(p, a, c) && Range(p, c, b) && Lead(p, c) == Lead(p, b)
    ensures Firsts(p, a, b) == Firsts(p, a, c)
    ensures Changes(p, c, b) == 0
    decreases b
  {
    if c < b {
      LeadLe(p, c, b - 1);
      LeadLe(p, b - 1, b);
      SameRun(p, a, c, b - 1);
    }
  }

  lemma {:induction false} ChangesSplit(p: Plain, a: nat, m: nat, b: nat)
    requires Range(p, a, m) && Range(p, m, b)
    ensures Changes(p, a, b) == Changes(p, a, m) + Changes(p, m, b)
    decreases b
  {
    if m < b {
      ChangesSplit(p, a, m, b - 1);
    }
  }

  lemma {:induction false} ChangesSome(p: Plain, a: nat, b: nat)
    requires Range(p, a, b) && Lead(p, a) != Lead(p, b)
    ensures Changes(p, a, b) >= 1
    decreases b
  {
    if Lead(p, b) == Lead(p, b - 1) {
      ChangesSome(p, a, b - 1);
    }
  }

  // ---- the search ----

  datatype Segment = Segment(first: nat, last: nat)

  predicate SegmentOk(p: Plain, s: Segment) {
    Range(p, s.first, s.last)
  }

  /** The segments on the stack, the top one last, follow each other; between them, and after the bottom
      one up to `b`, the leader does not change. */
  predicate Chain(p: Plain, stack: seq<Segment>, a: nat, b: nat) {
    |stack| == 0 ||
    var front, s := stack[..|stack| - 1], stack[|stack| - 1];
    Chain(p, front, a, b) && SegmentOk(p, s) && a <= s.first && s.last <= b
    && Joined(p, s.last, Top(front, b))
  }

  /** Where the next segment begins, or the end. */
  function Top(stack: seq<Segment>, b: nat): nat {
    if |stack| > 0 then stack[|stack| - 1].first else b
  }

  lemma ChainPop(p: Plain, stack: seq<Segment>, a: nat, b: nat)
    requires Chain(p, stack, a, b) && |stack| > 0
    ensures var front, s := stack[..|stack| - 1], stack[|stack| - 1];
            Chain(p, front, a, b) && SegmentOk(p, s) && a <= s.first && s.last <= b
            && Joined(p, s.last, Top(front, b)) && stack == front + [s]
  {
  }

  lemma ChainPush(p: Plain, stack: seq<Segment>, a: nat, b: nat, s: Segment)
    requires Chain(p, stack, a, b) && SegmentOk(p, s) && a <= s.first && s.last <= b
    requires Joined(p, s.last, Top(stack, b))
    ensures Chain(p, stack + [s], a, b) && Top(stack + [s], b) == s.first
  {
  }

  predicate Joined(p: Plain, x: nat, y: nat) {
    Range(p, x, y) && Lead(p, x) == Lead(p, y)
  }

  /** The result so far holds the firsts up to the index where the search is. */
  ghost predicate Found(p: Plain, a: nat, res: seq<LogId>, c: nat) {
    Range(p, a, c) && (res == Firsts(p, a, c) || (c == a && res == []))
  }

  /** Loop iterations left, at most. */
  function Work(stack: seq<Segment>): nat {
    if |stack| == 0 then 0 else Work(stack[..|stack| - 1]) + Weight(stack[|stack| - 1])
  }

  function Weight(s: Segment): nat {
    if s.last <= s.first then 1 else 2 * (s.last - s.first) - 1
  }

  /** Reads left, at most. */
  function Reads(p: Plain, stack: seq<Segment>): nat
    requires forall i :: 0 <= i < |stack| ==> SegmentOk(p, stack[i])
  {
    if |stack| == 0 then 0 else Reads(p, stack[..|stack| - 1]) + Cost(p, stack[|stack| - 1])
  }

  function Cost(p: Plain, s: Segment): nat
    requires SegmentOk(p, s)
  {
    Changes(p, s.first, s.last) * CeilLog(s.last - s.first)
  }

  lemma WeightHalves(f: nat, m: nat, l: nat)
    requires f < m < l
    ensures Weight(Segment(f, m)) + Weight(Segment(m, l)) < Weight(Segment(f, l))
  {
  }

  lemma WorkPush(stack: seq<Segment>, s: Segment)
    ensures Work(stack + [s]) == Work(stack) + Weight(s) && Weight(s) > 0
  {
  }

  lemma ReadsPush(p: Plain, stack: seq<Segment>, s: Segment)
    requires forall i :: 0 <= i < |stack| ==> SegmentOk(p, stack[i])
    requires SegmentOk(p, s)
    ensures (forall i :: 0 <= i < |stack + [s]| ==> SegmentOk(p, (stack + [s])[i]))
            && Reads(p, stack + [s]) == Reads(p, stack) + Cost(p, s)
  {
  }

  lemma StartCost(p: Plain, a: nat, b: nat)
    requires Range(p, a, b)
    ensures Reads(p, [Segment(a, b)]) == Changes(p, a, b) * CeilLog(b - a)
  {
  }

  /** A read in the middle pays for itself: what the halves cost is less than the whole by one. */
  lemma HalvesCost(p: Plain, f: nat, m: nat, l: nat)
    requires Sorted(p) && Range(p, f, l) && f + 2 <= l && m == (f + l) / 2 && Lead(p, f) != Lead(p, l)
    ensures Cost(p, Segment(f, m)) + Cost(p, Segment(m, l)) + 1 <= Cost(p, Segment(f, l))
  {
    hide Sorted, CeilLog, Changes;
    ChangesSplit(p, f, m, l);
    ChangesSome(p, f, l);
    LogHalves(f, m, l);
    CostArith(Changes(p, f, m), Changes(p, m, l), CeilLog(l - f), CeilLog(m - f));
  }

  lemma LogHalves(f: nat, m: nat, l: nat)
    requires f + 2 <= l && m == (f + l) / 2
    ensures f < m < l && CeilLog(m - f) <= CeilLog(l - m) == CeilLog(l - f) - 1
  {
    assert (l - f + 1) / 2 == l - m;
    CeilLogUp(m - f, l - m);
  }

  lemma CostArith(c1: nat, c2: nat, h: nat, h1: nat)
    requires c1 + c2 >= 1 && h1 <= h - 1
    ensures c1 * h1 + c2 * (h - 1) + 1 <= (c1 + c2) * h
  {
  }

  /** Storage: the entries, and the indexes at which a read fails. */
  datatype LogStore = LogStore(entries: Plain, fails: set<nat>)

  /** Read one log id. */
  function ReadId(store: LogStore, index: nat): Result<LogId, nat> {
    if Has(store.entries, index) && index !in store.fails then Ok(Id(store.entries, index)) else Err(index)
  }

  /** The search returns exactly the key ids of the range, or the index of a read that failed. It reads at
      most `d * ceil(log2 n)` ids, where `d` is the number of leader changes and `n` the distance. */
  method GetKeyLogIds(store: LogStore, first: LogId, last: LogId)
    returns (r: Result<seq<LogId>, nat>, count: nat)
    requires Sorted(store.entries) && Range(store.entries, first.index, last.index)
    requires first == Id(store.entries, first.index) && last == Id(store.entries, last.index)
    ensures r.Ok? ==> r.value == KeyIds(store.entries, first.index, last.index)
    ensures r.Err? ==> r.error in store.fails && first.index < r.error < last.index
    ensures store.fails == {} ==> r.Ok?
    ensures count <= Changes(store.entries, first.index, last.index) * CeilLog(last.index - first.index)
  {
    hide Firsts, Changes, CeilLog, Work, Reads, Cost, Sorted, Weight, Chain;
    var p, a, b := store.entries, first.index, last.index;
    var res: seq<LogId> := [];
    var stack := [Segment(a, b)];
    count := 0;
    StartCost(p, a, b);
    ChainStart(p, a, b);
    while |stack| > 0
      invariant Chain(p, stack, a, b) && (forall i :: 0 <= i < |stack| ==> SegmentOk(p, stack[i]))
      invariant Found(p, a, res, Top(stack, b)) && (|stack| == 0 ==> res == Firsts(p, a, b))
      invariant count + Reads(p, stack) <= Changes(p, a, b) * CeilLog(b - a)
      decreases Work(stack)
    {
      var f, l := stack[|stack| - 1].first, stack[|stack| - 1].last;
      ChainPop(p, stack, a, b);
      stack := stack[..|stack| - 1];
      WorkPush(stack, Segment(f, l));
      ReadsPush(p, stack, Segment(f, l));
      var missing := |res| == 0 || LeaderLt(res[|res| - 1].leader, Lead(p, f));
      FreshIs(p, a, res, f);
      if Lead(p, f) == Lead(p, l) {
        if missing {
          res := res + [Id(p, f)];
        }
        SameRun(p, a, f, l);
        NextTop(p, a, res, l, stack, b);
      } else if f + 1 == l {
        if missing {
          res := res + [Id(p, f)];
        }
        res := res + [Id(p, l)];
        AdjacentFirsts(p, a, f);
        NextTop(p, a, res, l, stack, b);
      } else {
        var m := (f + l) / 2;
        var got := ReadId(store, m);
        count := count + 1;
        HalvesCost(p, f, m, l);
        WeightHalves(f, m, l);
        if got.Err? {
          return Err(got.error), count;
        }
        if Lead(p, f) == Lead(p, m) {
          if missing {
            res := res + [Id(p, f)];
          }
          SameRun(p, a, f, m);
          stack := PushSegment(p, stack, a, b, Segment(m, l));
        } else if Lead(p, m) == Lead(p, l) {
          JoinFurther(p, m, l, Top(stack, b));
          stack := PushSegment(p, stack, a, b, Segment(f, m));
        } else {
          stack := PushSegment(p, stack, a, b, Segment(m, l));
          stack := PushSegment(p, stack, a, b, Segment(f, m));
        }
      }
    }
    if res[|res| - 1] != last {
      res := res + [last];
    }
    return Ok(res), count;
  }

  lemma ChainStart(p: Plain, a: nat, b: nat)
    requires Range(p, a, b)
    ensures Chain(p, [Segment(a, b)], a, b)
  {
    ChainPush(p, [], a, b, Segment(a, b));
    assert [] + [Segment(a, b)] == [Segment(a, b)];
  }

  method PushSegment(ghost p: Plain, stack: seq<Segment>, ghost a: nat, ghost b: nat, s: Segment)
    returns (r: seq<Segment>)
    requires Chain(p, stack, a, b) && SegmentOk(p, s) && a <= s.first && s.last <= b
    requires (forall i :: 0 <= i < |stack| ==> SegmentOk(p, stack[i])) && Joined(p, s.last, Top(stack, b))
    ensures Chain(p, r, a, b) && Top(r, b) == s.first && |r| > 0
    ensures (forall i :: 0 <= i < |r| ==> SegmentOk(p, r[i])) && Reads(p, r) == Reads(p, stack) + Cost(p, s)
    ensures Work(r) == Work(stack) + Weight(s)
  {
    ChainPush(p, stack, a, b, s);
    WorkPush(stack, s);
    ReadsPush(p, stack, s);
    r := stack + [s];
  }

  /** The test whether the leader at `f` is new says whether its first id is still missing. */
  lemma FreshIs(p: Plain, a: nat, res: seq<LogId>, f: nat)
    requires Sorted(p) && Found(p, a, res, f)
    ensures (|res| == 0 || LeaderLt(res[|res| - 1].leader, Lead(p, f))) <==> |res| == 0
    ensures (if |res| == 0 then [Id(p, f)] else res) == Firsts(p, a, f)
  {
  }

  lemma AdjacentFirsts(p: Plain, a: nat, f: nat)
    requires Range(p, a, f + 1) && a <= f && Lead(p, f) != Lead(p, f + 1)
    ensures Firsts(p, a, f + 1) == Firsts(p, a, f) + [Id(p, f + 1)]
  {
  }

  /** After a segment is done, the result is complete up to the next one. */
  lemma NextTop(p: Plain, a: nat, res: seq<LogId>, l: nat, stack: seq<Segment>, b: nat)
    requires Sorted(p) && Range(p, a, l) && res == Firsts(p, a, l) && Joined(p, l, Top(stack, b))
    ensures Found(p, a, res, Top(stack, b)) && (|stack| == 0 ==> res == Firsts(p, a, b))
  {
    SameRun(p, a, l, Top(stack, b));
  }

  lemma JoinFurther(p: Plain, m: nat, l: nat, y: nat)
    requires Sorted(p) && Joined(p, m, l) && Joined(p, l, y)
    ensures Joined(p, m, y)
  {
  }

  // ---- the rebuilt list is the maintained one ----

  function Slice(p: Plain, a: nat, b: nat): Plain
    requires Range(p, a, b)
  {
    Plain(a, p.leaders[a - p.start..b - p.start + 1])
  }

  lemma {:induction false} FirstsWellFormed(p: Plain, a: nat, b: nat)
    requires Range(p, a, b)
    ensures var r := Firsts(p, a, b);
            Increasing(r) && forall i :: 0 <= i < |r| - 1 ==> r[i].leader != r[i + 1].leader
    decreases b
  {
    if a < b {
      FirstsWellFormed(p, a, b - 1);
    }
  }

  lemma SliceGrows(p: Plain, a: nat, b: nat)
    requires Range(p, a, b) && a < b
    ensures var q := Slice(p, a, b - 1);
            q.leaders != [] && End(q) == b && Slice(p, a, b) == AppendPlain(q, Id(p, b))
  {
  }

  /** The key ids of a range are a well-formed list, and stand for the ids of the range. */
  lemma {:induction false} KeyIdsStandFor(p: Plain, a: nat, b: nat)
    requires Range(p, a, b)
    ensures WellFormed(KeyIds(p, a, b)) && Expand(KeyIds(p, a, b)) == Slice(p, a, b)
    decreases b
  {
    hide AppendPlain, Expand, Slice, Firsts, KeyIds;
    KeyIdsWellFormed(p, a, b);
    if a == b {
      SliceOne(p, a);
    } else {
      KeyIdsStandFor(p, a, b - 1);
      SliceGrows(p, a, b);
      KeyIdsStep(p, a, b);
      var front, keys := Firsts(p, a, b - 1), KeyIds(p, a, b - 1);
      if keys == front {
        AppendPush(front, Id(p, b));
      } else {
        AppendReplace(keys, Id(p, b));
      }
    }
  }

  lemma KeyIdsWellFormed(p: Plain, a: nat, b: nat)
    requires Range(p, a, b)
    ensures WellFormed(KeyIds(p, a, b)) && (a == b ==> KeyIds(p, a, b) == [Id(p, a)])
  {
    FirstsWellFormed(p, a, b);
  }

  /** One more id is a new last key, after the firsts so far. */
  lemma KeyIdsStep(p: Plain, a: nat, b: nat)
    requires Range(p, a, b) && a < b
    ensures var front, keys := Firsts(p, a, b - 1), KeyIds(p, a, b - 1);
            KeyIds(p, a, b) == front + [Id(p, b)] && |keys| > 0 && keys[|keys| - 1].index == b - 1
            && (keys == front || (|keys| >= 2 && keys[..|keys| - 1] == front
                                  && keys[|keys| - 2].leader == keys[|keys| - 1].leader))
  {
  }

  lemma SliceOne(p: Plain, a: nat)
    requires Has(p, a)
    ensures Expand([Id(p, a)]) == Slice(p, a, a)
  {
    ExpandOne(Id(p, a));
    PlainEq(Slice(p, a, a), Plain(a, [Lead(p, a)]));
  }

  /** The log ids a node knows after some were purged: the last purged one, then the entries. */
  function Retained(purged: Option<LogId>, entries: Plain): Plain {
    if purged.None? then (if entries.leaders == [] then EMPTY else entries)
    else Plain(purged.value.index, [purged.value.leader] + entries.leaders)
  }

  predicate StoreOk(purged: Option<LogId>, entries: Plain) {
    Sorted(entries) && (entries.leaders != [] ==> entries.start == NextIndex(purged))
  }

  /** The last id in storage: the last entry, or the last purged id if there is no entry. */
  function LastIn(purged: Option<LogId>, entries: Plain): Option<LogId> {
    if entries.leaders == [] then purged else Some(Id(entries, End(entries) - 1))
  }

  /** Rebuild the list after a restart: what it stands for is the last purged id and the entries. */
  method LoadKeyLogIds(purged: Option<LogId>, store: LogStore) returns (r: Result<seq<LogId>, nat>)
    requires StoreOk(purged, store.entries)
    ensures r.Ok? ==> WellFormed(r.value) && Expand(r.value) == Retained(purged, store.entries)
    ensures r.Err? ==> r.error in store.fails
    ensures store.fails == {} ==> r.Ok?
  {
    var p := store.entries;
    var last := LastIn(purged, p);
    if last.None? {
      return Ok([]);
    }
    if purged.Some? && purged.value.index == last.value.index {
      ExpandOne(last.value);
      return Ok([last.value]);
    }
    var first := ReadId(store, NextIndex(purged));
    if first.Err? {
      return Err(first.error);
    }
    var ids, _ := GetKeyLogIds(store, first.value, last.value);
    if ids.Err? {
      return ids;
    }
    var keys := ids.value;
    KeyIdsStandFor(p, p.start, End(p) - 1);
    assert Slice(p, p.start, End(p) - 1) == p;
    if purged.Some? {
      PutInFront(purged.value, keys, p);
      if purged.value.leader == keys[0].leader && |keys| >= 2 {
        keys := keys[0 := purged.value];
      } else {
        keys := [purged.value] + keys;
      }
    }
    return Ok(keys);
  }

  lemma PutInFront(purged: LogId, keys: seq<LogId>, p: Plain)
    requires WellFormed(keys) && Expand(keys) == p && p.leaders != [] && p.start == purged.index + 1
    ensures |keys| > 0 && keys[0].index == p.start
    ensures var keys' := if purged.leader == keys[0].leader && |keys| >= 2 then keys[0 := purged]
                         else [purged] + keys;
            WellFormed(keys') && Expand(keys') == Retained(Some(purged), p)
  {
    LastIsEnd(keys);
    if purged.leader == keys[0].leader && |keys| >= 2 {
      FrontStands(purged, keys, p, keys[0 := purged], 0);
    } else {
      FrontStands(purged, keys, p, [purged] + keys, 1);
    }
  }

  lemma FrontStands(purged: LogId, keys: seq<LogId>, p: Plain, keys': seq<LogId>, shift: nat)
    requires Increasing(keys) && |keys| > 0 && Expand(keys) == p && p.start == purged.index + 1
    requires keys' == if shift == 0 then keys[0 := purged] else [purged] + keys
    requires shift <= 1 && (shift == 0 ==> purged.leader == keys[0].leader && |keys| >= 2)
    ensures Increasing(keys') && Expand(keys') == Retained(Some(purged), p)
  {
    hide Increasing, LeaderAt;
    LastIsEnd(keys);
    FrontIncreasing(purged, keys, keys', shift);
    var q, r := Retained(Some(purged), p), Expand(keys');
    LastIsEnd(keys');
    forall k | 0 <= k < |q.leaders|
      ensures q.leaders[k] == r.leaders[k]
    {
      FrontAt(purged, keys, keys', shift, k);
      ExpandAt(keys', purged.index + k);
      if k > 0 {
        ExpandAt(keys, purged.index + k);
      }
    }
    PlainEq(q, r);
  }

  lemma FrontIncreasing(purged: LogId, keys: seq<LogId>, keys': seq<LogId>, shift: nat)
    requires Increasing(keys) && |keys| > 0 && keys[0].index == purged.index + 1
    requires shift <= 1 && keys' == if shift == 0 then keys[0 := purged] else [purged] + keys
    ensures Increasing(keys')
  {
  }

  lemma SecondAfter(keys: seq<LogId>)
    requires Increasing(keys) && |keys| > 1
    ensures keys[0].index < keys[1].index
  {
  }

  lemma FrontAt(purged: LogId, keys: seq<LogId>, keys': seq<LogId>, shift: nat, k: nat)
    requires Increasing(keys) && |keys| > 0 && keys[0].index == purged.index + 1 && Increasing(keys')
    requires keys' == if shift == 0 then keys[0 := purged] else [purged] + keys
    requires shift <= 1 && (shift == 0 ==> purged.leader == keys[0].leader)
    ensures LeaderAt(keys', purged.index + k)
            == if k == 0 then purged.leader else LeaderAt(keys, purged.index + k)
  {
    hide LeaderAt, Increasing;
    var x := purged.index + k;
    if k == 0 {
      if |keys'| > 1 {
        SecondAfter(keys');
      }
      LeaderAtIs(keys', 0, x);
    } else {
      var i := Cover(keys, x);
      assert keys'[i + shift].leader == keys[i].leader && keys'[i + shift].index <= x;
      assert i + 1 < |keys| ==> keys'[i + 1 + shift] == keys[i + 1];
      LeaderAtIs(keys', i + shift, x);
    }
  }
}
