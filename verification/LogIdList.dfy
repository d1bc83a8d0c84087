/** The compressed list of log ids: the first id of every leader, and the last id. It stands for the plain
    sequence of all ids from the first key to the last. */
module LogIdList {
  import opened Basics

  /** Log ids with consecutive indexes: the id at `start + k` is of leader `leaders[k]`. */
  datatype Plain = Plain(start: nat, leaders: seq<LeaderId>)

  const EMPTY := Plain(0, [])

  function End(p: Plain): nat {
    p.start + |p.leaders|
  }

  predicate Has(p: Plain, index: nat) {
    p.start <= index < End(p)
  }

  /** The plain lookup. */
  function Lookup(p: Plain, index: nat): Option<LogId> {
    if Has(p, index) then Some(LogId(p.leaders[index - p.start], index)) else None
  }

  // ---- operations on the plain sequence ----

  /** Append an id; a gap before it is filled with ids of the last leader. */
  function AppendPlain(p: Plain, id: LogId): Plain
    requires p.leaders != [] ==> End(p) <= id.index
  {
    if p.leaders == [] then Plain(id.index, [id.leader])
    else
      var last := p.leaders[|p.leaders| - 1];
      Plain(p.start, p.leaders + seq(id.index - End(p), _ => last) + [id.leader])
  }

  /** The ids come in index order, and after those that are there. */
  predicate Ascending(p: Plain, ids: seq<LogId>) {
    (forall i, j :: 0 <= i < j < |ids| ==> ids[i].index < ids[j].index)
    && (|ids| > 0 && p.leaders != [] ==> End(p) <= ids[0].index)
  }

  function AppendAll(p: Plain, ids: seq<LogId>): (r: Plain)
    requires Ascending(p, ids)
    ensures |ids| > 0 ==> r.leaders != [] && End(r) == ids[|ids| - 1].index + 1
    ensures |ids| == 0 ==> r == p
  {
    if |ids| == 0 then p
    else AppendPlain(AppendAll(p, ids[..|ids| - 1]), ids[|ids| - 1])
  }

  function TruncatePlain(p: Plain, at: nat): Plain {
    if at <= p.start then EMPTY
    else if at < End(p) then Plain(p.start, p.leaders[..at - p.start])
    else p
  }

  /** Drop what is before `upto`; past the end only `upto` itself is left. */
  function PurgePlain(p: Plain, upto: LogId): Plain {
    if p.leaders == [] || End(p) <= upto.index then Plain(upto.index, [upto.leader])
    else if upto.index < p.start then p
    else Plain(upto.index, p.leaders[upto.index - p.start..])
  }

  datatype Op =
    | AppendOp(id: LogId)
    | ExtendOp(ids: seq<LogId>)
    | ExtendSameOp(ids: seq<LogId>)
    | TruncateOp(at: nat)
    | PurgeOp(upto: LogId)

  predicate OneLeader(ids: seq<LogId>) {
    forall i :: 0 < i < |ids| ==> ids[i] == LogId(ids[0].leader, ids[0].index + i)
  }

  /** What the operations demand: ids come in index order, and a purge past the end goes forward. */
  predicate Legal(p: Plain, op: Op) {
    match op
    case AppendOp(id) => p.leaders != [] ==> End(p) <= id.index
    case ExtendOp(ids) => Ascending(p, ids)
    case ExtendSameOp(ids) => Ascending(p, ids) && OneLeader(ids)
    case TruncateOp(_) => true
    case PurgeOp(upto) =>
      p.leaders != [] && End(p) <= upto.index ==>
        LogIdLt(LogId(p.leaders[|p.leaders| - 1], End(p) - 1), upto)
  }

  function ApplyPlain(p: Plain, op: Op): Plain
    requires Legal(p, op)
  {
    match op
    case AppendOp(id) => AppendPlain(p, id)
    case ExtendOp(ids) => AppendAll(p, ids)
    case ExtendSameOp(ids) => AppendAll(p, ids)
    case TruncateOp(at) => TruncatePlain(p, at)
    case PurgeOp(upto) => PurgePlain(p, upto)
  }

  /** What an operation leaves at an index: appending keeps what is there and adds the ids, truncating leaves what is
      before the index, and purging what is not before the id, or just the id if it is past the end. */
  lemma LookupAfter(p: Plain, op: Op, x: nat)
    requires Legal(p, op)
    ensures op.TruncateOp? ==> Lookup(ApplyPlain(p, op), x) == if x < op.at then Lookup(p, x) else None
    ensures op.PurgeOp? ==>
              Lookup(ApplyPlain(p, op), x)
              == if p.leaders == [] || End(p) <= op.upto.index then if x == op.upto.index then Some(op.upto) else None
                 else if x < op.upto.index then None else Lookup(p, x)
    ensures op.AppendOp? ==> Added(p, [op.id], ApplyPlain(p, op), x)
    ensures op.ExtendOp? || op.ExtendSameOp? ==> Added(p, op.ids, ApplyPlain(p, op), x)
  {
    if op.ExtendOp? || op.ExtendSameOp? {
      AddedAll(p, op.ids, x);
    } else if op.AppendOp? {
      AddedFirst(p, op.id, x);
    }
  }

  lemma AddedFirst(p: Plain, id: LogId, x: nat)
    requires p.leaders != [] ==> End(p) <= id.index
    ensures Added(p, [id], AppendPlain(p, id), x)
  {
    hide Added, AppendPlain;
    NoneAdded(p, x);
    assert [id][..0] == [];
    AddedThen(p, [id], p, x);
  }

  /** `r` is `p` with the ids added: an index of neither is between two ids and of the leader before it. */
  ghost predicate Added(p: Plain, ids: seq<LogId>, r: Plain, x: nat) {
    (Has(p, x) ==> Lookup(r, x) == Lookup(p, x))
    && (forall i :: 0 <= i < |ids| && ids[i].index == x ==> Lookup(r, x) == Some(ids[i]))
    && (Has(r, x) && !Has(p, x) && (forall i :: 0 <= i < |ids| ==> ids[i].index != x) ==>
          x > 0 && Has(r, x - 1) && Lookup(r, x).value.leader == Lookup(r, x - 1).value.leader)
    && (Has(r, x) ==> Has(p, x) || (|ids| > 0 && x <= ids[|ids| - 1].index))
  }

  lemma {:induction false} AddedAll(p: Plain, ids: seq<LogId>, x: nat)
    requires Ascending(p, ids)
    ensures Added(p, ids, AppendAll(p, ids), x)
  {
    hide Added, AppendPlain;
    if |ids| == 0 {
      NoneAdded(p, x);
    } else {
      var front := ids[..|ids| - 1];
      AddedAll(p, front, x);
      AddedThen(p, ids, AppendAll(p, front), x);
    }
  }

  lemma NoneAdded(p: Plain, x: nat)
    ensures Added(p, [], p, x)
  {
  }

  lemma AddedThen(p: Plain, ids: seq<LogId>, q: Plain, x: nat)
    requires |ids| > 0 && Ascending(p, ids) && Added(p, ids[..|ids| - 1], q, x)
    requires q.leaders != [] ==> End(q) <= ids[|ids| - 1].index
    ensures Added(p, ids, AppendPlain(q, ids[|ids| - 1]), x)
  {
    hide AppendPlain;
    var front, last := ids[..|ids| - 1], ids[|ids| - 1];
    var r := AppendPlain(q, last);
    AppendPlainIs(q, last);
    assert forall i :: 0 <= i < |front| ==> front[i] == ids[i];
    assert Has(q, x) ==> Lookup(r, x) == Lookup(q, x);
    assert x > 0 && Has(q, x - 1) ==> Lookup(r, x - 1) == Lookup(q, x - 1);
    assert last.index == x ==> Lookup(r, x) == Some(last);
  }

  /** An appended sequence, id by id. */
  lemma AppendPlainIs(p: Plain, id: LogId)
    requires p.leaders != [] ==> End(p) <= id.index
    ensures var r := AppendPlain(p, id);
            r.start == (if p.leaders == [] then id.index else p.start) && End(r) == id.index + 1
            && forall k :: 0 <= k < |r.leaders| ==>
                 r.leaders[k] == if r.start + k == id.index then id.leader
                                 else if k < |p.leaders| then p.leaders[k] else p.leaders[|p.leaders| - 1]
  {
  }

  predicate LegalRun(p: Plain, ops: seq<Op>)
    decreases |ops|
  {
    |ops| == 0 || (Legal(p, ops[0]) && LegalRun(ApplyPlain(p, ops[0]), ops[1..]))
  }

  function RunPlain(p: Plain, ops: seq<Op>): Plain
    requires LegalRun(p, ops)
    decreases |ops|
  {
    if |ops| == 0 then p else RunPlain(ApplyPlain(p, ops[0]), ops[1..])
  }

  // ---- what a list of keys stands for ----

  predicate Increasing(keys: seq<LogId>) {
    forall i, j :: 0 <= i < j < |keys| ==> keys[i].index < keys[j].index
  }

  /** Only the last two keys may be of one leader. */
  predicate WellFormed(keys: seq<LogId>) {
    Increasing(keys)
    && forall i :: 0 <= i < |keys| - 2 ==> keys[i].leader != keys[i + 1].leader
  }

  /** The leader of the last key at or before `index`. */
  function LeaderAt(keys: seq<LogId>, index: nat): LeaderId
    requires |keys| > 0
  {
    var k := keys[|keys| - 1];
    if k.index <= index || |keys| == 1 then k.leader else LeaderAt(keys[..|keys| - 1], index)
  }

  function Expand(keys: seq<LogId>): Plain
    requires Increasing(keys)
  {
    if |keys| == 0 then EMPTY
    else
      var start, end := keys[0].index, keys[|keys| - 1].index;
      Plain(start, seq(end - start + 1, k requires 0 <= k => LeaderAt(keys, start + k)))
  }

  lemma {:induction false} LeaderAtIs(keys: seq<LogId>, i: nat, index: nat)
    requires Increasing(keys) && i < |keys| && keys[i].index <= index
    requires i + 1 < |keys| ==> index < keys[i + 1].index
    ensures LeaderAt(keys, index) == keys[i].leader
    decreases |keys|
  {
    if i + 1 < |keys| {
      LeaderAtIs(keys[..|keys| - 1], i, index);
    }
  }

  /** The key that covers an index. */
  lemma {:induction false} Cover(keys: seq<LogId>, index: nat) returns (i: nat)
    requires Increasing(keys) && |keys| > 0 && keys[0].index <= index
    ensures i < |keys| && keys[i].index <= index && (i + 1 < |keys| ==> index < keys[i + 1].index)
    ensures LeaderAt(keys, index) == keys[i].leader
    decreases |keys|
  {
    if keys[|keys| - 1].index <= index {
      i := |keys| - 1;
    } else {
      i := Cover(keys[..|keys| - 1], index);
    }
    LeaderAtIs(keys, i, index);
  }

  lemma ExpandAt(keys: seq<LogId>, index: nat)
    requires Increasing(keys) && |keys| > 0 && keys[0].index <= index <= keys[|keys| - 1].index
    ensures Has(Expand(keys), index) && Expand(keys).leaders[index - keys[0].index] == LeaderAt(keys, index)
    ensures End(Expand(keys)) == keys[|keys| - 1].index + 1
  {
  }

  /** Two plain sequences over the same indexes are equal if they agree at each. */
  lemma PlainEq(p: Plain, q: Plain)
    requires p.start == q.start && |p.leaders| == |q.leaders|
    requires forall k :: 0 <= k < |p.leaders| ==> p.leaders[k] == q.leaders[k]
    ensures p == q
  {
  }

  // ---- the representation is canonical ----

  /** A key that is not the last is where its leader's run begins. */
  lemma KeysAgree(a: seq<LogId>, b: seq<LogId>, k: nat)
    requires WellFormed(a) && WellFormed(b) && Expand(a) == Expand(b) && |a| > 0
    requires k < |a| && k < |b| && a[k].index == b[k].index
    requires k + 1 < |a|
    ensures k + 1 < |b| && a[k + 1].index <= b[k + 1].index
  {
    SameEnds(a, b);
    if k + 1 < |b| && b[k + 1].index < a[k + 1].index {
      var x := b[k + 1].index;
      LeaderAtIs(a, k, x);
      LeaderAtIs(a, k, a[k].index);
      LeaderAtIs(b, k, b[k].index);
      LeaderAtIs(b, k + 1, x);
      ExpandAt(a, x);
      ExpandAt(b, x);
      ExpandAt(a, a[k].index);
      ExpandAt(b, b[k].index);
    }
  }

  lemma {:induction false} PrefixesAgree(a: seq<LogId>, b: seq<LogId>, k: nat)
    requires WellFormed(a) && WellFormed(b) && Expand(a) == Expand(b) && |a| > 0
    requires k <= |a|
    ensures k <= |b| && forall i :: 0 <= i < k ==> a[i].index == b[i].index
  {
    if k > 1 {
      PrefixesAgree(a, b, k - 1);
      KeysAgree(a, b, k - 2);
      KeysAgree(b, a, k - 2);
    }
  }

  lemma SameEnds(a: seq<LogId>, b: seq<LogId>)
    requires WellFormed(a) && WellFormed(b) && Expand(a) == Expand(b) && |a| > 0
    ensures |b| > 0 && a[0].index == b[0].index && a[|a| - 1].index == b[|b| - 1].index
  {
    ExpandAt(a, a[0].index);
    if |b| > 0 {
      ExpandAt(b, b[0].index);
    }
  }

  /** Two well-formed lists that stand for the same log ids are the same list. */
  lemma Canonical(a: seq<LogId>, b: seq<LogId>)
    requires WellFormed(a) && WellFormed(b) && Expand(a) == Expand(b)
    ensures a == b
  {
    if |a| == 0 {
      assert |Expand(b).leaders| == 0;
    } else {
      SameEnds(a, b);
      PrefixesAgree(a, b, |a|);
      PrefixesAgree(b, a, |b|);
      forall i | 0 <= i < |a|
        ensures a[i] == b[i]
      {
        LeaderAtIs(a, i, a[i].index);
        LeaderAtIs(b, i, b[i].index);
        ExpandAt(a, a[i].index);
        ExpandAt(b, b[i].index);
      }
    }
  }

  // ---- appending ----

  lemma ExpandOne(id: LogId)
    ensures Expand([id]) == Plain(id.index, [id.leader])
  {
    assert LeaderAt([id], id.index) == id.leader;
    PlainEq(Expand([id]), Plain(id.index, [id.leader]));
  }

  lemma AppendPush(keys: seq<LogId>, id: LogId)
    requires Increasing(keys) && (|keys| > 0 ==> keys[|keys| - 1].index < id.index)
    ensures Increasing(keys + [id])
    ensures Expand(keys).leaders != [] ==> End(Expand(keys)) <= id.index
    ensures Expand(keys + [id]) == AppendPlain(Expand(keys), id)
  {
    hide AppendPlain;
    var keys' := keys + [id];
    if |keys| > 0 {
      var p, q := AppendPlain(Expand(keys), id), Expand(keys');
      AppendPlainIs(Expand(keys), id);
      ExpandAt(keys, keys[|keys| - 1].index);
      LeaderAtIs(keys, |keys| - 1, keys[|keys| - 1].index);
      forall k | 0 <= k < |p.leaders|
        ensures p.leaders[k] == q.leaders[k]
      {
        var x := p.start + k;
        if x < id.index {
          var i := Cover(keys, x);
          LeaderAtIs(keys', i, x);
          if x <= keys[|keys| - 1].index {
            ExpandAt(keys, x);
          }
        } else {
          LeaderAtIs(keys', |keys|, x);
        }
      }
      PlainEq(p, q);
    } else {
      assert keys' == [id];
      ExpandOne(id);
      AppendPlainIs(Expand(keys), id);
    }
  }

  /** Replacing the last key, where the one before it is of the same leader, appends just as well. */
  lemma AppendReplace(keys: seq<LogId>, id: LogId)
    requires Increasing(keys) && |keys| >= 2 && keys[|keys| - 1].index < id.index
    requires keys[|keys| - 2].leader == keys[|keys| - 1].leader
    ensures var keys' := keys[..|keys| - 1] + [id];
            Increasing(keys') && Expand(keys').leaders != []
            && End(Expand(keys)) <= id.index
            && Expand(keys') == AppendPlain(Expand(keys), id)
  {
    var l := |keys|;
    var front := keys[..l - 1];
    AppendPush(front, id);
    AppendPush(front, keys[l - 1]);
    assert front + [keys[l - 1]] == keys;
    ExpandAt(front, front[l - 2].index);
    LeaderAtIs(front, l - 2, front[l - 2].index);
    AppendTwice(Expand(front), keys[l - 1], id);
  }

  /** An id of the last leader in between makes no difference. */
  lemma AppendTwice(p: Plain, mid: LogId, id: LogId)
    requires p.leaders != [] && End(p) <= mid.index < id.index
    requires mid.leader == p.leaders[|p.leaders| - 1]
    ensures AppendPlain(AppendPlain(p, mid), id) == AppendPlain(p, id)
  {
  }

  // ---- truncating and purging ----

  /** Cutting the keys at `i` and adding the last id before `at`, where there is a gap, truncates. */
  lemma TruncateKeys(keys: seq<LogId>, i: nat, at: nat)
    requires WellFormed(keys) && i < |keys| && keys[i].index >= at
    requires forall j :: 0 <= j < i ==> keys[j].index < at
    ensures i == 0 ==> TruncatePlain(Expand(keys), at) == EMPTY
    ensures i > 0 ==>
              at > 0 &&
              var front := keys[..i];
              if keys[i - 1].index == at - 1 then TruncatePlain(Expand(keys), at) == Expand(front)
              else TruncatePlain(Expand(keys), at)
                   == Expand(front + [LogId(keys[i - 1].leader, at - 1)])
  {
    hide LeaderAt;
    if i > 0 {
      CutTruncates(keys, i, at, if keys[i - 1].index == at - 1 then keys[..i]
                                else keys[..i] + [LogId(keys[i - 1].leader, at - 1)]);
    }
  }

  lemma CutTruncates(keys: seq<LogId>, i: nat, at: nat, keys': seq<LogId>)
    requires Increasing(keys) && 0 < i < |keys| && keys[i - 1].index < at <= keys[i].index
    requires keys' == (if keys[i - 1].index == at - 1 then keys[..i]
                       else keys[..i] + [LogId(keys[i - 1].leader, at - 1)])
    ensures Increasing(keys') && TruncatePlain(Expand(keys), at) == Expand(keys')
  {
    hide LeaderAt, Expand, TruncatePlain, Increasing;
    CutEnds(keys, i, at, keys');
    var p, q := TruncatePlain(Expand(keys), at), Expand(keys');
    LastIsEnd(keys);
    LastIsEnd(keys');
    TruncatePlainIs(Expand(keys), at);
    forall k | 0 <= k < |p.leaders|
      ensures p.leaders[k] == q.leaders[k]
    {
      CutAt(keys, i, at, keys', p.start + k);
      ExpandAt(keys, p.start + k);
      ExpandAt(keys', p.start + k);
    }
    PlainEq(p, q);
  }

  lemma CutEnds(keys: seq<LogId>, i: nat, at: nat, keys': seq<LogId>)
    requires Increasing(keys) && 0 < i < |keys| && keys[i - 1].index < at <= keys[i].index
    requires keys' == (if keys[i - 1].index == at - 1 then keys[..i]
                       else keys[..i] + [LogId(keys[i - 1].leader, at - 1)])
    ensures Increasing(keys') && |keys'| > 0 && keys'[0] == keys[0] && keys'[|keys'| - 1].index == at - 1
    ensures keys[0].index < at <= keys[|keys| - 1].index
  {
  }

  lemma TruncatePlainIs(p: Plain, at: nat)
    requires p.start < at <= End(p)
    ensures var r := TruncatePlain(p, at);
            r.start == p.start && End(r) == at && forall k :: 0 <= k < |r.leaders| ==> r.leaders[k] == p.leaders[k]
  {
  }

  /** Below the cut the shortened list has the leaders of the whole. */
  lemma CutAt(keys: seq<LogId>, i: nat, at: nat, keys': seq<LogId>, x: nat)
    requires Increasing(keys) && 0 < i < |keys| && keys[i - 1].index < at <= keys[i].index
    requires keys' == (if keys[i - 1].index == at - 1 then keys[..i]
                       else keys[..i] + [LogId(keys[i - 1].leader, at - 1)])
    requires keys[0].index <= x < at
    ensures LeaderAt(keys', x) == LeaderAt(keys, x)
  {
  }

  lemma PurgeKeys(keys: seq<LogId>, i: nat, at: nat, upto: LogId)
    requires Increasing(keys) && i < |keys| && keys[i].index <= at == upto.index <= keys[|keys| - 1].index
    requires i + 1 < |keys| ==> at < keys[i + 1].index
    ensures var keys' := keys[i..][0 := LogId(keys[i].leader, at)];
            Increasing(keys') && Expand(keys') == PurgePlain(Expand(keys), upto)
  {
    var keys' := keys[i..][0 := LogId(keys[i].leader, at)];
    ExpandAt(keys, keys[|keys| - 1].index);
    var p, q := PurgePlain(Expand(keys), upto), Expand(keys');
    forall k | 0 <= k < |p.leaders|
      ensures p.leaders[k] == q.leaders[k]
    {
      var x := at + k;
      var j := Cover(keys', x);
      LeaderAtIs(keys, i + j, x);
      ExpandAt(keys, x);
      ExpandAt(keys', x);
    }
    PlainEq(p, q);
  }

  /** Purging past the end leaves only the purged id; purging before the start changes nothing. */
  lemma PurgeEnds(keys: seq<LogId>, upto: LogId)
    requires WellFormed(keys)
    ensures |keys| == 0 || upto.index >= keys[|keys| - 1].index + 1 ==>
              WellFormed([upto]) && Expand([upto]) == PurgePlain(Expand(keys), upto)
    ensures |keys| > 0 && upto.index < keys[0].index ==> Expand(keys) == PurgePlain(Expand(keys), upto)
    ensures |keys| > 0 ==> keys[0].index <= keys[|keys| - 1].index
  {
    hide LeaderAt;
    LastIsEnd(keys);
    ExpandOne(upto);
  }

  /** The purged list is well formed; it is just a tail where a key is at the purged index. */
  lemma CutFront(keys: seq<LogId>, i: nat, upto: LogId)
    requires WellFormed(keys) && i < |keys| && keys[i].index <= upto.index <= keys[|keys| - 1].index
    requires i + 1 < |keys| ==> upto.index < keys[i + 1].index || keys[i].index == upto.index
    ensures var keys' := keys[i..][0 := LogId(keys[i].leader, upto.index)];
            WellFormed(keys') && Expand(keys') == PurgePlain(Expand(keys), upto)
            && (keys[i].index == upto.index ==> keys' == keys[i..] && (i == 0 ==> keys' == keys))
  {
    hide Expand, LeaderAt, PurgePlain;
    PurgeKeys(keys, i, upto.index, upto);
    var keys' := keys[i..][0 := LogId(keys[i].leader, upto.index)];
    assert keys[i].index == upto.index ==> keys' == keys[i..];
  }

  // ---- the object ----

  class KeyList {
    var keys: seq<LogId>

    ghost predicate Valid()
      reads this
    {
      WellFormed(keys)
    }

    /** The log ids the list stands for. */
    ghost function Contents(): Plain
      reads this
      requires Valid()
    {
      Expand(keys)
    }

    constructor (keys: seq<LogId>)
      requires WellFormed(keys)
      ensures Valid() && this.keys == keys
    {
      this.keys := keys;
    }

    function LastKey(): Option<LogId>
      reads this
    {
      if |keys| == 0 then None else Some(keys[|keys| - 1])
    }

    /** The position of the key at `index`, or where it would be. */
    method Search(index: nat) returns (found: bool, i: nat)
      requires Valid()
      ensures found ==> i < |keys| && keys[i].index == index
      ensures !found ==> i <= |keys| && (forall j :: 0 <= j < i ==> keys[j].index < index)
                         && (forall j :: i <= j < |keys| ==> keys[j].index > index)
    {
      var lo, hi := 0, |keys|;
      while lo < hi
        invariant 0 <= lo <= hi <= |keys|
        invariant forall j :: 0 <= j < lo ==> keys[j].index < index
        invariant forall j :: hi <= j < |keys| ==> keys[j].index > index
      {
        var mid := (lo + hi) / 2;
        if keys[mid].index == index {
          return true, mid;
        } else if keys[mid].index < index {
          lo := mid + 1;
        } else {
          hi := mid;
        }
      }
      return false, lo;
    }

    /** The id at `index` is the plain lookup. */
    method RefAt(index: nat) returns (r: Option<LogId>)
      requires Valid()
      ensures r == Lookup(Contents(), index)
    {
      var found, i := Search(index);
      if !found {
        if i == 0 || i == |keys| {
          if |keys| > 0 {
            ExpandAt(keys, keys[|keys| - 1].index);
          }
          return None;
        }
        i := i - 1;
      }
      LeaderAtIs(keys, i, index);
      ExpandAt(keys, index);
      return Some(LogId(keys[i].leader, index));
    }

    method Append(id: LogId)
      requires Valid() && (|keys| > 0 ==> keys[|keys| - 1].index < id.index)
      modifies this
      ensures Valid() && |keys| > 0 && keys[|keys| - 1] == id
      ensures (old(Contents()).leaders != [] ==> End(old(Contents())) <= id.index)
              && Contents() == AppendPlain(old(Contents()), id)
    {
      var l := |keys|;
      AppendPush(keys, id);
      if l < 2 {
        keys := keys + [id];
        return;
      }
      if keys[l - 2].leader == keys[l - 1].leader {
        // The last id is only there because it is the last.
        AppendReplace(keys, id);
        keys := keys[..l - 1] + [id];
        return;
      }
      keys := keys + [id];
    }

    /** Append ids of one leader with consecutive indexes. */
    method ExtendFromSameLeader(ids: seq<LogId>)
      requires Valid() && Ascending(Contents(), ids)
      requires OneLeader(ids)
      modifies this
      ensures Valid() && Contents() == AppendAll(old(Contents()), ids)
    {
      if |ids| > 0 {
        ghost var p := Contents();
        LastIsEnd(keys);
        Append(ids[0]);
        assert ids[..1] == [ids[0]] && ids[..1][..0] == [];
        assert Contents() == AppendAll(p, ids[..1]);
        if |ids| > 1 {
          var last := ids[|ids| - 1];
          LastIsEnd(keys);
          SkipSame(p, ids, 1);
          Append(last);
        }
        assert ids[..|ids|] == ids;
      }
    }

    /** Append ids in index order. Ids in the middle of a leader's run are skipped. */
    method Extend(ids: seq<LogId>)
      requires Valid() && Ascending(Contents(), ids)
      modifies this
      ensures Valid() && Contents() == AppendAll(old(Contents()), ids)
    {
      hide Expand, AppendPlain, AppendAll, WellFormed;
      ghost var p := Contents();
      for i := 0 to |ids|
        invariant Valid() && (i == 0 ==> Contents() == p)
        invariant i > 0 ==> |keys| > 0 && Behind(p, ids, i, Contents(), keys[|keys| - 1])
        invariant 0 < i == |ids| ==> keys[|keys| - 1] == ids[i - 1]
      {
        ghost var q := Contents();
        LastOf(this);
        NextBehind(p, ids, i, q, LastKey());
        if |keys| == 0 || keys[|keys| - 1].leader != ids[i].leader {
          Append(ids[i]);
          LastOf(this);
        }
        if i == |ids| - 1 {
          if |keys| == 0 || keys[|keys| - 1] != ids[i] {
            Append(ids[i]);
            LastOf(this);
          }
        }
      }
      assert ids[..|ids|] == ids;
      if |ids| == 0 {
        AppendNone(p, ids);
      }
    }

    /** Delete the ids from `at` on. */
    method Truncate(at: nat)
      requires Valid()
      modifies this
      ensures Valid() && Contents() == TruncatePlain(old(Contents()), at)
    {
      hide AppendPlain, LeaderAt;
      var found, i := Search(at);
      if !found && i == |keys| {
        if |keys| > 0 {
          ExpandAt(keys, keys[|keys| - 1].index);
        }
        return;
      }
      TruncateKeys(keys, i, at);
      keys := keys[..i];
      if |keys| > 0 {
        var last := keys[|keys| - 1];
        if last.index < at - 1 {
          AppendPush(keys, LogId(last.leader, at - 1));
          Append(LogId(last.leader, at - 1));
        }
      }
    }

    /** Delete the ids before `upto`. */
    method Purge(upto: LogId)
      requires Valid()
      requires |keys| > 0 && upto.index > keys[|keys| - 1].index ==> LogIdLt(keys[|keys| - 1], upto)
      modifies this
      ensures Valid() && Contents() == PurgePlain(old(Contents()), upto)
    {
      hide Expand, LeaderAt, PurgePlain, WellFormed;
      PurgeEnds(keys, upto);
      if |keys| == 0 || upto.index >= keys[|keys| - 1].index + 1 {
        keys := [upto];
        return;
      }
      if upto.index < keys[0].index {
        return;
      }
      var found, i := Search(upto.index);
      if found {
        CutFront(keys, i, upto);
        if i > 0 {
          keys := keys[i..];
        }
      } else {
        CutFront(keys, i - 1, upto);
        keys := keys[i - 1..];
        keys := keys[0 := LogId(keys[0].leader, upto.index)];
      }
    }

    method Apply(op: Op)
      requires Valid() && Legal(Contents(), op)
      modifies this
      ensures Valid() && Contents() == ApplyPlain(old(Contents()), op)
    {
      hide Expand, AppendPlain, AppendAll, WellFormed;
      LastOf(this);
      match op
      case AppendOp(id) => Append(id);
      case ExtendOp(ids) => Extend(ids);
      case ExtendSameOp(ids) => ExtendFromSameLeader(ids);
      case TruncateOp(at) => Truncate(at);
      case PurgeOp(upto) => Purge(upto);
    }

    /** Through every run of operations the list stands for what the plain sequence would be. */
    method RunAll(ops: seq<Op>)
      requires Valid() && LegalRun(Contents(), ops)
      modifies this
      ensures Valid() && Contents() == RunPlain(old(Contents()), ops)
    {
      hide Expand, ApplyPlain, WellFormed;
      for k := 0 to |ops|
        invariant Valid() && LegalRun(Contents(), ops[k..])
        invariant RunPlain(Contents(), ops[k..]) == RunPlain(old(Contents()), ops)
      {
        assert ops[k..][1..] == ops[k + 1..];
        Apply(ops[k]);
      }
    }

    /** The first and the last id of the last leader: the longest run at the end that is of one leader. */
    method ByLastLeader() returns (r: Option<(LogId, LogId)>)
      requires Valid()
      ensures r.None? <==> Contents().leaders == []
      ensures r.Some? ==>
                var (first, last) := r.value;
                first.leader == last.leader && Has(Contents(), first.index)
                && last.index + 1 == End(Contents())
                && (forall x :: first.index <= x <= last.index ==>
                      Lookup(Contents(), x) == Some(LogId(last.leader, x)))
                && (first.index > Contents().start ==>
                      Lookup(Contents(), first.index - 1) != Some(LogId(last.leader, first.index - 1)))
    {
      var l := |keys|;
      if l > 0 {
        LastRun(keys);
      }
      if l == 0 {
        return None;
      } else if l < 2 {
        return Some((keys[l - 1], keys[l - 1]));
      } else if keys[l - 1].leader == keys[l - 2].leader {
        return Some((keys[l - 2], keys[l - 1]));
      } else {
        return Some((keys[l - 1], keys[l - 1]));
      }
    }
  }

  lemma LastIsEnd(keys: seq<LogId>)
    requires Increasing(keys)
    ensures |keys| == 0 <==> Expand(keys).leaders == []
    ensures |keys| > 0 ==> Expand(keys).start == keys[0].index
                           && End(Expand(keys)) == keys[|keys| - 1].index + 1
                           && Expand(keys).leaders[|Expand(keys).leaders| - 1] == keys[|keys| - 1].leader
  {
    if |keys| > 0 {
      ExpandAt(keys, keys[|keys| - 1].index);
      LeaderAtIs(keys, |keys| - 1, keys[|keys| - 1].index);
    }
  }

  /** The list lags behind the first `i` ids only by ids of its last leader. */
  ghost predicate Behind(p: Plain, ids: seq<LogId>, i: nat, q: Plain, last: LogId)
    requires Ascending(p, ids) && 0 < i <= |ids|
  {
    q.leaders != [] && End(q) == last.index + 1 && q.leaders[|q.leaders| - 1] == last.leader
    && last.leader == ids[i - 1].leader && last.index <= ids[i - 1].index
    && AppendAll(p, ids[..i]) == if last == ids[i - 1] then q else AppendPlain(q, ids[i - 1])
  }

  /** The last id of a plain sequence, as the list has it. */
  ghost predicate IsLast(q: Plain, last: Option<LogId>) {
    (last.None? <==> q.leaders == [])
    && (last.Some? ==> End(q) == last.value.index + 1 && q.leaders[|q.leaders| - 1] == last.value.leader)
  }

  lemma LastOf(list: KeyList)
    requires list.Valid()
    ensures IsLast(list.Contents(), list.LastKey())
  {
    LastIsEnd(list.keys);
  }

  /** Appending the next id to the lagging list gives what appending it to the full one gives; and the list
      may lag by the next id if that is of its last leader. */
  lemma NextBehind(p: Plain, ids: seq<LogId>, i: nat, q: Plain, last: Option<LogId>)
    requires Ascending(p, ids) && i < |ids| && IsLast(q, last)
    requires i == 0 ==> q == p
    requires i > 0 ==> last.Some? && Behind(p, ids, i, q, last.value)
    ensures last.Some? ==> last.value.index < ids[i].index
    ensures Behind(p, ids, i + 1, AppendPlain(q, ids[i]), ids[i])
    ensures last.Some? && last.value.leader == ids[i].leader ==> Behind(p, ids, i + 1, q, last.value)
  {
    assert ids[..i + 1][..i] == ids[..i];
    if i > 0 && last.value != ids[i - 1] {
      AppendTwice(q, ids[i - 1], ids[i]);
    }
  }

  lemma AppendNone(p: Plain, ids: seq<LogId>)
    requires |ids| == 0
    ensures Ascending(p, ids) && AppendAll(p, ids) == p
  {
  }

  /** Of ids of one leader only the first and the last matter. */
  lemma {:induction false} SkipSame(p: Plain, ids: seq<LogId>, k: nat)
    requires Ascending(p, ids) && 1 <= k < |ids|
    requires forall i :: 0 < i < |ids| ==> ids[i] == LogId(ids[0].leader, ids[0].index + i)
    ensures AppendAll(p, ids) == AppendPlain(AppendAll(p, ids[..k]), ids[|ids| - 1])
    decreases |ids| - k
  {
    hide AppendPlain;
    if k + 1 < |ids| {
      SkipSame(p, ids, k + 1);
      assert ids[..k + 1][..k] == ids[..k];
      AppendLast(p, ids[..k]);
      AppendTwice(AppendAll(p, ids[..k]), ids[k], ids[|ids| - 1]);
    }
  }

  lemma AppendLast(p: Plain, ids: seq<LogId>)
    requires Ascending(p, ids) && |ids| > 0
    ensures var r := AppendAll(p, ids);
            r.leaders != [] && r.leaders[|r.leaders| - 1] == ids[|ids| - 1].leader
  {
  }

  lemma LastRun(keys: seq<LogId>)
    requires WellFormed(keys) && |keys| > 0
    ensures var l := |keys|;
            var first := if l >= 2 && keys[l - 1].leader == keys[l - 2].leader then keys[l - 2] else keys[l - 1];
            Has(Expand(keys), first.index) && End(Expand(keys)) == keys[l - 1].index + 1
            && (forall x :: first.index <= x <= keys[l - 1].index ==>
                  Lookup(Expand(keys), x) == Some(LogId(keys[l - 1].leader, x)))
            && (first.index > Expand(keys).start ==>
                  Lookup(Expand(keys), first.index - 1) != Some(LogId(keys[l - 1].leader, first.index - 1)))
  {
    var l := |keys|;
    var i := if l >= 2 && keys[l - 1].leader == keys[l - 2].leader then l - 2 else l - 1;
    var first := keys[i];
    ExpandAt(keys, first.index);
    forall x | first.index <= x <= keys[l - 1].index
      ensures Lookup(Expand(keys), x) == Some(LogId(keys[l - 1].leader, x))
    {
      LeaderAtIs(keys, if x == keys[l - 1].index then l - 1 else i, x);
      ExpandAt(keys, x);
    }
    if i > 0 {
      LeaderAtIs(keys, i - 1, first.index - 1);
      ExpandAt(keys, first.index - 1);
    }
  }
}
