/** The log part of a node's state: its log ids and the pointers into them. Follower log repair and the
    scheduling of purges. */
module LogState {
  import opened Basics
  import opened LogIdList
  import opened KeyLogIds

  /** The pointer is an id of the log. */
  predicate OnLog(p: Plain, x: Option<LogId>) {
    x.Some? ==> Lookup(p, x.value.index) == x
  }

  /** The pointers lie on one log, in order: last purged, scheduled to purge, in the snapshot, committed. */
  predicate PointersOk(p: Plain, purgedNext: nat, purgeUpto: Option<LogId>, snapshot: Option<LogId>,
                       committed: Option<LogId>)
  {
    Sorted(p)
    && (if purgedNext == 0 then p.leaders == [] || p.start == 0
        else p.leaders != [] && p.start + 1 == purgedNext && purgeUpto.Some?)
    && OnLog(p, purgeUpto) && OnLog(p, snapshot) && OnLog(p, committed)
    && OptLe(purgeUpto, if snapshot.None? then committed else snapshot)
    && OptLe(snapshot, committed)
  }

  /** On a sorted log the order of ids is the order of indexes. */
  lemma IdOrder(p: Plain, x: Option<LogId>, y: Option<LogId>)
    requires Sorted(p) && OnLog(p, x) && OnLog(p, y)
    ensures OptLe(x, y) <==> NextIndex(x) <= NextIndex(y)
  {
  }

  /** Whether a log id is taken to be present: a committed index is, without looking. */
  predicate Present(p: Plain, committed: Option<LogId>, id: LogId) {
    id.index < NextIndex(committed) || Lookup(p, id.index) == Some(id)
  }

  predicate Consecutive(ids: seq<LogId>) {
    forall i :: 0 <= i < |ids| ==> ids[i].index == ids[0].index + i
  }

  /** Two logs agree on the indexes below `n` that `p` still has. */
  predicate AgreeBelow(p: Plain, q: Plain, n: nat) {
    forall x :: p.start <= x < n && x < End(p) ==> Lookup(q, x) == Lookup(p, x)
  }

  /** Entries that a leader with log `q` may send to a follower with log `p`: a piece of `q` that begins at
      or before the end of `p`, where `p` agrees with `q` before it and on what is committed. */
  predicate Sendable(p: Plain, committed: Option<LogId>, q: Plain, entries: seq<LogId>) {
    Sorted(q) && Consecutive(entries)
    && (forall i :: 0 <= i < |entries| ==> Lookup(q, entries[i].index) == Some(entries[i]))
    && (|entries| > 0 ==> entries[0].index <= End(p) && AgreeBelow(p, q, entries[0].index))
    && AgreeBelow(p, q, NextIndex(committed))
  }

  function Leaders(ids: seq<LogId>): (r: seq<LeaderId>)
    ensures |r| == |ids|
  {
    seq(|ids|, i requires 0 <= i < |ids| => ids[i].leader)
  }

  /** The ids put after the log that ends where they begin. */
  function Join(p: Plain, ids: seq<LogId>): Plain
    requires |ids| > 0
  {
    Plain(if p.leaders == [] then ids[0].index else p.start, p.leaders + Leaders(ids))
  }

  /** The log after the repair: the entries from the first conflicting one replace what is there. */
  function Repair(p: Plain, entries: seq<LogId>, k: nat): Plain
    requires k < |entries|
  {
    Join(TruncatePlain(p, entries[k].index), entries[k..])
  }

  lemma {:induction false} AppendConsecutive(p: Plain, ids: seq<LogId>)
    requires Consecutive(ids) && |ids| > 0 && (p.leaders == [] || End(p) == ids[0].index)
    ensures Ascending(p, ids) && AppendAll(p, ids) == Join(p, ids)
  {
    hide AppendPlain;
    AppendsNext(p, ids);
    if |ids| > 1 {
      AppendConsecutive(p, ids[..|ids| - 1]);
    } else {
      assert ids[..0] == [];
    }
  }

  lemma AppendsNext(p: Plain, ids: seq<LogId>)
    requires Consecutive(ids) && |ids| > 0 && (p.leaders == [] || End(p) == ids[0].index)
    ensures var front, last := ids[..|ids| - 1], ids[|ids| - 1];
            var q := if |ids| == 1 then p else Join(p, front);
            (q.leaders != [] ==> End(q) == last.index) && AppendPlain(q, last) == Join(p, ids)
  {
  }

  ghost predicate FirstAbsent(p: Plain, committed: Option<LogId>, entries: seq<LogId>, k: nat) {
    k <= |entries| && (forall i :: 0 <= i < k ==> Present(p, committed, entries[i]))
    && (k < |entries| ==> !Present(p, committed, entries[k]))
  }

  /** Truncating and extending does the repair. */
  lemma RepairSteps(p: Plain, committed: Option<LogId>, q: Plain, entries: seq<LogId>, k: nat)
    requires OnLog(p, committed) && Sendable(p, committed, q, entries) && k < |entries|
    requires p.leaders == [] || p.start == 0 || p.start < NextIndex(committed)
    requires FirstAbsent(p, committed, entries, k) && (p.leaders == [] ==> p == EMPTY)
    ensures var kept := TruncatePlain(p, entries[k].index);
            Ascending(kept, entries[k..]) && AppendAll(kept, entries[k..]) == Repair(p, entries, k)
    ensures Has(p, entries[k].index) || entries[k].index == End(p)
  {
    hide Sorted, AppendAll, Join;
    ConflictAt(p, committed, q, entries, k);
    assert Consecutive(entries[k..]);
    AppendConsecutive(TruncatePlain(p, entries[k].index), entries[k..]);
  }

  /** After the repair the follower's ids are the leader's up to the end of what was sent; what precedes the
      conflict, and what is committed, is as it was. */
  lemma RepairAgrees(p: Plain, committed: Option<LogId>, q: Plain, entries: seq<LogId>, k: nat)
    requires Sorted(p) && OnLog(p, committed) && Sendable(p, committed, q, entries) && k < |entries|
    requires p.leaders == [] || p.start == 0 || p.start < NextIndex(committed)
    requires FirstAbsent(p, committed, entries, k)
    ensures entries[k].index <= End(p)
    ensures var r := Repair(p, entries, k);
            End(r) == entries[|entries| - 1].index + 1
            && r.start == (if p.leaders == [] then entries[k].index else p.start)
            && AgreeBelow(r, q, End(r)) && Sorted(r)
            && (forall x :: 0 <= x < entries[k].index ==> Lookup(r, x) == Lookup(p, x))
            && NextIndex(committed) <= entries[k].index
  {
    hide Sorted, Repair, Sendable, OnLog;
    ConflictAt(p, committed, q, entries, k);
    KeptAgrees(p, committed, q, entries, k);
    RepairLookup(p, entries, k);
    RepairIsLeaders(p, q, entries, k, Repair(p, entries, k), committed);
    SortedLike(Repair(p, entries, k), q);
  }

  lemma ConflictAt(p: Plain, committed: Option<LogId>, q: Plain, entries: seq<LogId>, k: nat)
    requires OnLog(p, committed) && Sendable(p, committed, q, entries) && k < |entries|
    requires p.leaders == [] || p.start == 0 || p.start < NextIndex(committed)
    requires FirstAbsent(p, committed, entries, k)
    ensures NextIndex(committed) <= entries[k].index <= End(p) && Consecutive(entries) && Sorted(q)
    ensures p.leaders != [] ==> p.start < entries[k].index || p.start == 0
  {
    hide Sorted;
    if k > 0 {
      assert Present(p, committed, entries[k - 1]) && entries[k - 1].index + 1 == entries[k].index;
    }
  }

  lemma RepairIsLeaders(p: Plain, q: Plain, entries: seq<LogId>, k: nat, r: Plain, committed: Option<LogId>)
    requires k < |entries| && Sendable(p, committed, q, entries) && AgreeBelow(p, q, entries[k].index)
    requires var at := entries[k].index;
             at <= End(p) && r.start == (if p.leaders == [] then at else p.start)
             && End(r) == entries[|entries| - 1].index + 1
             && (forall x :: 0 <= x < at ==> Lookup(r, x) == Lookup(p, x))
             && (forall x :: at <= x < End(r) ==> Lookup(r, x) == Some(entries[k + (x - at)]))
    ensures AgreeBelow(r, q, End(r))
  {
  }

  lemma RepairLookup(p: Plain, entries: seq<LogId>, k: nat)
    requires k < |entries| && Consecutive(entries) && entries[k].index <= End(p)
    requires p.leaders != [] ==> p.start < entries[k].index || p.start == 0
    ensures var at, r := entries[k].index, Repair(p, entries, k);
            End(r) == entries[|entries| - 1].index + 1
            && r.start == (if p.leaders == [] then at else p.start)
            && (forall x :: 0 <= x < at ==> Lookup(r, x) == Lookup(p, x))
            && (forall x :: at <= x < End(r) ==> Lookup(r, x) == Some(entries[k + (x - at)]))
  {
  }

  lemma KeptAgrees(p: Plain, committed: Option<LogId>, q: Plain, entries: seq<LogId>, k: nat)
    requires Sendable(p, committed, q, entries) && k < |entries| && OnLog(p, committed)
    requires forall i :: 0 <= i < k ==> Present(p, committed, entries[i])
    ensures AgreeBelow(p, q, entries[k].index)
  {
    forall x | p.start <= x < entries[k].index && x < End(p)
      ensures Lookup(q, x) == Lookup(p, x)
    {
      if entries[0].index <= x {
        var i := x - entries[0].index;
        assert entries[i].index == x && Present(p, committed, entries[i]);
      }
    }
  }

  lemma SortedLike(r: Plain, q: Plain)
    requires Sorted(q) && AgreeBelow(r, q, End(r))
    ensures Sorted(r)
  {
    forall i, j | 0 <= i <= j < |r.leaders|
      ensures LeaderLe(r.leaders[i], r.leaders[j])
    {
      assert Lookup(q, r.start + i) == Lookup(r, r.start + i) && Lookup(q, r.start + j) == Lookup(r, r.start + j);
      LeadLe(q, r.start + i, r.start + j);
    }
  }

  /** Pointers at or below an index stay on a log that does not change below it. */
  lemma PointersStay(p: Plain, r: Plain, purgedNext: nat, purgeUpto: Option<LogId>, snapshot: Option<LogId>,
                     committed: Option<LogId>, at: nat)
    requires PointersOk(p, purgedNext, purgeUpto, snapshot, committed)
    requires Sorted(r) && NextIndex(committed) <= at && (forall x :: 0 <= x < at ==> Lookup(r, x) == Lookup(p, x))
    requires r.leaders != [] && r.start == (if p.leaders == [] then at else p.start)
    requires p.leaders == [] ==> at == 0
    ensures PointersOk(r, purgedNext, purgeUpto, snapshot, committed)
  {
  }

  class State {
    const ids: KeyList
    var committed: Option<LogId>
    var snapshot: Option<LogId>
    var purgeUpto: Option<LogId>
    var purgedNext: nat

    ghost predicate Valid()
      reads this, ids
    {
      ids.Valid() && PointersOk(ids.Contents(), purgedNext, purgeUpto, snapshot, committed)
    }

    constructor ()
      ensures Valid() && fresh(ids) && ids.keys == [] && committed.None? && snapshot.None?
    {
      ids := new KeyList([]);
      committed, snapshot, purgeUpto, purgedNext := None, None, None, 0;
    }

    method HasLogId(id: LogId) returns (b: bool)
      requires Valid()
      ensures b <==> Present(ids.Contents(), committed, id)
    {
      if id.index < NextIndex(committed) {
        return true;
      }
      var local := ids.RefAt(id.index);
      return local == Some(id);
    }

    /** The position of the first entry that is not present, or the number of entries. */
    method FirstConflictingIndex(entries: seq<LogId>) returns (k: nat)
      requires Valid()
      ensures k <= |entries| && (forall i :: 0 <= i < k ==> Present(ids.Contents(), committed, entries[i]))
      ensures k < |entries| ==> !Present(ids.Contents(), committed, entries[k])
    {
      for i := 0 to |entries|
        invariant forall j :: 0 <= j < i ==> Present(ids.Contents(), committed, entries[j])
      {
        var b := HasLogId(entries[i]);
        if !b {
          return i;
        }
      }
      return |entries|;
    }

    /** Delete the ids from `since` on, if there are any. */
    method TruncateLogs(since: nat)
      requires Valid()
      modifies ids
      ensures ids.Valid()
      ensures ids.Contents() == if Has(old(ids.Contents()), since) then TruncatePlain(old(ids.Contents()), since)
                                else old(ids.Contents())
    {
      var id := ids.RefAt(since);
      if id.None? {
        return;
      }
      ids.Truncate(since);
    }

    /** Take over a leader's entries. Only a conflicting tail is deleted. */
    method AppendEntries(entries: seq<LogId>, ghost leaderLog: Plain) returns (since: nat)
      requires Valid() && Sendable(ids.Contents(), committed, leaderLog, entries)
      modifies ids
      ensures Valid() && FirstAbsent(old(ids.Contents()), committed, entries, since)
      ensures ids.Contents() == if since < |entries| then Repair(old(ids.Contents()), entries, since)
                                else old(ids.Contents())
    {
      hide PointersOk, Repair, Join, AppendAll, Sorted;
      ghost var p := ids.Contents();
      PointersOn(this);
      since := FirstConflictingIndex(entries);
      if since < |entries| {
        RepairAgrees(p, committed, leaderLog, entries, since);
        EmptyStart(ids.keys);
        RepairSteps(p, committed, leaderLog, entries, since);
        TruncateLogs(entries[since].index);
        ids.Extend(entries[since..]);
        PointersStay(p, ids.Contents(), purgedNext, purgeUpto, snapshot, committed, entries[since].index);
      }
    }

    method LastPurged() returns (r: Option<LogId>)
      requires Valid()
      ensures NextIndex(r) == purgedNext && OnLog(ids.Contents(), r)
    {
      if purgedNext == 0 {
        return None;
      }
      LastIsEnd(ids.keys);
      LeaderAtIs(ids.keys, 0, ids.keys[0].index);
      return Some(ids.keys[0]);
    }

    /** Purge up to the scheduled id. */
    method PurgeLog()
      requires Valid()
      modifies this`purgedNext, ids
      ensures Valid() && purgedNext == NextIndex(purgeUpto)
      ensures ids.Contents() == if purgeUpto.None? then old(ids.Contents())
                                else PurgePlain(old(ids.Contents()), purgeUpto.value)
    {
      var last := LastPurged();
      ghost var p := ids.Contents();
      IdOrder(p, purgeUpto, last);
      PurgeKeepsPointers(p, purgedNext, purgeUpto, snapshot, committed);
      LastIsEnd(ids.keys);
      if OptLe(purgeUpto, last) {
        return;
      }
      var upto := purgeUpto.value;
      purgedNext := upto.index + 1;
      ids.Purge(upto);
    }

    /** The user asks to purge up to `index`. The lookup of the id to purge always succeeds; the schedule
        never moves backwards and never passes the snapshot. `inUse` stands for a replication task that
        still needs the log. */
    method TriggerPurgeLog(index: nat, inUse: bool)
      requires Valid()
      modifies this`purgeUpto, this`purgedNext, ids
      ensures Valid()
      ensures OptLe(old(purgeUpto), purgeUpto) && (purgeUpto != old(purgeUpto) ==> OptLe(purgeUpto, snapshot))
      ensures if snapshot.None? || index < NextIndex(old(purgeUpto)) then
                purgeUpto == old(purgeUpto) && ids.Contents() == old(ids.Contents())
              else
                var at := if index > snapshot.value.index then snapshot.value.index else index;
                purgeUpto.Some? && purgeUpto == Lookup(old(ids.Contents()), at)
                && ids.Contents() == if inUse then old(ids.Contents())
                                     else PurgePlain(old(ids.Contents()), purgeUpto.value)
    {
      if snapshot.None? {
        return;
      }
      if index < NextIndex(purgeUpto) {
        return;
      }
      var at := if index > snapshot.value.index then snapshot.value.index else index;
      ghost var p := ids.Contents();
      IdOrder(p, purgeUpto, snapshot);
      IdOrder(p, snapshot, committed);
      var id := ids.RefAt(at);
      assert id.Some?;
      IdOrder(p, purgeUpto, id);
      IdOrder(p, id, snapshot);
      purgeUpto := id;
      if !inUse {
        PurgeLog();
      }
    }
  }

  lemma PointersOn(s: State)
    requires s.Valid()
    ensures Sorted(s.ids.Contents()) && OnLog(s.ids.Contents(), s.committed)
    ensures var p := s.ids.Contents();
            (p.leaders == [] || p.start == 0 || p.start < NextIndex(s.committed))
  {
  }

  lemma EmptyStart(keys: seq<LogId>)
    requires WellFormed(keys)
    ensures Expand(keys).leaders == [] ==> Expand(keys) == EMPTY
  {
  }

  /** Where nothing is absent nothing is deleted, and every entry sent that is not purged is there. */
  lemma AllPresent(p: Plain, committed: Option<LogId>, q: Plain, entries: seq<LogId>)
    requires OnLog(p, committed) && Sendable(p, committed, q, entries)
    requires FirstAbsent(p, committed, entries, |entries|)
    ensures forall i :: 0 <= i < |entries| && entries[i].index >= p.start ==>
              Lookup(p, entries[i].index) == Some(entries[i])
  {
  }

  lemma PurgeKeepsPointers(p: Plain, purgedNext: nat, purgeUpto: Option<LogId>, snapshot: Option<LogId>,
                           committed: Option<LogId>)
    requires PointersOk(p, purgedNext, purgeUpto, snapshot, committed)
    ensures purgeUpto.Some? ==>
              purgeUpto.value.index < End(p) && purgeUpto.value.index >= p.start
              && PointersOk(PurgePlain(p, purgeUpto.value), purgeUpto.value.index + 1, purgeUpto, snapshot, committed)
  {
    if purgeUpto.Some? {
      var r := PurgePlain(p, purgeUpto.value);
      IdOrder(p, purgeUpto, if snapshot.None? then committed else snapshot);
      IdOrder(p, snapshot, committed);
      assert forall x :: purgeUpto.value.index <= x ==> Lookup(r, x) == Lookup(p, x);
    }
  }
}
