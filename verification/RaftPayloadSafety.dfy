/** A log id stands for one payload, as long as no leader restarts without an entry that it flushed or sent. */
module RaftPayloadSafety {
  import opened Basics
  import opened Votes
  import opened Quorums
  import opened RaftNode
  import opened RaftCluster
  import opened RaftInvariant
  import opened RaftSafety
  import opened RaftCore
  import opened RaftGrowth
  import opened RaftStorage
  import opened RaftRefusal
  import opened RaftTheorems
  import opened RaftPushes
  import opened RaftQueues
  import opened RaftPayload

  type Payloads = map<LogId, Payload>

  // ---- the invariant ----

  /** Node `id` was the leader with committed id `t`. */
  ghost predicate Owns(cfg: Config, h: History, id: NodeId, t: LeaderId) {
    exists l :: l in h.leaders && ToCommitted(cfg.mode, l) == t && l.node == Some(id)
  }

  /** Node `id` has payload `p` under id `(t, i)`: the first one there was; or nobody else has seen the entry,
      which the node itself wrote as a leader, and which carries nothing if it is the leader's first. */
  ghost predicate EntryOk(cfg: Config, h: History, first: Payloads, id: NodeId, t: LeaderId, i: nat, p: Payload) {
    if LogId(t, i) in first then first[LogId(t, i)] == p
    else Owns(cfg, h, id, t) && t in h.bases && (i == |h.bases[t]| ==> p.Blank?)
  }

  ghost predicate StoreData(cfg: Config, h: History, first: Payloads, id: NodeId, log: Log, d: Data) {
    |d| == |log| && forall i :: 0 <= i < |log| ==> EntryOk(cfg, h, first, id, log[i], i, d[i])
  }

  /** Two logs of one node have the same payload under an id that nobody else has seen. */
  ghost predicate Agree(first: Payloads, log: Log, d: Data, log': Log, d': Data) {
    |d| == |log| && |d'| == |log'|
    && forall i :: 0 <= i < |log| && i < |log'| && log[i] == log'[i] && LogId(log[i], i) !in first ==> d[i] == d'[i]
  }

  /** What is on disk was flushed. */
  ghost predicate Flushed(first: Payloads, log: Log) {
    forall i :: 0 <= i < |log| ==> LogId(log[i], i) in first
  }

  /** The ids a leader assigns next are not in use. */
  ghost predicate NextAreFree(cfg: Config, first: Payloads, id: NodeId, n: Node) {
    n.vote.committed && n.vote.leader.node == Some(id) ==>
      forall x :: x in first && x.leader == VoteTerm(cfg.mode, n.vote) ==> x.index < |n.log|
  }

  ghost predicate StoresData(cfg: Config, h: History, first: Payloads, id: NodeId, n: Node, ds: seq<Data>) {
    Shape(n, ds)
    && (forall k :: 0 <= k < |ds| ==> StoreData(cfg, h, first, id, StoreAt(n, k).log, ds[k]))
    && (forall j, k :: 0 <= j <= k < |ds| ==> Agree(first, StoreAt(n, j).log, ds[j], StoreAt(n, k).log, ds[k]))
    && Flushed(first, n.disk.log)
  }

  ghost predicate NodeData(cfg: Config, h: History, first: Payloads, id: NodeId, n: Node, ds: seq<Data>) {
    StoresData(cfg, h, first, id, n, ds) && NextAreFree(cfg, first, id, n)
  }

  ghost predicate FirstOk(cfg: Config, h: History, first: Payloads) {
    forall x :: x in first ==>
      x.leader in h.bases && |h.bases[x.leader]| <= x.index
      && (x.index == |h.bases[x.leader]| && x.leader != Genesis(cfg) ==> first[x].Blank?)
  }

  predicate RequestOk(first: Payloads, m: Msg, given: Data) {
    m.AppendReq? && |given| == |m.entries|
    && forall j :: 0 <= j < |given| ==>
         LogId(m.entries[j], NextIndex(m.prev) + j) in first
         && first[LogId(m.entries[j], NextIndex(m.prev) + j)] == given[j]
  }

  ghost predicate SentOk(first: Payloads, sent: set<(Msg, Data)>) {
    forall e :: e in sent ==> RequestOk(first, e.0, e.1)
  }

  /** An acknowledged log was flushed. */
  ghost predicate AcksOk(cfg: Config, h: History, first: Payloads) {
    forall m, y, l, j :: m in h.msgs && IsAck(m, y, l) && 0 <= j <= m.res.last.value.index ==>
      LogId(At(h.bases, ToCommitted(cfg.mode, l), j), j) in first
  }

  ghost predicate HistoryData(cfg: Config, h: History, f: Full) {
    FirstOk(cfg, h, f.first) && SentOk(f.first, f.sent) && AcksOk(cfg, h, f.first)
  }

  ghost predicate DataInv(cfg: Config, f: Full) {
    Sound(cfg, f) && HistoryData(cfg, f.s.h, f)
    && forall id :: id in f.s.nodes ==> NodeData(cfg, f.s.h, f.first, id, f.s.nodes[id], f.data[id])
  }

  // ---- the condition ----

  /** An entry of the leader under vote `v`, but not its first. */
  predicate IsLater(cfg: Config, h: History, v: Vote, x: LogId) {
    x.leader == VoteTerm(cfg.mode, v) && x.leader in h.bases && |h.bases[x.leader]| < x.index
  }

  /** A leader that crashes would find on its disk whatever was flushed or sent of its own entries, but for the
      first, which is blank whenever it is written. */
  ghost predicate Covered(cfg: Config, f: Full, id: NodeId)
    requires id in f.s.nodes
  {
    var d := f.s.nodes[id].disk;
    d.vote.committed && d.vote.leader.node == Some(id) ==>
      forall x :: x in f.first && IsLater(cfg, f.s.h, d.vote, x) ==> x.index < |d.log|
  }

  ghost predicate Safe(cfg: Config, f: Full, a: Act)
    requires Can(cfg, f, a)
  {
    a.step.CrashStep? ==> Covered(cfg, f, a.step.id)
  }

  ghost predicate SafeAll(cfg: Config, f: Full, acts: seq<Act>)
    requires CanAll(cfg, f, acts)
    decreases |acts|
  {
    |acts| == 0 || (Safe(cfg, f, acts[0]) && SafeAll(cfg, Then(cfg, f, acts[0]), acts[1..]))
  }

  // ---- more is known ----

  predicate Knows(first: Payloads, first': Payloads) {
    forall x :: x in first ==> x in first' && first'[x] == first[x]
  }

  /** What is newly known was written by node `id`. */
  ghost predicate KnownOf(cfg: Config, h: History, first: Payloads, first': Payloads, id: NodeId) {
    Knows(first, first') && forall x :: x in first' && x !in first ==> Owns(cfg, h, id, x.leader)
  }

  lemma OwnsOne(cfg: Config, s: Cluster, a: NodeId, b: NodeId, t: LeaderId)
    requires Inv(cfg, s) && Owns(cfg, s.h, a, t) && Owns(cfg, s.h, b, t)
    ensures a == b
  {
    hide Inv;
    var l :| l in s.h.leaders && ToCommitted(cfg.mode, l) == t && l.node == Some(a);
    var l' :| l' in s.h.leaders && ToCommitted(cfg.mode, l') == t && l'.node == Some(b);
    LeadersAreOrdered(cfg, s, l, l');
  }

  lemma OwnsGrows(cfg: Config, h: History, h': History, id: NodeId, t: LeaderId)
    requires Owns(cfg, h, id, t) && Extends(h, h')
    ensures Owns(cfg, h', id, t)
  {
    var l :| l in h.leaders && ToCommitted(cfg.mode, l) == t && l.node == Some(id);
    assert l in h'.leaders;
  }

  lemma EntryOthers(cfg: Config, s: Cluster, h: History, first: Payloads, first': Payloads, id: NodeId,
                    y: NodeId, t: LeaderId, i: nat, p: Payload)
    requires Inv(cfg, s) && Extends(h, s.h) && KnownOf(cfg, s.h, first, first', id)
    requires EntryOk(cfg, h, first, y, t, i, p) && y != id
    ensures EntryOk(cfg, s.h, first', y, t, i, p)
  {
    hide Inv, Owns;
    var x := LogId(t, i);
    if x !in first {
      OwnsGrows(cfg, h, s.h, y, t);
      if x in first' {
        OwnsOne(cfg, s, id, y, t);
      }
    }
  }

  lemma StoreOthers(cfg: Config, s: Cluster, h: History, first: Payloads, first': Payloads, id: NodeId,
                    y: NodeId, log: Log, d: Data)
    requires Inv(cfg, s) && Extends(h, s.h) && KnownOf(cfg, s.h, first, first', id)
    requires StoreData(cfg, h, first, y, log, d) && y != id
    ensures StoreData(cfg, s.h, first', y, log, d)
  {
    hide Inv, Owns, Extends, KnownOf, EntryOk;
    forall i | 0 <= i < |log|
      ensures EntryOk(cfg, s.h, first', y, log[i], i, d[i])
    {
      EntryOthers(cfg, s, h, first, first', id, y, log[i], i, d[i]);
    }
  }

  lemma AgreeKnows(first: Payloads, first': Payloads, log: Log, d: Data, log': Log, d': Data)
    requires Agree(first, log, d, log', d') && Knows(first, first')
    ensures Agree(first', log, d, log', d')
  {
  }

  lemma StoresOthers(cfg: Config, s: Cluster, h: History, first: Payloads, first': Payloads, id: NodeId,
                     y: NodeId, n: Node, ds: seq<Data>)
    requires Inv(cfg, s) && Extends(h, s.h) && KnownOf(cfg, s.h, first, first', id)
    requires StoresData(cfg, h, first, y, n, ds) && y != id
    ensures StoresData(cfg, s.h, first', y, n, ds)
  {
    hide Inv, Owns, Extends, StoreData, Agree;
    forall k | 0 <= k < |ds|
      ensures StoreData(cfg, s.h, first', y, StoreAt(n, k).log, ds[k])
    {
      StoreOthers(cfg, s, h, first, first', id, y, StoreAt(n, k).log, ds[k]);
    }
    forall j, k | 0 <= j <= k < |ds|
      ensures Agree(first', StoreAt(n, j).log, ds[j], StoreAt(n, k).log, ds[k])
    {
      AgreeKnows(first, first', StoreAt(n, j).log, ds[j], StoreAt(n, k).log, ds[k]);
    }
  }

  /** The leader that a node is, it owns. */
  lemma LeaderOwns(cfg: Config, s: Cluster, id: NodeId)
    requires Inv(cfg, s) && id in s.nodes
    requires s.nodes[id].vote.committed && s.nodes[id].vote.leader.node == Some(id)
    ensures Owns(cfg, s.h, id, VoteTerm(cfg.mode, s.nodes[id].vote))
    ensures s.nodes[id].vote.leader in s.h.leaders
  {
    hide HistoryOk, GrantsOk, PromisesOk, VotesRise, SendsOk, RolesOk, LogOk, CommitOk, OwnOk;
    var n := s.nodes[id];
    assert NodeOk(cfg, s.h, id, n);
    MemOk(cfg, s.h, id, n);
  }

  lemma FreeOthers(cfg: Config, s: Cluster, first: Payloads, first': Payloads, id: NodeId, y: NodeId)
    requires Inv(cfg, s) && KnownOf(cfg, s.h, first, first', id) && y in s.nodes && y != id
    requires NextAreFree(cfg, first, y, s.nodes[y])
    ensures NextAreFree(cfg, first', y, s.nodes[y])
  {
    hide Inv, Owns;
    var n := s.nodes[y];
    if n.vote.committed && n.vote.leader.node == Some(y) {
      LeaderOwns(cfg, s, y);
      forall x | x in first' && x.leader == VoteTerm(cfg.mode, n.vote)
        ensures x.index < |n.log|
      {
        if x !in first {
          OwnsOne(cfg, s, id, y, x.leader);
        }
      }
    }
  }

  /** What a node publishes of its own log leaves the data of the others as it should be. */
  lemma OthersData(cfg: Config, s: Cluster, h: History, first: Payloads, first': Payloads, id: NodeId,
                   y: NodeId, ds: seq<Data>)
    requires Inv(cfg, s) && Extends(h, s.h) && KnownOf(cfg, s.h, first, first', id)
    requires y in s.nodes && y != id && NodeData(cfg, h, first, y, s.nodes[y], ds)
    ensures NodeData(cfg, s.h, first', y, s.nodes[y], ds)
  {
    hide Inv, Owns, Extends, KnownOf, StoresData, NextAreFree;
    StoresOthers(cfg, s, h, first, first', id, y, s.nodes[y], ds);
    FreeOthers(cfg, s, first, first', id, y);
  }

  // ---- publishing what a node's storage holds, now or later ----

  ghost predicate KnownFrom(first: Payloads, first': Payloads, log: Log, d: Data) {
    |d| == |log| && Knows(first, first')
    && forall x :: x in first' && x !in first ==>
         x.index < |log| && x.leader == log[x.index] && first'[x] == d[x.index]
  }

  lemma EntrySelf(cfg: Config, h: History, h': History, first: Payloads, first': Payloads, id: NodeId,
                  log: Log, d: Data, log': Log, d': Data, i: nat)
    requires Extends(h, h') && KnownFrom(first, first', log, d) && |d'| == |log'| && i < |log'|
    requires Agree(first, log, d, log', d') && EntryOk(cfg, h, first, id, log'[i], i, d'[i])
    ensures EntryOk(cfg, h', first', id, log'[i], i, d'[i])
  {
    hide Owns;
    if LogId(log'[i], i) !in first {
      OwnsGrows(cfg, h, h', id, log'[i]);
    }
  }

  lemma StoreSelf(cfg: Config, h: History, h': History, first: Payloads, first': Payloads, id: NodeId,
                  log: Log, d: Data, log': Log, d': Data)
    requires Extends(h, h') && KnownFrom(first, first', log, d)
    requires Agree(first, log, d, log', d') && StoreData(cfg, h, first, id, log', d')
    ensures StoreData(cfg, h', first', id, log', d')
  {
    hide Extends, KnownFrom, Agree, EntryOk;
    forall i | 0 <= i < |log'|
      ensures EntryOk(cfg, h', first', id, log'[i], i, d'[i])
    {
      EntrySelf(cfg, h, h', first, first', id, log, d, log', d', i);
    }
  }

  lemma AgreeSwaps(first: Payloads, log: Log, d: Data, log': Log, d': Data)
    requires Agree(first, log, d, log', d')
    ensures Agree(first, log', d', log, d)
  {
  }

  lemma StoresSelf(cfg: Config, h: History, h': History, first: Payloads, first': Payloads, id: NodeId,
                   n: Node, ds: seq<Data>, p: nat)
    requires Extends(h, h') && StoresData(cfg, h, first, id, n, ds) && p < |ds|
    requires KnownFrom(first, first', StoreAt(n, p).log, ds[p])
    ensures StoresData(cfg, h', first', id, n, ds)
  {
    hide Extends, StoreData, Agree;
    forall k | 0 <= k < |ds|
      ensures StoreData(cfg, h', first', id, StoreAt(n, k).log, ds[k])
    {
      if k < p {
        AgreeSwaps(first, StoreAt(n, k).log, ds[k], StoreAt(n, p).log, ds[p]);
      }
      StoreSelf(cfg, h, h', first, first', id, StoreAt(n, p).log, ds[p], StoreAt(n, k).log, ds[k]);
    }
    forall j, k | 0 <= j <= k < |ds|
      ensures Agree(first', StoreAt(n, j).log, ds[j], StoreAt(n, k).log, ds[k])
    {
      AgreeKnows(first, first', StoreAt(n, j).log, ds[j], StoreAt(n, k).log, ds[k]);
    }
  }

  lemma FreeSelf(cfg: Config, s: Cluster, first: Payloads, first': Payloads, id: NodeId, p: nat, d: Data)
    requires Inv(cfg, s) && Ordered(cfg, s) && id in s.nodes && p <= |s.nodes[id].queue|
    requires NextAreFree(cfg, first, id, s.nodes[id])
    requires KnownFrom(first, first', StoreAt(s.nodes[id], p).log, d)
    ensures NextAreFree(cfg, first', id, s.nodes[id])
  {
    hide HistoryOk, CoreOk, RolesOk, QueueOk, Owns, RoleOk;
    var n := s.nodes[id];
    if n.vote.committed && n.vote.leader.node == Some(id) {
      LeaderOwns(cfg, s, id);
      assert NodeOk(cfg, s.h, id, n);
      CoreMem(cfg, s.h, id, n);
      StoreAtEnd(n);
      LeaderStoresGrow(cfg, s.h, id, n, p, |n.queue|);
    }
  }

  /** Whatever is published of a node's log, an unseen id in it belongs to the node. */
  lemma KnownOwned(cfg: Config, h: History, first: Payloads, first': Payloads, id: NodeId, log: Log, d: Data)
    requires StoreData(cfg, h, first, id, log, d) && KnownFrom(first, first', log, d)
    ensures KnownOf(cfg, h, first, first', id)
  {
    forall x | x in first' && x !in first
      ensures Owns(cfg, h, id, x.leader)
    {
      assert EntryOk(cfg, h, first, id, log[x.index], x.index, d[x.index]);
    }
  }

  lemma FirstGrows(cfg: Config, h: History, h': History, first: Payloads, first': Payloads, id: NodeId, log: Log,
                   d: Data)
    requires FirstOk(cfg, h, first) && Extends(h, h') && KnownFrom(first, first', log, d)
    requires LogOk(h.bases, log) && StoreData(cfg, h, first, id, log, d)
    ensures FirstOk(cfg, h', first')
  {
    forall x | x in first'
      ensures x.leader in h'.bases && |h'.bases[x.leader]| <= x.index
              && (x.index == |h'.bases[x.leader]| && x.leader != Genesis(cfg) ==> first'[x].Blank?)
    {
      if x !in first {
        assert EntryOk(cfg, h, first, id, log[x.index], x.index, d[x.index]);
      }
    }
  }

  lemma SentKnows(first: Payloads, first': Payloads, sent: set<(Msg, Data)>)
    requires SentOk(first, sent) && Knows(first, first')
    ensures SentOk(first', sent)
  {
    forall e | e in sent
      ensures RequestOk(first', e.0, e.1)
    {
      assert RequestOk(first, e.0, e.1);
    }
  }

  // ---- what a handler writes ----

  /** The payloads of the entries that a command appends are as they should be. */
  ghost predicate GivenOk(cfg: Config, h: History, first: Payloads, id: NodeId, st: Store, es: Log, given: Data) {
    forall j :: 0 <= j < |es| ==> EntryOk(cfg, h, first, id, es[j], |st.log| + j, Tail(given, |es|)[j])
  }

  lemma PutData(cfg: Config, h: History, first: Payloads, id: NodeId, st: Store, d: Data, cmd: Command, given: Data)
    requires StoreData(cfg, h, first, id, st.log, d)
    requires cmd.AppendEntries? ==> GivenOk(cfg, h, first, id, st, cmd.entries, given)
    ensures StoreData(cfg, h, first, id, Run(st, cmd).log, Put(d, cmd, given))
  {
    hide EntryOk, Tail;
    if cmd.AppendEntries? {
      var log', d' := Run(st, cmd).log, Put(d, cmd, given);
      forall i | 0 <= i < |log'|
        ensures EntryOk(cfg, h, first, id, log'[i], i, d'[i])
      {
        if i >= |st.log| {
          var j := i - |st.log|;
          assert EntryOk(cfg, h, first, id, cmd.entries[j], |st.log| + j, Tail(given, |cmd.entries|)[j]);
        }
      }
    }
  }

  /** An entry appended after `st` is not in the log `log0`, or its payload is known. */
  ghost predicate NewTo(first: Payloads, log0: Log, st: Store, es: Log) {
    forall j :: 0 <= j < |es| && |st.log| + j < |log0| && log0[|st.log| + j] == es[j] ==>
      LogId(es[j], |st.log| + j) in first
  }

  lemma NewIsKnown(first: Payloads, log0: Log, st: Store, es: Log, i: nat)
    requires NewTo(first, log0, st, es) && |st.log| <= i < |log0| && i < |st.log| + |es| && log0[i] == es[i - |st.log|]
    ensures LogId(log0[i], i) in first
  {
    var j := i - |st.log|;
    assert log0[|st.log| + j] == es[j];
  }

  lemma PutAgrees(first: Payloads, log0: Log, d0: Data, st: Store, d: Data, cmd: Command, given: Data)
    requires Agree(first, log0, d0, st.log, d)
    requires cmd.AppendEntries? ==> NewTo(first, log0, st, cmd.entries)
    ensures Agree(first, log0, d0, Run(st, cmd).log, Put(d, cmd, given))
  {
    hide Tail, NewTo;
    if cmd.AppendEntries? {
      var log', d' := Run(st, cmd).log, Put(d, cmd, given);
      forall i | 0 <= i < |log0| && i < |log'| && log0[i] == log'[i] && LogId(log0[i], i) !in first
        ensures d0[i] == d'[i]
      {
        if i >= |st.log| {
          NewIsKnown(first, log0, st, cmd.entries, i);
        }
      }
    }
  }

  /** Every command that node `n'` has queued after the first `from` ones writes payloads as it should. */
  ghost predicate WritesOk(cfg: Config, h: History, first: Payloads, id: NodeId, n': Node, from: nat, given: Data) {
    forall q :: from <= q < |n'.queue| && n'.queue[q].AppendEntries? ==>
      GivenOk(cfg, h, first, id, StoreAt(n', q), n'.queue[q].entries, given)
      && forall j :: 0 <= j <= q ==> NewTo(first, StoreAt(n', j).log, StoreAt(n', q), n'.queue[q].entries)
  }

  lemma {:induction false} CarriedData(cfg: Config, h: History, first: Payloads, id: NodeId, n': Node,
                                       ds: seq<Data>, given: Data, k: nat)
    requires 0 < |ds| <= |n'.queue| + 1 && k <= |n'.queue| && WritesOk(cfg, h, first, id, n', |ds| - 1, given)
    requires forall j :: 0 <= j < |ds| ==> StoreData(cfg, h, first, id, StoreAt(n', j).log, ds[j])
    ensures var r := Carry(ds, n'.queue, given);
            |r| == |n'.queue| + 1 && StoreData(cfg, h, first, id, StoreAt(n', k).log, r[k])
    decreases k
  {
    hide StoreData, GivenOk, NewTo, Put, StoreAt;
    CarryIs(ds, n'.queue, given);
    var r := Carry(ds, n'.queue, given);
    if k >= |ds| {
      CarriedData(cfg, h, first, id, n', ds, given, k - 1);
      StoreAtNext(n', k - 1);
      PutData(cfg, h, first, id, StoreAt(n', k - 1), r[k - 1], n'.queue[k - 1], given);
    }
  }

  lemma {:induction false} CarriedAgree(cfg: Config, h: History, first: Payloads, id: NodeId, n': Node,
                                        ds: seq<Data>, given: Data, j: nat, k: nat)
    requires 0 < |ds| <= |n'.queue| + 1 && j <= k <= |n'.queue| && WritesOk(cfg, h, first, id, n', |ds| - 1, given)
    requires forall i, q :: 0 <= i <= q < |ds| ==> Agree(first, StoreAt(n', i).log, ds[i], StoreAt(n', q).log, ds[q])
    requires var r := Carry(ds, n'.queue, given);
             |r| == |n'.queue| + 1 && |r[j]| == |StoreAt(n', j).log|
    ensures var r := Carry(ds, n'.queue, given);
            Agree(first, StoreAt(n', j).log, r[j], StoreAt(n', k).log, r[k])
    decreases k
  {
    hide GivenOk, NewTo, Put, StoreAt;
    CarryIs(ds, n'.queue, given);
    var r := Carry(ds, n'.queue, given);
    if k >= |ds| && j < k {
      CarriedAgree(cfg, h, first, id, n', ds, given, j, k - 1);
      StoreAtNext(n', k - 1);
      PutAgrees(first, StoreAt(n', j).log, r[j], StoreAt(n', k - 1), r[k - 1], n'.queue[k - 1], given);
    }
  }

  lemma CarriedStores(cfg: Config, h: History, first: Payloads, id: NodeId, n: Node, n': Node,
                      ds: seq<Data>, given: Data)
    requires n.queue <= n'.queue && n'.disk == n.disk
    requires StoresData(cfg, h, first, id, n, ds) && Shape(n', Carry(ds, n'.queue, given))
    requires WritesOk(cfg, h, first, id, n', |n.queue|, given)
    ensures StoresData(cfg, h, first, id, n', Carry(ds, n'.queue, given))
  {
    hide StoreData, Agree, WritesOk, StoreAt;
    var r := Carry(ds, n'.queue, given);
    forall j | 0 <= j < |ds|
      ensures StoreAt(n', j) == StoreAt(n, j)
    {
      StoreAtPrefix(n, n', j);
    }
    forall k | 0 <= k < |r|
      ensures StoreData(cfg, h, first, id, StoreAt(n', k).log, r[k])
    {
      CarriedData(cfg, h, first, id, n', ds, given, k);
    }
    forall j, k | 0 <= j <= k < |r|
      ensures Agree(first, StoreAt(n', j).log, r[j], StoreAt(n', k).log, r[k])
    {
      CarriedAgree(cfg, h, first, id, n', ds, given, j, k);
    }
  }

  // ---- entries copied from a request ----

  lemma CopiedWrites(cfg: Config, h: History, first: Payloads, id: NodeId, n: Node, n': Node, m: Msg, given: Data)
    requires Pushed(cfg, h, id, n, n', Copied(m)) && RequestOk(first, m, given)
    ensures WritesOk(cfg, h, first, id, n', |n.queue|, given)
  {
    forall q | |n.queue| <= q < |n'.queue| && n'.queue[q].AppendEntries?
      ensures GivenOk(cfg, h, first, id, StoreAt(n', q), n'.queue[q].entries, given)
      ensures forall j :: 0 <= j <= q ==> NewTo(first, StoreAt(n', j).log, StoreAt(n', q), n'.queue[q].entries)
    {
      assert Kind(cfg, h, id, StoreAt(n', q), n'.queue[q], Copied(m));
      CopiedGiven(cfg, h, first, id, StoreAt(n', q), n'.queue[q].entries, m, given);
      forall j | 0 <= j <= q
        ensures NewTo(first, StoreAt(n', j).log, StoreAt(n', q), n'.queue[q].entries)
      {
        CopiedNew(cfg, first, id, StoreAt(n', j).log, StoreAt(n', q), n'.queue[q].entries, m, given);
      }
    }
  }

  lemma CopiedGiven(cfg: Config, h: History, first: Payloads, id: NodeId, st: Store, es: Log, m: Msg, given: Data)
    requires Appends(cfg, id, st, es, Copied(m)) && RequestOk(first, m, given)
    ensures GivenOk(cfg, h, first, id, st, es, given)
  {
    forall j | 0 <= j < |es|
      ensures EntryOk(cfg, h, first, id, es[j], |st.log| + j, Tail(given, |es|)[j])
    {
      var i := |m.entries| - |es| + j;
      assert es[j] == m.entries[i] && Tail(given, |es|)[j] == given[i] && |st.log| + j == NextIndex(m.prev) + i;
    }
  }

  lemma CopiedNew(cfg: Config, first: Payloads, id: NodeId, log0: Log, st: Store, es: Log, m: Msg, given: Data)
    requires Appends(cfg, id, st, es, Copied(m)) && RequestOk(first, m, given)
    ensures NewTo(first, log0, st, es)
  {
    forall j | 0 <= j < |es|
      ensures LogId(es[j], |st.log| + j) in first
    {
      var i := |m.entries| - |es| + j;
      assert es[j] == m.entries[i] && |st.log| + j == NextIndex(m.prev) + i;
    }
  }

  // ---- entries of the leader itself ----

  /** Node `n`, about to write `given` as the leader under the vote of `n'`, finds in use no id after its log, but
      perhaps that of its first entry, which is blank. */
  ghost predicate Room(cfg: Config, h: History, first: Payloads, id: NodeId, n: Node, n': Node, given: Data) {
    var v := VoteTerm(cfg.mode, n'.vote);
    n'.vote.committed && n'.vote.leader.node == Some(id) && n.vote.leader == n'.vote.leader
    && v in h.bases && |h.bases[v]| <= |n.log|
    && (forall x :: x in first && x.leader == v && |n.log| <= x.index ==>
          x.index == |h.bases[v]| && first[x].Blank? && given == [Blank])
    && (|h.bases[v]| < |n.log| || given == [Blank])
  }

  lemma OwnGiven(cfg: Config, h: History, first: Payloads, id: NodeId, n: Node, n': Node, st: Store, es: Log,
                 given: Data)
    requires Room(cfg, h, first, id, n, n', given) && Appends(cfg, id, st, es, Own(|given|))
    requires st.vote == n'.vote && |n.log| <= |st.log| && n'.vote.leader in h.leaders
    ensures GivenOk(cfg, h, first, id, st, es, given)
  {
    forall j | 0 <= j < |es|
      ensures EntryOk(cfg, h, first, id, es[j], |st.log| + j, Tail(given, |es|)[j])
    {
      assert Tail(given, |es|)[j] == given[j];
      assert Owns(cfg, h, id, VoteTerm(cfg.mode, st.vote));
    }
  }

  lemma OwnWrites(cfg: Config, s: Cluster, first: Payloads, id: NodeId, n: Node, given: Data)
    requires Inv(cfg, s) && Ordered(cfg, s) && id in s.nodes && Mem(n) == Replay(n.disk, n.queue)
    requires Pushed(cfg, s.h, id, n, s.nodes[id], Own(|given|)) && Room(cfg, s.h, first, id, n, s.nodes[id], given)
    ensures WritesOk(cfg, s.h, first, id, s.nodes[id], |n.queue|, given)
  {
    hide HistoryOk, CoreOk, RolesOk, QueueOk, RoleOk, GivenOk, Room, Orderly;
    var n' := s.nodes[id];
    RoomLeads(cfg, s.h, first, id, n, n', given);
    LeaderOwns(cfg, s, id);
    forall q | |n.queue| <= q < |n'.queue| && n'.queue[q].AppendEntries?
      ensures GivenOk(cfg, s.h, first, id, StoreAt(n', q), n'.queue[q].entries, given)
      ensures forall j :: 0 <= j <= q ==> NewTo(first, StoreAt(n', j).log, StoreAt(n', q), n'.queue[q].entries)
    {
      assert Kind(cfg, s.h, id, StoreAt(n', q), n'.queue[q], Own(|given|));
      LeaderStores(cfg, s, id, q, |n'.queue|);
      LeaderStores(cfg, s, id, |n.queue|, q);
      StoreAtPrefix(n, n', |n.queue|);
      StoreAtEnd(n);
      StoreAtEnd(n');
      OwnGiven(cfg, s.h, first, id, n, n', StoreAt(n', q), n'.queue[q].entries, given);
      forall j | 0 <= j <= q
        ensures NewTo(first, StoreAt(n', j).log, StoreAt(n', q), n'.queue[q].entries)
      {
        LeaderStores(cfg, s, id, j, q);
      }
    }
  }

  lemma RoomLeads(cfg: Config, h: History, first: Payloads, id: NodeId, n: Node, n': Node, given: Data)
    requires Room(cfg, h, first, id, n, n', given)
    ensures n'.vote.committed && n'.vote.leader.node == Some(id)
  {
  }

  /** The storage of a leader, along its queue. */
  lemma LeaderStores(cfg: Config, s: Cluster, id: NodeId, j: nat, k: nat)
    requires Inv(cfg, s) && Ordered(cfg, s) && id in s.nodes && j <= k <= |s.nodes[id].queue|
    requires s.nodes[id].vote.committed && s.nodes[id].vote.leader.node == Some(id)
    ensures StoreAt(s.nodes[id], k).vote.leader == s.nodes[id].vote.leader
    ensures StoreAt(s.nodes[id], j).log <= StoreAt(s.nodes[id], k).log
    ensures |StoreAt(s.nodes[id], k).log| <= |s.nodes[id].log|
  {
    hide HistoryOk, CoreOk, RolesOk, QueueOk, RoleOk, Owns;
    var n := s.nodes[id];
    assert NodeOk(cfg, s.h, id, n);
    LeaderOwns(cfg, s, id);
    CoreMem(cfg, s.h, id, n);
    StoreAtEnd(n);
    LeaderStoresGrow(cfg, s.h, id, n, k, |n.queue|);
    LeaderStoresGrow(cfg, s.h, id, n, j, k);
  }

  // ---- a step that handles something ----

  lemma StoresGrow(cfg: Config, h: History, h': History, first: Payloads, id: NodeId, n: Node, ds: seq<Data>)
    requires Extends(h, h') && StoresData(cfg, h, first, id, n, ds)
    ensures StoresData(cfg, h', first, id, n, ds)
  {
    StoresSelf(cfg, h, h', first, first, id, n, ds, 0);
  }

  lemma CrashedData(cfg: Config, h: History, first: Payloads, id: NodeId, n: Node, ds: seq<Data>, keep: bool)
    requires StoresData(cfg, h, first, id, n, ds)
    ensures StoresData(cfg, h, first, id, Crashed(n, keep), [ds[0]])
  {
    hide StoreData, Agree;
    CrashedShape(n, ds, keep);
    var n' := Crashed(n, keep);
    assert StoreAt(n, 0) == n.disk && StoreAt(n', 0) == n'.disk;
    assert Agree(first, StoreAt(n, 0).log, ds[0], StoreAt(n, 0).log, ds[0]);
  }

  lemma BeforeData(cfg: Config, f: Full, h': History, step: Step)
    requires DataInv(cfg, f) && step.id in f.s.nodes && Extends(f.s.h, h')
    ensures StoresData(cfg, h', f.first, step.id, Handler(f.s, step), DataBefore(f, step))
  {
    hide StoresData, Inv, Ordered, AllSent, Shape, Extends;
    var id, n, ds := step.id, f.s.nodes[step.id], f.data[step.id];
    StoresGrow(cfg, f.s.h, h', f.first, id, n, ds);
    if step.CrashStep? {
      CrashedData(cfg, h', f.first, id, n, ds, step.keepCommitted);
    }
  }

  lemma WriteRoom(cfg: Config, f: Full, a: Act)
    requires DataInv(cfg, f) && Can(cfg, f, a) && a.step.WriteStep?
    ensures Room(cfg, f.s.h, f.first, a.step.id, f.s.nodes[a.step.id], Stepped(cfg, f.s, a.step), a.given)
  {
    hide HistoryOk, CoreOk, CandidateOk, AcceptedOk, QueueOk, Shape, AllSent, HistoryData, StoresData, LeaderAppend;
    var id := a.step.id;
    var n := f.s.nodes[id];
    assert NodeOk(cfg, f.s.h, id, n);
    assert RoleOk(cfg, f.s.h, id, n);
    assert NodeData(cfg, f.s.h, f.first, id, n, f.data[id]);
    VoteOrderIsPartialOrder(cfg.mode, n.vote, Vote(n.leader.value.leader, true), n.vote);
    WriteKeepsVote(cfg, id, n, n.leader.value, a.step.count);
  }

  lemma WinRoom(cfg: Config, f: Full, a: Act)
    requires DataInv(cfg, f) && Can(cfg, f, a) && Wins(cfg, f.s, a.step)
    ensures Room(cfg, Next(cfg, f.s, a.step).h, f.first, a.step.id, f.s.nodes[a.step.id], Stepped(cfg, f.s, a.step),
                 a.given)
  {
    hide Inv, Ordered, Shaped, AllSent, SentOk, AcksOk, NodeData, WinsElection, Next, Stepped;
    WinnerIsNew(cfg, f.s, a.step);
  }

  lemma CrashRoom(cfg: Config, f: Full, a: Act)
    requires DataInv(cfg, f) && Can(cfg, f, a) && Safe(cfg, f, a) && a.step.CrashStep?
    requires f.s.nodes[a.step.id].disk.vote.committed && f.s.nodes[a.step.id].disk.vote.leader.node == Some(a.step.id)
    ensures Room(cfg, f.s.h, f.first, a.step.id, Handler(f.s, a.step), Stepped(cfg, f.s, a.step), a.given)
  {
    hide CoreOk, RolesOk, Ordered, Shaped, AllSent, SentOk, AcksOk, NodeData, LeaderAppend, LastRun, BasesOk;
    hide MsgOk, AskedOk;
    var id := a.step.id;
    var n, n0 := f.s.nodes[id], Handler(f.s, a.step);
    assert NodeOk(cfg, f.s.h, id, n);
    CrashedOk(cfg, f.s.h, id, n, a.step.keepCommitted);
    CrashedHolds(cfg, f.s.h, id, n0);
    DiskLeader(cfg, f.s, id);
    RestartVote(cfg, id, n, a.step.keepCommitted);
    assert EstablishedOk(cfg, f.s.h, n.disk.vote.leader);
    var v := VoteTerm(cfg.mode, n.disk.vote);
    forall x | x in f.first && x.leader == v && |n0.log| <= x.index
      ensures x.index == |f.s.h.bases[v]| && f.first[x].Blank?
    {
      assert !IsLater(cfg, f.s.h, n.disk.vote, x);
    }
  }

  lemma RestartVote(cfg: Config, id: NodeId, n: Node, keep: bool)
    ensures Restart(cfg, id, n, keep).vote == n.disk.vote
  {
  }

  lemma DiskLeader(cfg: Config, s: Cluster, id: NodeId)
    requires Inv(cfg, s) && id in s.nodes && s.nodes[id].disk.vote.committed
    ensures s.nodes[id].disk.vote.leader in s.h.leaders
  {
    hide HistoryOk, GrantsOk, PromisesOk, VotesRise, StoresOk, RolesOk;
    assert NodeOk(cfg, s.h, id, s.nodes[id]);
  }

  lemma NothingWrites(cfg: Config, h: History, first: Payloads, id: NodeId, n: Node, n': Node, given: Data)
    requires Pushed(cfg, h, id, n, n', Nothing)
    ensures WritesOk(cfg, h, first, id, n', |n.queue|, given)
  {
    assert forall q :: |n.queue| <= q < |n'.queue| ==> Kind(cfg, h, id, StoreAt(n', q), n'.queue[q], Nothing);
  }

  /** The leader after it wrote: the ids after its log are free again. */
  lemma RoomFree(cfg: Config, s: Cluster, first: Payloads, id: NodeId, n: Node, given: Data)
    requires Inv(cfg, s) && Ordered(cfg, s) && id in s.nodes && Room(cfg, s.h, first, id, n, s.nodes[id], given)
    requires n.queue <= s.nodes[id].queue && n.disk == s.nodes[id].disk && Mem(n) == Replay(n.disk, n.queue)
    ensures NextAreFree(cfg, first, id, s.nodes[id])
  {
    hide Inv, QueueOk;
    StoreAtPrefix(n, s.nodes[id], |n.queue|);
    StoreAtEnd(n);
    LeaderStores(cfg, s, id, |n.queue|, |n.queue|);
    assert RoleOk(cfg, s.h, id, s.nodes[id]);
  }

  lemma StaysFree(cfg: Config, s: Cluster, first: Payloads, id: NodeId, n: Node)
    requires Inv(cfg, s) && Ordered(cfg, s) && id in s.nodes && NextAreFree(cfg, first, id, n)
    requires n.queue <= s.nodes[id].queue && n.disk == s.nodes[id].disk && Mem(n) == Replay(n.disk, n.queue)
    requires var v := s.nodes[id].vote; v.committed && v.leader.node == Some(id) ==> v == n.vote
    ensures NextAreFree(cfg, first, id, s.nodes[id])
  {
    hide Inv, Ordered;
    if s.nodes[id].vote.committed && s.nodes[id].vote.leader.node == Some(id) {
      StoreAtPrefix(n, s.nodes[id], |n.queue|);
      StoreAtEnd(n);
      LeaderStores(cfg, s, id, |n.queue|, |n.queue|);
    }
  }

  /** What the handler writes, and the ids it leaves free. */
  ghost predicate HandledWell(cfg: Config, f: Full, a: Act)
    requires Can(cfg, f, a)
  {
    var h', n' := Next(cfg, f.s, a.step).h, Stepped(cfg, f.s, a.step);
    WritesOk(cfg, h', f.first, a.step.id, n', |Handler(f.s, a.step).queue|, a.given)
    && NextAreFree(cfg, f.first, a.step.id, n')
  }

  lemma HandlerMem(cfg: Config, f: Full, step: Step)
    requires Inv(cfg, f.s) && step.id in f.s.nodes
    ensures var n := Handler(f.s, step); Mem(n) == Replay(n.disk, n.queue)
  {
    hide HistoryOk, RolesOk, CoreOk;
    assert NodeOk(cfg, f.s.h, step.id, f.s.nodes[step.id]);
    CoreMem(cfg, f.s.h, step.id, f.s.nodes[step.id]);
  }

  lemma OwnHandled(cfg: Config, f: Full, a: Act)
    requires DataInv(cfg, f) && Can(cfg, f, a) && Inv(cfg, Next(cfg, f.s, a.step))
    requires Ordered(cfg, Next(cfg, f.s, a.step))
    requires Room(cfg, Next(cfg, f.s, a.step).h, f.first, a.step.id, Handler(f.s, a.step), Stepped(cfg, f.s, a.step),
                  a.given)
    requires Pushed(cfg, Next(cfg, f.s, a.step).h, a.step.id, Handler(f.s, a.step), Stepped(cfg, f.s, a.step),
                    Own(|a.given|))
    ensures HandledWell(cfg, f, a)
  {
    hide Inv, Ordered, Shaped, AllSent, HistoryData, NodeData, Room, WritesOk, NextAreFree, Next, Kind;
    var s' := Next(cfg, f.s, a.step);
    OthersStay(cfg, f.s, a.step);
    HandlerMem(cfg, f, a.step);
    OwnWrites(cfg, s', f.first, a.step.id, Handler(f.s, a.step), a.given);
    RoomFree(cfg, s', f.first, a.step.id, Handler(f.s, a.step), a.given);
  }

  lemma OtherHandled(cfg: Config, f: Full, a: Act)
    requires DataInv(cfg, f) && Can(cfg, f, a) && Inv(cfg, Next(cfg, f.s, a.step))
    requires Ordered(cfg, Next(cfg, f.s, a.step))
    requires Handles(a.step) && !a.step.CrashStep? && !a.step.WriteStep? && !Wins(cfg, f.s, a.step)
    requires Pushed(cfg, Next(cfg, f.s, a.step).h, a.step.id, Handler(f.s, a.step), Stepped(cfg, f.s, a.step),
                    SourceOf(cfg, f.s, a.step))
    ensures HandledWell(cfg, f, a)
  {
    hide Inv, Shape, AllSent, FirstOk, AcksOk, WritesOk, NextAreFree, Next, Kind, StoresData, QueueOk, Wins, RequestOk;
    var s', id, n := Next(cfg, f.s, a.step), a.step.id, f.s.nodes[a.step.id];
    assert RoleOk(cfg, f.s.h, id, n);
    assert NodeData(cfg, f.s.h, f.first, id, n, f.data[id]);
    OthersStay(cfg, f.s, a.step);
    HandlerMem(cfg, f, a.step);
    LeaderVoteStays(cfg, f.s, a.step);
    StaysFree(cfg, s', f.first, id, n);
    if a.step.AppendReqStep? {
      assert RequestOk(f.first, (a.step.msg, a.given).0, (a.step.msg, a.given).1);
      CopiedWrites(cfg, s'.h, f.first, id, n, Stepped(cfg, f.s, a.step), a.step.msg, a.given);
    } else {
      NothingWrites(cfg, s'.h, f.first, id, n, Stepped(cfg, f.s, a.step), a.given);
    }
  }

  lemma CrashHandled(cfg: Config, f: Full, a: Act)
    requires DataInv(cfg, f) && Can(cfg, f, a) && Inv(cfg, Next(cfg, f.s, a.step))
    requires Ordered(cfg, Next(cfg, f.s, a.step))
    requires Safe(cfg, f, a) && a.step.CrashStep?
    requires Pushed(cfg, Next(cfg, f.s, a.step).h, a.step.id, Handler(f.s, a.step), Stepped(cfg, f.s, a.step), Own(1))
    ensures HandledWell(cfg, f, a)
  {
    hide Inv, Ordered, Shaped, AllSent, HistoryData, NodeData, Kind, BecomeLeader, Covered, EntryOk;
    var n := f.s.nodes[a.step.id];
    if n.disk.vote.committed && n.disk.vote.leader.node == Some(a.step.id) {
      CrashRoom(cfg, f, a);
      OwnHandled(cfg, f, a);
    }
  }

  lemma Handled(cfg: Config, f: Full, a: Act)
    requires DataInv(cfg, f) && Can(cfg, f, a) && Safe(cfg, f, a) && Handles(a.step)
    requires Inv(cfg, Next(cfg, f.s, a.step)) && Ordered(cfg, Next(cfg, f.s, a.step))
    ensures HandledWell(cfg, f, a)
  {
    hide Inv, QueueOk, Started, Shaped, AllSent, HistoryData, NodeData, Next, Pushed, HandledWell, Safe, Room, Wins;
    assert RoleOk(cfg, f.s.h, a.step.id, f.s.nodes[a.step.id]);
    StepPushes(cfg, f.s, a.step);
    if a.step.CrashStep? {
      CrashHandled(cfg, f, a);
    } else if a.step.WriteStep? {
      WriteRoom(cfg, f, a);
      assert Next(cfg, f.s, a.step).h == f.s.h by { WriteSaysNothing(cfg, f.s, a.step); }
      OwnHandled(cfg, f, a);
    } else if Wins(cfg, f.s, a.step) {
      WinRoom(cfg, f, a);
      assert SourceOf(cfg, f.s, a.step) == Own(1) by { WinnerSource(cfg, f.s, a.step); }
      OwnHandled(cfg, f, a);
    } else {
      OtherHandled(cfg, f, a);
    }
  }

  lemma WriteSaysNothing(cfg: Config, s: Cluster, step: Step)
    requires Enabled(cfg, s, step) && step.WriteStep?
    ensures Next(cfg, s, step).h == s.h
  {
  }

  lemma WinnerSource(cfg: Config, s: Cluster, step: Step)
    requires Enabled(cfg, s, step) && Wins(cfg, s, step)
    ensures SourceOf(cfg, s, step) == Own(1)
  {
  }

  lemma HandledData(cfg: Config, f: Full, a: Act)
    requires DataInv(cfg, f) && Can(cfg, f, a) && Safe(cfg, f, a) && Handles(a.step)
    requires Inv(cfg, Next(cfg, f.s, a.step)) && Ordered(cfg, Next(cfg, f.s, a.step))
    ensures NodeData(cfg, Next(cfg, f.s, a.step).h, f.first, a.step.id, Stepped(cfg, f.s, a.step), DataOf(cfg, f, a))
  {
    hide Inv, QueueOk, Started, AllSent, HistoryData, NodeData, Next, Safe, Shape, Kind, StoresData, WritesOk;
    hide NextAreFree, Carry, DataBefore, Stepped, DataOf;
    var n, n', h' := Handler(f.s, a.step), Stepped(cfg, f.s, a.step), Next(cfg, f.s, a.step).h;
    NextExtends(cfg, f.s, a.step);
    BeforeData(cfg, f, h', a.step);
    Handled(cfg, f, a);
    HandledShape(cfg, f, a);
    assert RoleOk(cfg, f.s.h, a.step.id, f.s.nodes[a.step.id]);
    StepPushes(cfg, f.s, a.step);
    CarriedStores(cfg, h', f.first, a.step.id, n, n', DataBefore(f, a.step), a.given);
    assert NodeData(cfg, h', f.first, a.step.id, n', DataOf(cfg, f, a)) by {
      DataIs(cfg, h', f.first, a.step.id, n', DataOf(cfg, f, a));
    }
  }

  lemma DataIs(cfg: Config, h: History, first: Payloads, id: NodeId, n: Node, ds: seq<Data>)
    requires StoresData(cfg, h, first, id, n, ds) && NextAreFree(cfg, first, id, n)
    ensures NodeData(cfg, h, first, id, n, ds)
  {
  }

  // ---- running what is queued ----

  lemma RanData(cfg: Config, h: History, first: Payloads, id: NodeId, n: Node, ds: seq<Data>)
    requires StoresData(cfg, h, first, id, n, ds) && |n.queue| > 0 && Flushed(first, StoreAt(n, 1).log)
    ensures StoresData(cfg, h, first, id, Ran(n), ds[1..])
  {
    hide StoreData, Agree, Flushed, Shape, StoreAt;
    ShapeSize(n, ds);
    var n', ds' := Ran(n), ds[1..];
    RanShape(n, ds);
    ShapeSize(n', ds');
    StoreAtOne(n);
    assert n'.disk == Run(n.disk, n.queue[0]);
    forall k | 0 <= k < |ds'|
      ensures StoreData(cfg, h, first, id, StoreAt(n', k).log, ds'[k])
    {
      StoreAtRan(n, k);
      assert ds'[k] == ds[k + 1];
    }
    forall j, k | 0 <= j <= k < |ds'|
      ensures Agree(first, StoreAt(n', j).log, ds'[j], StoreAt(n', k).log, ds'[k])
    {
      StoreAtRan(n, j);
      StoreAtRan(n, k);
      assert ds'[j] == ds[j + 1] && ds'[k] == ds[k + 1];
    }
  }

  lemma ShapeSize(n: Node, ds: seq<Data>)
    requires Shape(n, ds)
    ensures |ds| == |n.queue| + 1
  {
  }

  lemma RefusedData(cfg: Config, h: History, first: Payloads, id: NodeId, n: Node, ds: seq<Data>, pos: nat)
    requires StoresData(cfg, h, first, id, n, ds) && MayRefuse(n, pos)
    ensures StoresData(cfg, h, first, id, Without(n, pos), ds[..pos] + ds[pos + 1..])
  {
    hide StoreData, Agree, Flushed, Shape, StoreAt;
    ShapeSize(n, ds);
    var n', ds' := Without(n, pos), ds[..pos] + ds[pos + 1..];
    RefusedShape(n, ds, pos);
    forall k | 0 <= k < |ds'|
      ensures StoreData(cfg, h, first, id, StoreAt(n', k).log, ds'[k])
    {
      StoreAtWithout(n, pos, k);
      assert ds'[k] == ds[Moved(pos, k)];
    }
    forall j, k | 0 <= j <= k < |ds'|
      ensures Agree(first, StoreAt(n', j).log, ds'[j], StoreAt(n', k).log, ds'[k])
    {
      StoreAtWithout(n, pos, j);
      StoreAtWithout(n, pos, k);
      assert ds'[j] == ds[Moved(pos, j)] && ds'[k] == ds[Moved(pos, k)];
    }
  }

  // ---- publishing ----

  /** The storage whose payloads the step makes known: that after the flush, or that in memory. */
  function Shown(n: Node, step: Step): nat {
    if step.RunStep? then 1 else |n.queue|
  }

  lemma RunPublishes(cfg: Config, f: Full, a: Act)
    requires Can(cfg, f, a) && a.step.RunStep?
    ensures var n, ds := f.s.nodes[a.step.id], f.data[a.step.id];
            KnownFrom(f.first, FirstOf(cfg, f, a), StoreAt(n, 1).log, ds[1])
            && Flushed(FirstOf(cfg, f, a), StoreAt(n, 1).log)
  {
    var n, ds := f.s.nodes[a.step.id], f.data[a.step.id];
    assert Shape(n, ds);
    StoreAtOne(n);
    PublishIs(f.first, Run(n.disk, n.queue[0]).log, ds[1], 0, |ds[1]|);
  }

  lemma ReplicatePublishes(cfg: Config, f: Full, a: Act)
    requires Can(cfg, f, a) && a.step.ReplicateStep?
    ensures var n, ds := f.s.nodes[a.step.id], f.data[a.step.id];
            KnownFrom(f.first, FirstOf(cfg, f, a), n.log, ds[|n.queue|])
            && forall i :: a.step.start <= i < a.step.start + a.step.count ==> LogId(n.log[i], i) in FirstOf(cfg, f, a)
  {
    var n, ds := f.s.nodes[a.step.id], f.data[a.step.id];
    assert Shape(n, ds);
    PublishIs(f.first, n.log, ds[|n.queue|], a.step.start, a.step.start + a.step.count);
  }

  lemma MemAtEnd(cfg: Config, s: Cluster, id: NodeId)
    requires Inv(cfg, s) && id in s.nodes
    ensures StoreAt(s.nodes[id], |s.nodes[id].queue|) == Mem(s.nodes[id])
  {
    hide HistoryOk, CoreOk, RolesOk;
    assert NodeOk(cfg, s.h, id, s.nodes[id]);
    CoreMem(cfg, s.h, id, s.nodes[id]);
    StoreAtEnd(s.nodes[id]);
  }

  lemma Publishes(cfg: Config, f: Full, a: Act)
    requires Inv(cfg, f.s) && Can(cfg, f, a) && (a.step.RunStep? || a.step.ReplicateStep?)
    ensures var n, ds := f.s.nodes[a.step.id], f.data[a.step.id];
            var p := Shown(n, a.step);
            p < |ds| && KnownFrom(f.first, FirstOf(cfg, f, a), StoreAt(n, p).log, ds[p])
  {
    hide Inv, KnownFrom, FirstOf, Flushed;
    ShapeSize(f.s.nodes[a.step.id], f.data[a.step.id]);
    if a.step.RunStep? {
      RunPublishes(cfg, f, a);
    } else {
      MemAtEnd(cfg, f.s, a.step.id);
      ReplicatePublishes(cfg, f, a);
    }
  }

  /** The node that publishes, before anything else changes. */
  lemma PublishedSelf(cfg: Config, f: Full, a: Act, h': History)
    requires DataInv(cfg, f) && Can(cfg, f, a) && (a.step.RunStep? || a.step.ReplicateStep?) && Extends(f.s.h, h')
    ensures var first' := FirstOf(cfg, f, a);
            NodeData(cfg, h', first', a.step.id, f.s.nodes[a.step.id], f.data[a.step.id])
            && KnownOf(cfg, h', f.first, first', a.step.id) && FirstOk(cfg, h', first') && SentOk(first', f.sent)
  {
    hide Inv, Ordered, AllSent, AcksOk, Extends, KnownFrom, Flushed, NextAreFree, StoreData, Agree, Shape;
    hide FirstOf, KnownOf, FirstOk, SentOk;
    var id, n, ds, first' := a.step.id, f.s.nodes[a.step.id], f.data[a.step.id], FirstOf(cfg, f, a);
    var p := Shown(n, a.step);
    Publishes(cfg, f, a);
    ShapeSize(n, ds);
    assert NodeData(cfg, f.s.h, f.first, id, n, ds);
    StoresSelf(cfg, f.s.h, h', f.first, first', id, n, ds, p);
    FreeSelf(cfg, f.s, f.first, first', id, p, ds[p]);
    StoreLogOk(cfg, f.s, id, p);
    FirstGrows(cfg, f.s.h, h', f.first, first', id, StoreAt(n, p).log, ds[p]);
    KnownOwned(cfg, f.s.h, f.first, first', id, StoreAt(n, p).log, ds[p]);
    KnownOfGrows(cfg, f.s.h, h', f.first, first', id);
    SentKnows(f.first, first', f.sent);
  }

  lemma KnownOfGrows(cfg: Config, h: History, h': History, first: Payloads, first': Payloads, id: NodeId)
    requires KnownOf(cfg, h, first, first', id) && Extends(h, h')
    ensures KnownOf(cfg, h', first, first', id) && Knows(first, first')
  {
    hide Owns;
    forall x | x in first' && x !in first
      ensures Owns(cfg, h', id, x.leader)
    {
      OwnsGrows(cfg, h, h', id, x.leader);
    }
  }

  lemma StoreLogOk(cfg: Config, s: Cluster, id: NodeId, k: nat)
    requires Inv(cfg, s) && id in s.nodes && k <= |s.nodes[id].queue|
    ensures LogOk(s.h.bases, StoreAt(s.nodes[id], k).log)
  {
    hide HistoryOk, GrantsOk, PromisesOk, VotesRise, SendsOk, RolesOk, LogOk, CommitOk, OwnOk;
    assert NodeOk(cfg, s.h, id, s.nodes[id]);
    assert StoreOk(cfg, s.h, id, StoreAt(s.nodes[id], k));
  }

  lemma RunData(cfg: Config, f: Full, a: Act)
    requires DataInv(cfg, f) && Can(cfg, f, a) && a.step.RunStep?
    ensures var f', id := Then(cfg, f, a), a.step.id;
            NodeData(cfg, f'.s.h, f'.first, id, Stepped(cfg, f.s, a.step), DataOf(cfg, f, a))
            && KnownOf(cfg, f'.s.h, f.first, f'.first, id) && FirstOk(cfg, f'.s.h, f'.first)
            && SentOk(f'.first, f'.sent)
  {
    hide DataInv, Shape, KnownFrom, Flushed, StoreData, Agree, FirstOf, KnownOf, FirstOk, SentOk, Extends, StoreAt;
    var id, n, ds := a.step.id, f.s.nodes[a.step.id], f.data[a.step.id];
    var h', first' := Next(cfg, f.s, a.step).h, FirstOf(cfg, f, a);
    InvOfData(cfg, f);
    NextExtends(cfg, f.s, a.step);
    PublishedSelf(cfg, f, a, h');
    RunPublishes(cfg, f, a);
    RunNext(cfg, f.s, id);
    RanData(cfg, h', first', id, n, ds);
  }

  lemma InvOfData(cfg: Config, f: Full)
    requires DataInv(cfg, f)
    ensures Inv(cfg, f.s) && Ordered(cfg, f.s)
  {
  }

  lemma ReplicateData(cfg: Config, f: Full, a: Act)
    requires DataInv(cfg, f) && Can(cfg, f, a) && a.step.ReplicateStep?
    ensures var f', id := Then(cfg, f, a), a.step.id;
            NodeData(cfg, f'.s.h, f'.first, id, Stepped(cfg, f.s, a.step), DataOf(cfg, f, a))
            && KnownOf(cfg, f'.s.h, f.first, f'.first, id) && FirstOk(cfg, f'.s.h, f'.first)
            && SentOk(f'.first, f'.sent)
  {
    hide DataInv, KnownFrom, StoreData, Agree, KnownOf, FirstOk, Extends, FirstOf, NextAreFree, RequestOk;
    hide Inv, Ordered, StoreAt, Shape;
    var id, n, ds := a.step.id, f.s.nodes[a.step.id], f.data[a.step.id];
    var h', first' := Next(cfg, f.s, a.step).h, FirstOf(cfg, f, a);
    InvOfData(cfg, f);
    NextExtends(cfg, f.s, a.step);
    PublishedSelf(cfg, f, a, h');
    ShapeSize(n, ds);
    MemAtEnd(cfg, f.s, id);
    ReplicatePublishes(cfg, f, a);
    assert StoreData(cfg, h', first', id, StoreAt(n, |n.queue|).log, ds[|n.queue|]);
    SliceIs(cfg, h', first', id, n, ds[|n.queue|], a.step.start, a.step.count);
  }

  lemma SliceIs(cfg: Config, h: History, first: Payloads, id: NodeId, n: Node, d: Data, start: nat, count: nat)
    requires n.leader.Some? && start + count <= |n.log| && StoreData(cfg, h, first, id, n.log, d)
    requires forall i :: start <= i < start + count ==> LogId(n.log[i], i) in first
    ensures RequestOk(first, ReplicateMsg(n, start, count), d[start..start + count])
  {
    var m, given := ReplicateMsg(n, start, count), d[start..start + count];
    forall j | 0 <= j < |given|
      ensures LogId(m.entries[j], NextIndex(m.prev) + j) in first
              && first[LogId(m.entries[j], NextIndex(m.prev) + j)] == given[j]
    {
      assert EntryOk(cfg, h, first, id, n.log[start + j], start + j, d[start + j]);
    }
  }

  lemma RefuseData(cfg: Config, f: Full, a: Act)
    requires DataInv(cfg, f) && Can(cfg, f, a) && a.step.RefuseStep?
    ensures NodeData(cfg, Then(cfg, f, a).s.h, f.first, a.step.id, Stepped(cfg, f.s, a.step), DataOf(cfg, f, a))
  {
    hide Inv, Ordered, AllSent, HistoryData, StoresData, Shape;
    var id, n, ds := a.step.id, f.s.nodes[a.step.id], f.data[a.step.id];
    assert NodeData(cfg, f.s.h, f.first, id, n, ds);
    ShapeSize(n, ds);
    RefusedData(cfg, f.s.h, f.first, id, n, ds, a.step.pos);
    StoresGrow(cfg, f.s.h, Then(cfg, f, a).s.h, f.first, id, Without(n, a.step.pos),
               ds[..a.step.pos] + ds[a.step.pos + 1..]);
  }

  // ---- every step ----

  lemma FirstStays(cfg: Config, h: History, h': History, first: Payloads)
    requires FirstOk(cfg, h, first) && Extends(h, h')
    ensures FirstOk(cfg, h', first)
  {
  }

  /** The node that takes the step, and what is known after it. */
  lemma SelfNext(cfg: Config, f: Full, a: Act)
    requires DataInv(cfg, f) && Can(cfg, f, a) && Safe(cfg, f, a)
    requires Inv(cfg, Next(cfg, f.s, a.step)) && Ordered(cfg, Next(cfg, f.s, a.step))
    ensures var f', id := Then(cfg, f, a), a.step.id;
            NodeData(cfg, f'.s.h, f'.first, id, Stepped(cfg, f.s, a.step), DataOf(cfg, f, a))
            && KnownOf(cfg, f'.s.h, f.first, f'.first, id) && FirstOk(cfg, f'.s.h, f'.first)
            && SentOk(f'.first, f'.sent)
  {
    hide DataInv, Inv, Ordered, Shaped, AllSent, Next, NodeData, Safe, Owns, FirstOk, SentOk, AcksOk, DataOf;
    hide Stepped, Covered;
    InvOfData(cfg, f);
    NextExtends(cfg, f.s, a.step);
    HistoryOfData(cfg, f);
    match a.step {
      case RunStep(_) => RunData(cfg, f, a);
      case ReplicateStep(_, _, _) => ReplicateData(cfg, f, a);
      case RefuseStep(_, _) =>
        RefuseData(cfg, f, a);
        FirstStays(cfg, f.s.h, Then(cfg, f, a).s.h, f.first);
      case _ =>
        HandledData(cfg, f, a);
        FirstStays(cfg, f.s.h, Then(cfg, f, a).s.h, f.first);
    }
  }

  lemma HistoryOfData(cfg: Config, f: Full)
    requires DataInv(cfg, f)
    ensures FirstOk(cfg, f.s.h, f.first) && SentOk(f.first, f.sent) && AcksOk(cfg, f.s.h, f.first)
  {
  }

  // ---- acknowledgements ----

  lemma NewAck(cfg: Config, s: Cluster, step: Step, m: Msg, y: NodeId, l: LeaderId)
    requires Inv(cfg, s) && Enabled(cfg, s, step) && m in Next(cfg, s, step).h.msgs - s.h.msgs && IsAck(m, y, l)
    ensures step.RunStep? && s.nodes[step.id].queue[0] == Send(m) && y == step.id
  {
    hide Elect, HandleVoteReq, HandleVoteResp, HandleAppendReq, LeaderAppend, Restart, LeaderCommit;
    hide UpdateVote, WinsElection;
    hide CoreOk, RolesOk, HistoryOk;
    if step.RunStep? {
      AckNames(cfg, s, step.id);
    }
  }

  lemma AckFlushed(cfg: Config, f: Full, id: NodeId, l: LeaderId, j: nat)
    requires DataInv(cfg, f) && id in f.s.nodes && |f.s.nodes[id].queue| > 0 && f.s.nodes[id].queue[0].Send?
    requires IsAck(f.s.nodes[id].queue[0].msg, id, l) && j <= f.s.nodes[id].queue[0].msg.res.last.value.index
    ensures LogId(At(f.s.h.bases, ToCommitted(cfg.mode, l), j), j) in f.first
  {
    hide Inv, RoleOk, Shape, AllSent, HistoryData, StoreData, Agree, NextAreFree;
    var n := f.s.nodes[id];
    assert QueueOk(cfg, f.s.h, id, n);
    assert StoreAt(n, 0) == n.disk;
    assert Orderly(cfg, f.s.h, id, StoreAt(n, 0), n.queue[0]);
    assert NodeData(cfg, f.s.h, f.first, id, n, f.data[id]);
    assert LogId(n.disk.log[j], j) in f.first;
  }

  /** The leader that an acknowledgement names has its base. */
  lemma AckHasBase(cfg: Config, s: Cluster, m: Msg, y: NodeId, l: LeaderId)
    requires Inv(cfg, s) && IsAck(m, y, l) && (m in s.h.msgs || (y in s.nodes && Send(m) in s.nodes[y].queue))
    ensures ToCommitted(cfg.mode, l) in s.h.bases
  {
    hide GrantsOk, PromisesOk, StoresOk, VotesRise, TellsOk, RolesOk, BasesOk, AskedOk;
    if m in s.h.msgs {
      assert MsgOk(cfg, s.h, Sender(m), m);
    } else {
      assert NodeOk(cfg, s.h, y, s.nodes[y]);
      var q :| 0 <= q < |s.nodes[y].queue| && s.nodes[y].queue[q] == Send(m);
      assert MsgOk(cfg, s.h, y, s.nodes[y].queue[q].msg);
    }
    assert EstablishedOk(cfg, s.h, l);
  }

  lemma AcksNext(cfg: Config, f: Full, a: Act)
    requires DataInv(cfg, f) && Can(cfg, f, a) && Knows(f.first, FirstOf(cfg, f, a))
    ensures AcksOk(cfg, Next(cfg, f.s, a.step).h, FirstOf(cfg, f, a))
  {
    hide DataInv, Inv, Ordered, Shaped, Next, FirstOf, FirstOk, SentOk, Contains;
    var h, h', first' := f.s.h, Next(cfg, f.s, a.step).h, FirstOf(cfg, f, a);
    InvOfData(cfg, f);
    HistoryOfData(cfg, f);
    NextExtends(cfg, f.s, a.step);
    forall m, y, l, j | m in h'.msgs && IsAck(m, y, l) && 0 <= j <= m.res.last.value.index
      ensures LogId(At(h'.bases, ToCommitted(cfg.mode, l), j), j) in first'
    {
      if m !in h.msgs {
        NewAck(cfg, f.s, a.step, m, y, l);
        AckFlushed(cfg, f, y, l, j);
      }
      AckHasBase(cfg, f.s, m, y, l);
      assert At(h'.bases, ToCommitted(cfg.mode, l), j) == At(h.bases, ToCommitted(cfg.mode, l), j);
    }
  }

  /** Every safe step keeps the payloads as they should be. */
  lemma DataNext(cfg: Config, f: Full, a: Act)
    requires DataInv(cfg, f) && Can(cfg, f, a) && Safe(cfg, f, a)
    ensures DataInv(cfg, Then(cfg, f, a))
  {
    hide Sound, Inv, Ordered, Shaped, AllSent, Next, NodeData, Safe, Owns, FirstOk, SentOk, AcksOk, DataOf;
    hide SentOf, FirstOf, Extends;
    var f', id := Then(cfg, f, a), a.step.id;
    SoundNext(cfg, f, a);
    SoundIs(cfg, f');
    SoundIs(cfg, f);
    NextExtends(cfg, f.s, a.step);
    OthersStay(cfg, f.s, a.step);
    SelfNext(cfg, f, a);
    AcksNext(cfg, f, a);
    forall y | y in f'.s.nodes
      ensures NodeData(cfg, f'.s.h, f'.first, y, f'.s.nodes[y], f'.data[y])
    {
      if y != id {
        OthersData(cfg, f'.s, f.s.h, f.first, f'.first, id, y, f.data[y]);
      }
    }
  }

  lemma DataBegins(cfg: Config, f: Full, init: Payload)
    requires Begins(cfg, f, init)
    ensures DataInv(cfg, f)
  {
    hide Sound, HistoryData, NodeData, Begins, Inv;
    SoundBegins(cfg, f, init);
    SoundIs(cfg, f);
    HistoryBegins(cfg, f, init);
    forall id | id in f.s.nodes
      ensures NodeData(cfg, f.s.h, f.first, id, f.s.nodes[id], f.data[id])
    {
      NewNodeData(cfg, f, init, id);
    }
  }

  lemma HistoryBegins(cfg: Config, f: Full, init: Payload)
    requires Begins(cfg, f, init)
    ensures HistoryData(cfg, f.s.h, f)
  {
  }

  lemma NewNodeData(cfg: Config, f: Full, init: Payload, id: NodeId)
    requires Begins(cfg, f, init) && id in f.s.nodes && Shape(f.s.nodes[id], f.data[id])
    ensures NodeData(cfg, f.s.h, f.first, id, f.s.nodes[id], f.data[id])
  {
    var n := f.s.nodes[id];
    assert StoreAt(n, 0) == n.disk;
    assert n.log == [] || n.log == [Genesis(cfg)];
  }

  /** In a run whose crashes are all safe, every payload is as it should be. */
  lemma {:induction false} SafeRun(cfg: Config, f: Full, acts: seq<Act>)
    requires DataInv(cfg, f) && CanAll(cfg, f, acts) && SafeAll(cfg, f, acts)
    ensures DataInv(cfg, ThenAll(cfg, f, acts)) && Knows(f.first, ThenAll(cfg, f, acts).first)
    decreases |acts|
  {
    hide DataInv, Can, Then, Safe;
    if |acts| > 0 {
      DataNext(cfg, f, acts[0]);
      FirstKnows(cfg, f, acts[0]);
      SafeRun(cfg, Then(cfg, f, acts[0]), acts[1..]);
    }
  }

  lemma FirstKnows(cfg: Config, f: Full, a: Act)
    requires DataInv(cfg, f) && Can(cfg, f, a)
    ensures Knows(f.first, Then(cfg, f, a).first)
  {
    hide DataInv, Next, DataOf, SentOf, Shape, Publish, Inv, Ordered, StoreAt, Run, Enabled;
    InvOfData(cfg, f);
    if a.step.RunStep? || a.step.ReplicateStep? {
      Publishes(cfg, f, a);
    }
  }

  // ---- what follows ----

  /** `f` is reached from a pristine cluster by acts whose crashes are all safe. */
  ghost predicate SafelyReaches(cfg: Config, f0: Full, init: Payload, acts: seq<Act>, f: Full) {
    Begins(cfg, f0, init) && CanAll(cfg, f0, acts) && SafeAll(cfg, f0, acts) && f == ThenAll(cfg, f0, acts)
  }

  /** The log of node `id`, in memory or on disk, and its payloads. */
  ghost function LogOf(f: Full, id: NodeId, onDisk: bool): Log
    requires id in f.s.nodes
  {
    Known(f.s.nodes[id], onDisk).log
  }

  ghost function PayloadsOf(f: Full, id: NodeId, onDisk: bool): (d: Data)
    requires Shaped(f) && id in f.s.nodes
    ensures |d| == |LogOf(f, id, onDisk)|
  {
    assert StoreAt(f.s.nodes[id], 0) == f.s.nodes[id].disk;
    f.data[id][if onDisk then 0 else |f.s.nodes[id].queue|]
  }

  lemma EntryIs(cfg: Config, f: Full, id: NodeId, onDisk: bool, i: nat)
    requires DataInv(cfg, f) && id in f.s.nodes && i < |LogOf(f, id, onDisk)|
    ensures EntryOk(cfg, f.s.h, f.first, id, LogOf(f, id, onDisk)[i], i, PayloadsOf(f, id, onDisk)[i])
    ensures LogOk(f.s.h.bases, LogOf(f, id, onDisk))
  {
    hide Inv, Ordered, AllSent, HistoryData, Agree, NextAreFree, Flushed, EntryOk;
    var n := f.s.nodes[id];
    var k := if onDisk then 0 else |n.queue|;
    assert NodeData(cfg, f.s.h, f.first, id, n, f.data[id]);
    MemAtEnd(cfg, f.s, id);
    assert StoreAt(n, 0) == n.disk;
    assert StoreData(cfg, f.s.h, f.first, id, StoreAt(n, k).log, f.data[id][k]);
    StoreLogOk(cfg, f.s, id, k);
  }

  lemma DataShaped(cfg: Config, f: Full)
    requires DataInv(cfg, f)
    ensures Shaped(f)
  {
  }

  /** Log matching, for whole entries: two logs in the cluster that hold the same log id at an index hold the same
      ids and the same payloads up to it. */
  lemma EntriesMatch(cfg: Config, f0: Full, init: Payload, acts: seq<Act>, f: Full,
                     a: NodeId, onDisk: bool, b: NodeId, onDisk': bool, k: nat)
    requires SafelyReaches(cfg, f0, init, acts, f) && a in f.s.nodes && b in f.s.nodes
    requires k < |LogOf(f, a, onDisk)| && k < |LogOf(f, b, onDisk')|
    requires LogOf(f, a, onDisk)[k] == LogOf(f, b, onDisk')[k]
    ensures Shaped(f)
    ensures LogOf(f, a, onDisk)[..k + 1] == LogOf(f, b, onDisk')[..k + 1]
    ensures PayloadsOf(f, a, onDisk)[..k + 1] == PayloadsOf(f, b, onDisk')[..k + 1]
  {
    hide DataInv, Begins, EntryOk, LogOk, LogOf, PayloadsOf;
    DataBegins(cfg, f0, init);
    SafeRun(cfg, f0, acts);
    DataShaped(cfg, f);
    forall j | 0 <= j <= k
      ensures LogOf(f, a, onDisk)[j] == LogOf(f, b, onDisk')[j]
      ensures PayloadsOf(f, a, onDisk)[j] == PayloadsOf(f, b, onDisk')[j]
    {
      EntryIs(cfg, f, a, onDisk, k);
      EntryIs(cfg, f, b, onDisk', k);
      LogMatching(f.s.h.bases, LogOf(f, a, onDisk), LogOf(f, b, onDisk'), k, j);
      SameEntry(cfg, f, a, onDisk, b, onDisk', j);
    }
  }

  lemma SameEntry(cfg: Config, f: Full, a: NodeId, onDisk: bool, b: NodeId, onDisk': bool, j: nat)
    requires DataInv(cfg, f) && a in f.s.nodes && b in f.s.nodes
    requires j < |LogOf(f, a, onDisk)| && j < |LogOf(f, b, onDisk')|
    requires LogOf(f, a, onDisk)[j] == LogOf(f, b, onDisk')[j]
    ensures PayloadsOf(f, a, onDisk)[j] == PayloadsOf(f, b, onDisk')[j]
  {
    hide Inv, Ordered, AllSent, HistoryData, StoreData, NextAreFree, Flushed, Owns;
    EntryIs(cfg, f, a, onDisk, j);
    EntryIs(cfg, f, b, onDisk', j);
    var x := LogId(LogOf(f, a, onDisk)[j], j);
    if x !in f.first {
      OwnsOne(cfg, f.s, a, b, x.leader);
      var n, ds := f.s.nodes[a], f.data[a];
      assert NodeData(cfg, f.s.h, f.first, a, n, ds);
      MemAtEnd(cfg, f.s, a);
      assert StoreAt(n, 0) == n.disk;
      assert Agree(f.first, StoreAt(n, 0).log, ds[0], StoreAt(n, |n.queue|).log, ds[|n.queue|]);
    }
  }

  /** What is known to be committed was flushed by somebody. */
  lemma CommittedIsKnown(cfg: Config, f: Full, id: NodeId, onDisk: bool, i: nat)
    requires DataInv(cfg, f) && id in f.s.nodes && i < NextIndex(Known(f.s.nodes[id], onDisk).committed)
    ensures i < |LogOf(f, id, onDisk)| && LogId(LogOf(f, id, onDisk)[i], i) in f.first
  {
    hide Inv, Ordered, AllSent, Shaped, FirstOk, SentOk, NodeData;
    MemLogOk(cfg, f.s, id);
    var st := Known(f.s.nodes[id], onDisk);
    var c := st.committed.value;
    var x, j: nat :| Covers(cfg, f.s.h, x, j, c.index) && Under(cfg.mode, x, st.vote)
                     && Follows(f.s.h.bases, st.log, x, c.index + 1);
    var l, acks :| ToCommitted(cfg.mode, l) == x && AckedBy(cfg, f.s.h, l, j, acks);
    var y := SomeAcker(cfg, f, acks);
    assert Acked(f.s.h, y, l, j);
    var m :| m in f.s.h.msgs && IsAck(m, y, l) && j <= m.res.last.value.index;
    assert st.log[i] == At(f.s.h.bases, x, i);
  }

  lemma SomeAcker(cfg: Config, f: Full, acks: set<NodeId>) returns (y: NodeId)
    requires Inv(cfg, f.s) && IsQuorum(cfg.configs, acks)
    ensures y in acks
  {
    assert IsMajority(cfg.configs[0], acks);
    assert |cfg.configs[0] * acks| > 0;
    y :| y in cfg.configs[0] * acks;
  }

  /** State machine safety, for whole entries, over nodes, time and crashes: whatever any node knew to be committed
      at one point of a run, and any node knows to be committed later, is the same log id with the same payload
      at every index. */
  lemma EntriesAreSafe(cfg: Config, f0: Full, init: Payload, acts: seq<Act>, f: Full, later: seq<Act>,
                       a: NodeId, onDisk: bool, b: NodeId, onDisk': bool, i: nat)
    requires SafelyReaches(cfg, f0, init, acts, f) && CanAll(cfg, f, later) && SafeAll(cfg, f, later)
    requires a in f.s.nodes && b in ThenAll(cfg, f, later).s.nodes
    requires i < NextIndex(Known(f.s.nodes[a], onDisk).committed)
    requires i < NextIndex(Known(ThenAll(cfg, f, later).s.nodes[b], onDisk').committed)
    ensures Shaped(f) && Shaped(ThenAll(cfg, f, later))
    ensures var f' := ThenAll(cfg, f, later);
            i < |LogOf(f, a, onDisk)| && i < |LogOf(f', b, onDisk')|
            && LogOf(f, a, onDisk)[i] == LogOf(f', b, onDisk')[i]
            && PayloadsOf(f, a, onDisk)[i] == PayloadsOf(f', b, onDisk')[i]
  {
    hide DataInv, Begins, CanAll, SafeAll, PayloadsOf, Shaped, Owns, LogOk;
    var f' := ThenAll(cfg, f, later);
    DataBegins(cfg, f0, init);
    SafeRun(cfg, f0, acts);
    SafeRun(cfg, f, later);
    DataShaped(cfg, f);
    DataShaped(cfg, f');
    CommittedIsKnown(cfg, f, a, onDisk, i);
    CommittedIsKnown(cfg, f', b, onDisk', i);
    IdsAreSafe(cfg, f0, init, acts, f, later, a, onDisk, b, onDisk', i);
    EntryIs(cfg, f, a, onDisk, i);
    EntryIs(cfg, f', b, onDisk', i);
  }

  lemma IdsAreSafe(cfg: Config, f0: Full, init: Payload, acts: seq<Act>, f: Full, later: seq<Act>,
                   a: NodeId, onDisk: bool, b: NodeId, onDisk': bool, i: nat)
    requires SafelyReaches(cfg, f0, init, acts, f) && CanAll(cfg, f, later)
    requires a in f.s.nodes && b in ThenAll(cfg, f, later).s.nodes
    requires i < NextIndex(Known(f.s.nodes[a], onDisk).committed)
    requires i < NextIndex(Known(ThenAll(cfg, f, later).s.nodes[b], onDisk').committed)
    ensures var f' := ThenAll(cfg, f, later);
            i < |LogOf(f, a, onDisk)| && i < |LogOf(f', b, onDisk')|
            && LogOf(f, a, onDisk)[i] == LogOf(f', b, onDisk')[i]
  {
    hide CanAll, SafeAll, ThenAll, IsRun, After, Init;
    Projects(cfg, f0, acts);
    Projects(cfg, f, later);
    StateMachineSafety(cfg, f0.s, Steps(acts), f.s, Steps(later), a, onDisk, b, onDisk', i);
  }
}
