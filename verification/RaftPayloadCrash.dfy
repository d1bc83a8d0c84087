/** When a crash is safe: never, if a leader sends what it has not flushed; always, if it flushes first. */
module RaftPayloadCrash {
  import opened Basics
  import opened Votes
  import opened RaftNode
  import opened RaftCluster
  import opened RaftInvariant
  import opened RaftVoting
  import opened RaftStorage
  import opened RaftPushes
  import opened RaftQueues
  import opened RaftPayload
  import opened RaftPayloadSafety

  // ---- flushing before sending ----

  /** A leader sends only entries at indexes that it has on disk. */
  ghost predicate FlushesFirst(cfg: Config, f: Full, a: Act)
    requires Can(cfg, f, a)
  {
    a.step.ReplicateStep? ==> a.step.start + a.step.count <= |f.s.nodes[a.step.id].disk.log|
  }

  ghost predicate AllFlushFirst(cfg: Config, f: Full, acts: seq<Act>)
    requires CanAll(cfg, f, acts)
    decreases |acts|
  {
    |acts| == 0 || (FlushesFirst(cfg, f, acts[0]) && AllFlushFirst(cfg, Then(cfg, f, acts[0]), acts[1..]))
  }

  /** Whatever is known of the entries of the leader that `st` votes for is in `st`. */
  ghost predicate Holds(cfg: Config, h: History, first: Payloads, id: NodeId, st: Store) {
    st.vote.leader in h.leaders && st.vote.leader.node == Some(id) ==>
      forall x :: x in first && x.leader == VoteTerm(cfg.mode, st.vote) ==> x.index < |st.log|
  }

  ghost predicate DisksHold(cfg: Config, f: Full) {
    forall id :: id in f.s.nodes ==> Holds(cfg, f.s.h, f.first, id, f.s.nodes[id].disk)
  }

  lemma HoldsIsCovered(cfg: Config, f: Full, id: NodeId)
    requires Inv(cfg, f.s) && id in f.s.nodes && Holds(cfg, f.s.h, f.first, id, f.s.nodes[id].disk)
    ensures Covered(cfg, f, id)
  {
    hide Inv;
    if f.s.nodes[id].disk.vote.committed {
      DiskLeader(cfg, f.s, id);
    }
  }

  /** Nothing new is known of the entries of another node. */
  lemma HoldsOthers(cfg: Config, s: Cluster, first: Payloads, first': Payloads, id: NodeId, y: NodeId, st: Store)
    requires Inv(cfg, s) && KnownOf(cfg, s.h, first, first', id) && y != id && Holds(cfg, s.h, first, y, st)
    ensures Holds(cfg, s.h, first', y, st)
  {
    hide Inv, Owns;
    if st.vote.leader in s.h.leaders && st.vote.leader.node == Some(y) {
      assert Owns(cfg, s.h, y, VoteTerm(cfg.mode, st.vote)) by { VoteOwns(cfg, s.h, y, st.vote); }
      forall x | x in first' && x.leader == VoteTerm(cfg.mode, st.vote)
        ensures x.index < |st.log|
      {
        if x !in first {
          OwnsOne(cfg, s, id, y, x.leader);
        }
      }
    }
  }

  lemma VoteOwns(cfg: Config, h: History, y: NodeId, v: Vote)
    requires v.leader in h.leaders && v.leader.node == Some(y)
    ensures Owns(cfg, h, y, VoteTerm(cfg.mode, v))
  {
  }

  /** A new leader has nothing known yet. */
  lemma HoldsGrows(cfg: Config, f: Full, h': History, y: NodeId, st: Store)
    requires FirstOk(cfg, f.s.h, f.first) && Holds(cfg, f.s.h, f.first, y, st)
    requires forall l :: l in h'.leaders && l !in f.s.h.leaders ==> ToCommitted(cfg.mode, l) !in f.s.h.bases
    ensures Holds(cfg, h', f.first, y, st)
  {
  }

  lemma NewLeaders(cfg: Config, s: Cluster, step: Step)
    requires Inv(cfg, s) && Enabled(cfg, s, step)
    ensures forall l :: l in Next(cfg, s, step).h.leaders && l !in s.h.leaders ==>
              ToCommitted(cfg.mode, l) !in s.h.bases
  {
    hide Inv, WinsElection, Elect, HandleVoteReq, HandleVoteResp, HandleAppendReq, LeaderAppend, Restart;
    hide LeaderCommit, UpdateVote;
    if Wins(cfg, s, step) {
      WinnerIsNew(cfg, s, step);
    }
  }

  lemma RanHolds(cfg: Config, s: Cluster, first: Payloads, first': Payloads, id: NodeId, d: Data)
    requires Inv(cfg, s) && Ordered(cfg, s) && id in s.nodes && |s.nodes[id].queue| > 0
    requires KnownFrom(first, first', StoreAt(s.nodes[id], 1).log, d) && Holds(cfg, s.h, first, id, s.nodes[id].disk)
    ensures Holds(cfg, s.h, first', id, Ran(s.nodes[id]).disk)
  {
    hide HistoryOk, CoreOk, RolesOk, RoleOk, QueueOk;
    var n := s.nodes[id];
    StoreAtOne(n);
    assert NodeOk(cfg, s.h, id, n) && QueueOk(cfg, s.h, id, n);
    if StoreAt(n, 1).vote.leader in s.h.leaders && StoreAt(n, 1).vote.leader.node == Some(id) {
      LeaderStoresGrow(cfg, s.h, id, n, 0, 1);
    }
  }

  lemma SentHolds(cfg: Config, f: Full, a: Act)
    requires Can(cfg, f, a) && a.step.ReplicateStep? && FlushesFirst(cfg, f, a)
    requires Holds(cfg, f.s.h, f.first, a.step.id, f.s.nodes[a.step.id].disk)
    ensures Holds(cfg, f.s.h, FirstOf(cfg, f, a), a.step.id, f.s.nodes[a.step.id].disk)
  {
    var n, ds := f.s.nodes[a.step.id], f.data[a.step.id];
    assert Shape(n, ds);
    PublishIs(f.first, n.log, ds[|n.queue|], a.step.start, a.step.start + a.step.count);
  }

  lemma DiskStays(cfg: Config, s: Cluster, step: Step)
    requires Inv(cfg, s) && Enabled(cfg, s, step) && !step.RunStep? && Active(step.id, s.nodes[step.id])
    ensures var d, d' := s.nodes[step.id].disk, Stepped(cfg, s, step).disk; d'.vote == d.vote && d'.log == d.log
  {
    hide Inv, Kind, Active;
    if Handles(step) {
      StepPushes(cfg, s, step);
    }
  }

  lemma NodeIsActive(cfg: Config, s: Cluster, id: NodeId)
    requires Ordered(cfg, s) && id in s.nodes
    ensures Active(id, s.nodes[id])
  {
    assert RoleOk(cfg, s.h, id, s.nodes[id]);
  }

  lemma RunHolds(cfg: Config, f: Full, a: Act)
    requires DataInv(cfg, f) && Can(cfg, f, a) && a.step.RunStep?
    requires Holds(cfg, f.s.h, f.first, a.step.id, f.s.nodes[a.step.id].disk)
    ensures Holds(cfg, Next(cfg, f.s, a.step).h, FirstOf(cfg, f, a), a.step.id, Stepped(cfg, f.s, a.step).disk)
  {
    hide DataInv, Shape, Holds, Inv, Ordered, FirstOf, StoreAt, KnownFrom, Flushed;
    var id, n := a.step.id, f.s.nodes[a.step.id];
    InvOfData(cfg, f);
    RunPublishes(cfg, f, a);
    ShapeSize(n, f.data[id]);
    RanHolds(cfg, f.s, f.first, FirstOf(cfg, f, a), id, f.data[id][1]);
    RunNext(cfg, f.s, id);
    SameHolds(cfg, f.s.h, Next(cfg, f.s, a.step).h, FirstOf(cfg, f, a), id, Ran(n).disk,
              Stepped(cfg, f.s, a.step).disk);
  }

  lemma HandledHolds(cfg: Config, f: Full, a: Act)
    requires DataInv(cfg, f) && Can(cfg, f, a) && !a.step.RunStep? && !a.step.ReplicateStep?
    requires Holds(cfg, f.s.h, f.first, a.step.id, f.s.nodes[a.step.id].disk)
    ensures Holds(cfg, Next(cfg, f.s, a.step).h, f.first, a.step.id, Stepped(cfg, f.s, a.step).disk)
  {
    hide DataInv, Shaped, Holds, Inv, Ordered, FirstOk, SentOk, AcksOk, Next, Stepped;
    var id, n := a.step.id, f.s.nodes[a.step.id];
    InvOfData(cfg, f);
    HistoryOfData(cfg, f);
    NodeIsActive(cfg, f.s, id);
    DiskStays(cfg, f.s, a.step);
    NewLeaders(cfg, f.s, a.step);
    HoldsGrows(cfg, f, Next(cfg, f.s, a.step).h, id, n.disk);
    SameHolds(cfg, Next(cfg, f.s, a.step).h, Next(cfg, f.s, a.step).h, f.first, id, n.disk,
              Stepped(cfg, f.s, a.step).disk);
  }

  lemma SelfHolds(cfg: Config, f: Full, a: Act)
    requires DataInv(cfg, f) && DisksHold(cfg, f) && Can(cfg, f, a) && FlushesFirst(cfg, f, a)
    ensures Holds(cfg, Next(cfg, f.s, a.step).h, FirstOf(cfg, f, a), a.step.id, Stepped(cfg, f.s, a.step).disk)
  {
    hide DataInv, Shape, Holds, Publish, StoreAt;
    var id, n := a.step.id, f.s.nodes[a.step.id];
    assert Holds(cfg, f.s.h, f.first, id, n.disk);
    match a.step {
      case RunStep(_) => RunHolds(cfg, f, a);
      case ReplicateStep(_, _, _) =>
        SentHolds(cfg, f, a);
        SameHolds(cfg, f.s.h, Next(cfg, f.s, a.step).h, FirstOf(cfg, f, a), id, n.disk, n.disk);
      case _ => HandledHolds(cfg, f, a);
    }
  }

  lemma SameHolds(cfg: Config, h: History, h': History, first: Payloads, id: NodeId, st: Store, st': Store)
    requires Holds(cfg, h, first, id, st) && h'.leaders == h.leaders && st'.vote == st.vote && st'.log == st.log
    ensures Holds(cfg, h', first, id, st')
  {
  }

  lemma DisksHoldNext(cfg: Config, f: Full, a: Act)
    requires DataInv(cfg, f) && DisksHold(cfg, f) && Can(cfg, f, a) && FlushesFirst(cfg, f, a)
    ensures Safe(cfg, f, a) && DisksHold(cfg, Then(cfg, f, a)) && DataInv(cfg, Then(cfg, f, a))
  {
    hide DataInv, Shaped, Holds, Inv, Ordered, FirstOk, SentOk, AcksOk, Next, FirstOf, Covered, DataOf;
    hide SentOf, KnownOf, NodeData;
    var f', id := Then(cfg, f, a), a.step.id;
    InvOfData(cfg, f);
    HistoryOfData(cfg, f);
    if a.step.CrashStep? {
      HoldsIsCovered(cfg, f, id);
    }
    DataNext(cfg, f, a);
    InvOfData(cfg, f');
    SelfNext(cfg, f, a);
    SelfHolds(cfg, f, a);
    OthersStay(cfg, f.s, a.step);
    NewLeaders(cfg, f.s, a.step);
    forall y | y in f'.s.nodes
      ensures Holds(cfg, f'.s.h, f'.first, y, f'.s.nodes[y].disk)
    {
      if y != id {
        HoldsGrows(cfg, f, f'.s.h, y, f.s.nodes[y].disk);
        HoldsOthers(cfg, f'.s, f.first, f'.first, id, y, f.s.nodes[y].disk);
      }
    }
  }

  lemma {:induction false} FlushedRun(cfg: Config, f: Full, acts: seq<Act>)
    requires DataInv(cfg, f) && DisksHold(cfg, f) && CanAll(cfg, f, acts) && AllFlushFirst(cfg, f, acts)
    ensures SafeAll(cfg, f, acts)
    decreases |acts|
  {
    hide DataInv, Can, Then, Safe, FlushesFirst, DisksHold;
    if |acts| > 0 {
      DisksHoldNext(cfg, f, acts[0]);
      FlushedRun(cfg, Then(cfg, f, acts[0]), acts[1..]);
    }
  }

  /** If leaders send only what they have flushed, every crash of every run is safe. */
  lemma FlushingFirstIsSafe(cfg: Config, f0: Full, init: Payload, acts: seq<Act>)
    requires Begins(cfg, f0, init) && CanAll(cfg, f0, acts) && AllFlushFirst(cfg, f0, acts)
    ensures SafelyReaches(cfg, f0, init, acts, ThenAll(cfg, f0, acts))
  {
    hide DataInv, CanAll, AllFlushFirst, SafeAll, ThenAll;
    DataBegins(cfg, f0, init);
    FlushedRun(cfg, f0, acts);
  }

  // ---- the exact condition ----

  /** Every payload in memory is the one that was flushed or sent first under its id, if any was. */
  ghost predicate Matches(f: Full) {
    Shaped(f)
    && forall id, i :: id in f.s.nodes && 0 <= i < |f.s.nodes[id].log| && LogId(f.s.nodes[id].log[i], i) in f.first ==>
         PayloadsOf(f, id, false)[i] == f.first[LogId(f.s.nodes[id].log[i], i)]
  }

  lemma DataMatches(cfg: Config, f: Full)
    requires DataInv(cfg, f)
    ensures Matches(f)
  {
    hide DataInv, EntryOk, PayloadsOf, LogOk;
    DataShaped(cfg, f);
    forall id, i | id in f.s.nodes && 0 <= i < |f.s.nodes[id].log| && LogId(f.s.nodes[id].log[i], i) in f.first
      ensures PayloadsOf(f, id, false)[i] == f.first[LogId(f.s.nodes[id].log[i], i)]
    {
      EntryIs(cfg, f, id, false, i);
      assert LogOf(f, id, false) == f.s.nodes[id].log;
      KnownEntry(cfg, f.s.h, f.first, id, f.s.nodes[id].log[i], i, PayloadsOf(f, id, false)[i]);
    }
  }

  lemma KnownEntry(cfg: Config, h: History, first: Payloads, id: NodeId, t: LeaderId, i: nat, p: Payload)
    requires EntryOk(cfg, h, first, id, t, i, p) && LogId(t, i) in first
    ensures first[LogId(t, i)] == p
  {
  }

  /** The log of a restarted leader is that on disk, with the first entry if it is not there. */
  lemma RestartedLog(cfg: Config, h: History, id: NodeId, n: Node, keep: bool)
    requires CoreOk(cfg, h, id, n) && n.disk.vote.committed && n.disk.vote.leader.node == Some(id)
    ensures var n', v := Restart(cfg, id, n, keep), VoteTerm(cfg.mode, n.disk.vote);
            n'.vote == n.disk.vote && n'.leader.Some? && n'.leader.value.leader == n.disk.vote.leader
            && n'.leader.value.last == LastId(n'.log)
            && v in h.bases && (|n'.log| <= |n.disk.log| || |n'.log| <= |h.bases[v]| + 1)
  {
    hide CoreOk, LeaderAppend;
    var n1 := Crashed(n, keep);
    CrashedOk(cfg, h, id, n, keep);
    CrashedHolds(cfg, h, id, n1);
    var last := LastId(n1.log);
    var n2 := n1.(leader := Some(Leader(n1.vote.leader, last)), accepted := OptMax(n1.accepted, last));
    LeaderAppendOne(cfg, id, Push(n2, Send(AppendResp(id, id, n1.vote.leader, Success(last)))), n2.leader.value);
  }

  lemma LeaderAppendOne(cfg: Config, id: NodeId, n: Node, l: Leader)
    requires l.last == LastId(n.log)
    ensures var n' := LeaderAppend(cfg, id, n, l, 1);
            n'.vote == n.vote && n'.log == n.log + [ToCommitted(cfg.mode, l.leader)]
            && n'.leader == Some(Leader(l.leader, LastId(n'.log)))
  {
  }

  /** A payload that differs from `p`. */
  function Another(p: Payload): (q: Payload)
    ensures q != p
  {
    if p == Normal(0) then Normal(1) else Normal(0)
  }

  ghost function CrashOf(cfg: Config, f: Full, id: NodeId, keep: bool): Full
    requires Shaped(f) && id in f.s.nodes
  {
    Then(cfg, f, Act(CrashStep(id, keep), [Blank]))
  }

  /** Every write that the node makes after its crash leaves the payloads matching. */
  ghost predicate WritesMatch(cfg: Config, f: Full, id: NodeId) {
    forall data: Data ::
      Can(cfg, f, Act(WriteStep(id, |data|), data)) ==> Matches(Then(cfg, f, Act(WriteStep(id, |data|), data)))
  }

  /** A leader that writes up to index `i` has what it was given there. */
  lemma WriteReaches(cfg: Config, f: Full, id: NodeId, data: Data)
    requires Sound(cfg, f) && id in f.s.nodes && |data| > 0 && f.s.nodes[id].leader.Some?
    requires f.s.nodes[id].vote == Vote(f.s.nodes[id].leader.value.leader, true)
    requires f.s.nodes[id].leader.value.last == LastId(f.s.nodes[id].log)
    ensures var a := Act(WriteStep(id, |data|), data);
            Can(cfg, f, a) && Shaped(Then(cfg, f, a))
            && var f', n := Then(cfg, f, a), f.s.nodes[id];
               id in f'.s.nodes && f'.first == f.first && |f'.s.nodes[id].log| == |n.log| + |data|
               && f'.s.nodes[id].log[|n.log| + |data| - 1] == VoteTerm(cfg.mode, n.vote)
               && PayloadsOf(f', id, false)[|n.log| + |data| - 1] == data[|data| - 1]
  {
    hide Inv, Ordered, AllSent, Shape, Carry;
    var a, n := Act(WriteStep(id, |data|), data), f.s.nodes[id];
    VoteOrderIsPartialOrder(cfg.mode, n.vote, n.vote, n.vote);
    ShapedNext(cfg, f, a);
    LeaderAppendShape(cfg, id, n, n.leader.value, |data|);
    WrittenData(cfg, f, id, data);
  }

  lemma WrittenData(cfg: Config, f: Full, id: NodeId, data: Data)
    requires id in f.s.nodes && |data| > 0 && f.s.nodes[id].leader.Some?
    requires f.s.nodes[id].leader.value.last == LastId(f.s.nodes[id].log)
    requires Can(cfg, f, Act(WriteStep(id, |data|), data))
    ensures var a, n := Act(WriteStep(id, |data|), data), f.s.nodes[id];
            var ds, q := DataOf(cfg, f, a), |Stepped(cfg, f.s, a.step).queue|;
            q < |ds| && |ds[q]| == |n.log| + |data| && ds[q][|n.log| + |data| - 1] == data[|data| - 1]
  {
    hide Enabled, StoreAt;
    var a, n, ds := Act(WriteStep(id, |data|), data), f.s.nodes[id], f.data[id];
    LeaderAppendShape(cfg, id, n, n.leader.value, |data|);
    var queue := Stepped(cfg, f.s, a.step).queue;
    assert Shape(n, ds);
    assert |queue| == |n.queue| + 2 && queue[|n.queue|].AppendEntries? && |queue[|n.queue|].entries| == |data|;
    assert queue[|n.queue| + 1].Send?;
    CarryIs(ds, queue, data);
    var r := Carry(ds, queue, data);
    assert r[|n.queue| + 1] == Put(r[|n.queue|], queue[|n.queue|], data);
    assert r[|n.queue| + 2] == Put(r[|n.queue| + 1], queue[|n.queue| + 1], data);
  }

  /** A safe crash leaves every write matching. */
  lemma SafeCrash(cfg: Config, f: Full, id: NodeId, keep: bool)
    requires DataInv(cfg, f) && Shaped(f) && id in f.s.nodes && Covered(cfg, f, id)
    ensures WritesMatch(cfg, CrashOf(cfg, f, id, keep), id)
  {
    hide DataInv, Then, Matches, Shaped, Covered, Next;
    var a := Act(CrashStep(id, keep), [Blank]);
    DataNext(cfg, f, a);
    var f1 := CrashOf(cfg, f, id, keep);
    forall data: Data | Can(cfg, f1, Act(WriteStep(id, |data|), data))
      ensures Matches(Then(cfg, f1, Act(WriteStep(id, |data|), data)))
    {
      DataNext(cfg, f1, Act(WriteStep(id, |data|), data));
      DataMatches(cfg, Then(cfg, f1, Act(WriteStep(id, |data|), data)));
    }
  }

  /** A node that leads again without an entry it flushed or sent can write another one under the same id. */
  lemma UnsafeCrash(cfg: Config, f: Full, id: NodeId, keep: bool, x: LogId)
    requires Sound(cfg, f) && Shaped(f) && id in f.s.nodes && x in f.first
    requires f.s.nodes[id].disk.vote.committed && f.s.nodes[id].disk.vote.leader.node == Some(id)
    requires IsLater(cfg, f.s.h, f.s.nodes[id].disk.vote, x) && |f.s.nodes[id].disk.log| <= x.index
    ensures !WritesMatch(cfg, CrashOf(cfg, f, id, keep), id)
  {
    hide Sound, Inv, Ordered, AllSent, Shaped, Restart, PayloadsOf, CoreOk, RolesOk, DataOf;
    var n, a := f.s.nodes[id], Act(CrashStep(id, keep), [Blank]);
    var f1 := CrashOf(cfg, f, id, keep);
    SoundNext(cfg, f, a);
    NodeCore(cfg, f, id);
    RestartedLog(cfg, f.s.h, id, n, keep);
    var n1 := f1.s.nodes[id];
    assert n1 == Restart(cfg, id, n, keep) && |n1.log| <= x.index;
    var data := seq(x.index + 1 - |n1.log|, _ => Another(f.first[x]));
    WriteReaches(cfg, f1, id, data);
    var f2 := Then(cfg, f1, Act(WriteStep(id, |data|), data));
    assert f2.first == f.first && f2.s.nodes[id].log[x.index] == x.leader;
    assert PayloadsOf(f2, id, false)[x.index] == Another(f.first[x]);
    assert !Matches(f2);
  }

  lemma NodeCore(cfg: Config, f: Full, id: NodeId)
    requires Sound(cfg, f) && id in f.s.nodes
    ensures CoreOk(cfg, f.s.h, id, f.s.nodes[id])
  {
    hide CoreOk, RolesOk, HistoryOk;
    assert NodeOk(cfg, f.s.h, id, f.s.nodes[id]);
  }

  /** The condition is exact: in every state that safe steps lead to, whatever the node writes after a crash leaves
      every log id with one payload if and only if the crash is covered. */
  lemma CrashIsSafeIff(cfg: Config, f0: Full, init: Payload, acts: seq<Act>, f: Full, id: NodeId, keep: bool)
    requires SafelyReaches(cfg, f0, init, acts, f) && id in f.s.nodes
    ensures Shaped(f) && (WritesMatch(cfg, CrashOf(cfg, f, id, keep), id) <==> Covered(cfg, f, id))
  {
    hide DataInv, Sound, CanAll, SafeAll, WritesMatch, CrashOf, Begins, ThenAll;
    DataBegins(cfg, f0, init);
    SafeRun(cfg, f0, acts);
    DataShaped(cfg, f);
    DataSound(cfg, f);
    if Covered(cfg, f, id) {
      SafeCrash(cfg, f, id, keep);
    } else {
      var d := f.s.nodes[id].disk;
      var x :| x in f.first && IsLater(cfg, f.s.h, d.vote, x) && |d.log| <= x.index;
      UnsafeCrash(cfg, f, id, keep, x);
    }
  }

  lemma DataSound(cfg: Config, f: Full)
    requires DataInv(cfg, f)
    ensures Sound(cfg, f)
  {
  }
}
