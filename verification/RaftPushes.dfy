/** What a handler queues: each command together with the storage state it will find when it is run. */
module RaftPushes {
  import opened Basics
  import opened Votes
  import opened RaftNode
  import opened RaftCluster
  import opened RaftInvariant
  import opened RaftSafety
  import opened RaftCore
  import opened RaftVoting
  import opened RaftElection
  import opened RaftReplication
  import opened RaftStorage
  import opened RaftRun

  /** Where the entries come from that a handler writes: from the leader whose request `m` is handled, or from
      the node itself, which writes `count` of them, unless it writes nothing. */
  datatype Source = Copied(m: Msg) | Own(count: nat) | Nothing

  /** The entries a command appends: the last ones of the request that is handled, where they belong, or
      entries of the leader that the node itself is. */
  predicate Appends(cfg: Config, id: NodeId, st: Store, es: Log, from: Source) {
    match from
    case Copied(m) =>
      m.AppendReq?
      && |es| <= |m.entries| && es == m.entries[|m.entries| - |es|..]
      && |st.log| + |es| == NextIndex(m.prev) + |m.entries| && st.vote == Vote(m.leader, true)
    case Own(count) =>
      |es| == count && st.vote.committed && st.vote.leader.node == Some(id)
      && forall j :: 0 <= j < |es| ==> es[j] == VoteTerm(cfg.mode, st.vote)
    case Nothing => false
  }

  /** A command that node `id` may have queued to be run on storage `st`: votes rise, a node under its own vote
      does not truncate, what is acknowledged is there, and entries are not sent through the queue. */
  ghost predicate Orderly(cfg: Config, h: History, id: NodeId, st: Store, cmd: Command) {
    match cmd
    case SaveVote(v) => VoteLe(cfg.mode, st.vote, v)
    case TruncateLog(_) => st.vote.leader.node != Some(id)
    case AppendEntries(_) => true
    case SaveCommitted(_) => true
    case Send(m) =>
      !m.AppendReq?
      && forall l :: IsAck(m, id, l) ==>
           Follows(h.bases, st.log, ToCommitted(cfg.mode, l), m.res.last.value.index + 1)
  }

  ghost predicate Kind(cfg: Config, h: History, id: NodeId, st: Store, cmd: Command, from: Source) {
    Orderly(cfg, h, id, st, cmd) && (cmd.AppendEntries? ==> Appends(cfg, id, st, cmd.entries, from))
  }

  /** Node `n'` is node `n` after it queued commands that it may queue. */
  ghost predicate Pushed(cfg: Config, h: History, id: NodeId, n: Node, n': Node, from: Source) {
    n.queue <= n'.queue && n'.disk == n.disk && Mem(n') == Replay(n'.disk, n'.queue)
    && forall q :: |n.queue| <= q < |n'.queue| ==> Kind(cfg, h, id, StoreAt(n', q), n'.queue[q], from)
  }

  lemma StoreAtPrefix(n: Node, n': Node, k: nat)
    requires n.queue <= n'.queue && n'.disk == n.disk && k <= |n.queue|
    ensures StoreAt(n', k) == StoreAt(n, k)
  {
    assert n'.queue[..k] == n.queue[..k];
  }

  lemma PushedSame(cfg: Config, h: History, id: NodeId, n: Node, n': Node, from: Source)
    requires n'.queue == n.queue && n'.disk == n.disk && Mem(n') == Mem(n) && Mem(n) == Replay(n.disk, n.queue)
    ensures Pushed(cfg, h, id, n, n', from)
  {
  }

  lemma PushedOne(cfg: Config, h: History, id: NodeId, n: Node, n': Node, cmd: Command, from: Source)
    requires Mem(n) == Replay(n.disk, n.queue)
    requires n'.queue == n.queue + [cmd] && n'.disk == n.disk && Mem(n') == Run(Mem(n), cmd)
    requires Kind(cfg, h, id, Mem(n), cmd, from)
    ensures Pushed(cfg, h, id, n, n', from)
  {
    hide Kind;
    StoreAtPush(n, n', cmd, |n.queue|);
    StoreAtPush(n, n', cmd, |n'.queue|);
    StoreAtEnd(n);
    StoreAtEnd(n');
  }

  lemma PushedThen(cfg: Config, h: History, id: NodeId, n: Node, n1: Node, n2: Node, from: Source)
    requires Pushed(cfg, h, id, n, n1, from) && Pushed(cfg, h, id, n1, n2, from)
    ensures Pushed(cfg, h, id, n, n2, from)
  {
    hide Kind;
    forall q | |n.queue| <= q < |n2.queue|
      ensures Kind(cfg, h, id, StoreAt(n2, q), n2.queue[q], from)
    {
      if q < |n1.queue| {
        StoreAtPrefix(n1, n2, q);
        assert Kind(cfg, h, id, StoreAt(n1, q), n1.queue[q], from);
      }
    }
  }

  /** A message that acknowledges nothing. */
  lemma PushedPlain(cfg: Config, h: History, id: NodeId, n: Node, m: Msg, from: Source)
    requires Mem(n) == Replay(n.disk, n.queue) && !m.AppendReq? && forall l :: !IsAck(m, id, l)
    ensures Pushed(cfg, h, id, n, Push(n, Send(m)), from)
  {
    PushedOne(cfg, h, id, n, Push(n, Send(m)), Send(m), from);
  }

  // ---- votes ----

  /** Following another node's vote. */
  lemma FollowPushes(cfg: Config, h: History, id: NodeId, n: Node, v: Vote, from: Source)
    requires Mem(n) == Replay(n.disk, n.queue) && v.leader.node != Some(id)
    ensures Pushed(cfg, h, id, n, UpdateVote(cfg, id, n, v).1, from)
  {
    hide Pushed;
    var n' := UpdateVote(cfg, id, n, v).1;
    if VoteLe(cfg.mode, n.vote, v) && n.vote != v {
      var n1 := Push(n.(vote := v, accepted := None), SaveVote(v));
      PushedOne(cfg, h, id, n, n1, SaveVote(v), from);
      PushedMem(cfg, h, id, n, n1, from);
      if v.committed {
        PushedSame(cfg, h, id, n1, n', from);
      } else {
        var r := VoteResp(id, id, v.leader, v, None, true);
        PushedPlain(cfg, h, id, n1, r, from);
        PushedMem(cfg, h, id, n1, Push(n1, Send(r)), from);
        PushedSame(cfg, h, id, Push(n1, Send(r)), n', from);
        PushedThen(cfg, h, id, n1, Push(n1, Send(r)), n', from);
      }
      PushedThen(cfg, h, id, n, n1, n', from);
    } else {
      PushedSame(cfg, h, id, n, n', from);
    }
  }

  lemma PushedMem(cfg: Config, h: History, id: NodeId, n: Node, n': Node, from: Source)
    requires Pushed(cfg, h, id, n, n', from)
    ensures Mem(n') == Replay(n'.disk, n'.queue)
  {
  }

  // ---- leading ----

  lemma OwnFollows(cfg: Config, h: History, log: Log, v: LeaderId, es: Log)
    requires v in h.bases && |h.bases[v]| <= |log| && Follows(h.bases, log, v, |log|)
    requires forall j :: 0 <= j < |es| ==> es[j] == v
    ensures Follows(h.bases, log + es, v, |log| + |es|)
  {
  }

  lemma LeaderPushes(cfg: Config, h: History, id: NodeId, n: Node, l: Leader, count: nat)
    requires Mem(n) == Replay(n.disk, n.queue) && LeaderOk(cfg, h, id, n)
    requires n.leader == Some(l) && n.vote == Vote(l.leader, true)
    ensures Pushed(cfg, h, id, n, LeaderAppend(cfg, id, n, l, count), Own(count))
  {
    if count > 0 {
      var v := VoteTerm(cfg.mode, n.vote);
      var n1 := LeaderWrite(n, l, v, count);
      var m := AppendResp(id, id, l.leader, Success(LastId(n1.log)));
      LeaderAppendShape(cfg, id, n, l, count);
      OwnFollows(cfg, h, n.log, v, seq(count, _ => v));
      PushedOne(cfg, h, id, n, n1, AppendEntries(seq(count, _ => v)), Own(count));
      PushedOne(cfg, h, id, n1, Push(n1, Send(m)), Send(m), Own(count));
      PushedThen(cfg, h, id, n, n1, Push(n1, Send(m)), Own(count));
    } else {
      PushedSame(cfg, h, id, n, n, Own(count));
    }
  }

  /** Restoring leadership from the log. */
  lemma RestorePushes(cfg: Config, h: History, id: NodeId, n: Node)
    requires CoreOk(cfg, h, id, n) && AcceptedOk(cfg, h, n) && n.candidate.None?
    requires n.vote.leader.node == Some(id) && n.vote.committed
    requires !(n.leader.Some? && n.leader.value.leader == n.vote.leader)
    ensures Pushed(cfg, h, id, n, BecomeLeader(cfg, id, n), Own(1))
  {
    hide Pushed, CoreOk, AcceptedOk, LastRun;
    var last := LastId(n.log);
    var n1 := n.(leader := Some(Leader(n.vote.leader, last)), accepted := OptMax(n.accepted, last));
    var m := AppendResp(id, id, n.vote.leader, Success(last));
    var n2 := Push(n1, Send(m));
    NewLeaderRoles(cfg, h, id, n);
    CoreMem(cfg, h, id, n);
    PushedSame(cfg, h, id, n, n1, Own(1));
    PushedOne(cfg, h, id, n1, n2, Send(m), Own(1));
    PushedMem(cfg, h, id, n1, n2, Own(1));
    PushedThen(cfg, h, id, n, n1, n2, Own(1));
    if OptLt(last, Some(NoopId(cfg, n))) {
      LeaderPushes(cfg, h, id, n2, n2.leader.value, 1);
      PushedThen(cfg, h, id, n, n2, BecomeLeader(cfg, id, n), Own(1));
    }
  }

  lemma CoreMem(cfg: Config, h: History, id: NodeId, n: Node)
    requires CoreOk(cfg, h, id, n)
    ensures Mem(n) == Replay(n.disk, n.queue)
  {
  }

  /** Winning an election. */
  lemma WinPushes(cfg: Config, h: History, id: NodeId, n: Node)
    requires HistoryOk(cfg, h) && NodeOk(cfg, h, id, n) && n.candidate.Some?
    requires ToCommitted(cfg.mode, n.candidate.value.leader) !in h.bases && n.candidate.value.leader in h.saved
    requires n.leader.Some? ==>
               VoteLt(cfg.mode, Vote(n.leader.value.leader, true), Vote(n.candidate.value.leader, false))
    ensures Pushed(cfg, Establishes(cfg, h, n.candidate.value.leader, n.log), id, n,
                   EstablishLeader(cfg, id, n, n.candidate.value), Own(1))
  {
    hide Pushed, CoreOk, HistoryOk, AcceptedOk, LeaderAppend;
    var c := n.candidate.value;
    var h' := Establishes(cfg, h, c.leader, n.log);
    var n1 := Crowned(n, c);
    CoreMem(cfg, h, id, n);
    EstablishShape(cfg, id, n, c);
    CrownedOk(cfg, h, id, n);
    PushedOne(cfg, h', id, n, n1, SaveVote(Vote(c.leader, true)), Own(1));
    PushedMem(cfg, h', id, n, n1, Own(1));
    LeaderPushes(cfg, h', id, n1, n1.leader.value, 1);
    PushedThen(cfg, h', id, n, n1, LeaderAppend(cfg, id, n1, n1.leader.value, 1), Own(1));
  }

  /** A node under its own vote leads or stands for election under it. */
  predicate Active(id: NodeId, n: Node) {
    (n.leader.Some? && !n.vote.committed ==> n.candidate.Some?)
    && (n.vote.committed && n.vote.leader.node == Some(id) ==>
          n.leader.Some? && n.leader.value.leader == n.vote.leader)
  }

  /** A leader or candidate that is told a vote for itself knows it already. */
  lemma OwnVoteChangesNothing(cfg: Config, h: History, id: NodeId, n: Node, v: Vote)
    requires NodeOk(cfg, h, id, n) && Active(id, n) && (n.leader.Some? || n.candidate.Some?)
    requires VoteKnown(cfg, h, v) && v.leader.node == Some(id)
    ensures UpdateVote(cfg, id, n, v).1 == n
  {
    hide CoreOk, AcceptedOk;
    OwnVoteArrives(cfg, h, id, n, v);
  }

  lemma UpdateVotePushes(cfg: Config, h: History, id: NodeId, n: Node, v: Vote)
    requires NodeOk(cfg, h, id, n) && Active(id, n) && (n.leader.Some? || n.candidate.Some?)
    requires VoteKnown(cfg, h, v)
    ensures Pushed(cfg, h, id, n, UpdateVote(cfg, id, n, v).1, Nothing)
  {
    hide Pushed, CoreOk, RolesOk;
    CoreMem(cfg, h, id, n);
    if v.leader.node == Some(id) {
      OwnVoteChangesNothing(cfg, h, id, n, v);
      PushedSame(cfg, h, id, n, n, Nothing);
    } else {
      FollowPushes(cfg, h, id, n, v, Nothing);
    }
  }

  /** The step wins an election. */
  predicate Wins(cfg: Config, s: Cluster, step: Step)
    requires Enabled(cfg, s, step)
  {
    step.VoteRespStep?
    && WinsElection(cfg, s.nodes[step.id], step.msg.src, step.msg.req, step.msg.vote, step.msg.granted)
  }

  function SourceOf(cfg: Config, s: Cluster, step: Step): Source
    requires Enabled(cfg, s, step)
  {
    match step
    case AppendReqStep(_, m) => Copied(m)
    case WriteStep(_, count) => Own(count)
    case CrashStep(_, _) => Own(1)
    case _ => if Wins(cfg, s, step) then Own(1) else Nothing
  }

  // ---- elections ----

  lemma ElectPushes(cfg: Config, h: History, id: NodeId, n: Node)
    requires Mem(n) == Replay(n.disk, n.queue)
    ensures Pushed(cfg, h, id, n, Elect(cfg, id, n), Nothing)
  {
    hide Pushed;
    var w := LeaderId(n.vote.leader.term + 1, Some(id));
    var v := Vote(w, false);
    var n1 := Push(n.(candidate := Some(Candidate(w, LastId(n.log), {})), vote := v, accepted := None), SaveVote(v));
    var n2 := SelfVoted(n, id, w);
    ElectShape(cfg, id, n);
    PushedOne(cfg, h, id, n, n1, SaveVote(v), Nothing);
    PushedMem(cfg, h, id, n, n1, Nothing);
    PushedPlain(cfg, h, id, n1, VoteResp(id, id, w, v, None, true), Nothing);
    PushedMem(cfg, h, id, n1, n2, Nothing);
    PushedThen(cfg, h, id, n, n1, n2, Nothing);
    PushedPlain(cfg, h, id, n2, VoteReq(w, LastId(n.log)), Nothing);
    PushedThen(cfg, h, id, n, n2, Elect(cfg, id, n), Nothing);
  }

  lemma VoteReqPushes(cfg: Config, h: History, id: NodeId, n: Node, src: NodeId, w: LeaderId,
                      last: Option<LogId>, leased: bool)
    requires Mem(n) == Replay(n.disk, n.queue) && w.node != Some(id)
    ensures Pushed(cfg, h, id, n, HandleVoteReq(cfg, id, n, src, w, last, leased), Nothing)
  {
    hide Pushed, UpdateVote;
    if (n.vote.committed && leased) || !OptLe(LastId(n.log), last) {
      PushedPlain(cfg, h, id, n, VoteResp(id, src, w, n.vote, LastId(n.log), false), Nothing);
    } else {
      var (ok, n1) := UpdateVote(cfg, id, n, Vote(w, false));
      FollowPushes(cfg, h, id, n, Vote(w, false), Nothing);
      PushedMem(cfg, h, id, n, n1, Nothing);
      var r := VoteResp(id, src, w, n1.vote, LastId(n1.log), ok);
      PushedPlain(cfg, h, id, n1, r, Nothing);
      PushedThen(cfg, h, id, n, n1, Push(n1, Send(r)), Nothing);
    }
  }

  lemma VoteRespPushes(cfg: Config, s: Cluster, id: NodeId, m: Msg)
    requires Inv(cfg, s) && Enabled(cfg, s, VoteRespStep(id, m)) && Active(id, s.nodes[id])
    ensures var s' := Next(cfg, s, VoteRespStep(id, m));
            Pushed(cfg, s'.h, id, s.nodes[id], s'.nodes[id], SourceOf(cfg, s, VoteRespStep(id, m)))
  {
    hide Pushed, CoreOk, LeaderOk, AcceptedOk, EstablishLeader, MsgOk, EstablishedOk, UpdateVote;
    var n := s.nodes[id];
    assert NodeOk(cfg, s.h, id, n);
    CoreMem(cfg, s.h, id, n);
    if n.candidate.None? || m.req != n.candidate.value.leader {
      PushedSame(cfg, s.h, id, n, n, Nothing);
    } else if WinsElection(cfg, n, m.src, m.req, m.vote, m.granted) {
      if n.leader.Some? {
        CandidateOutranks(cfg, s.h, id, n);
      }
      WinnerElected(cfg, s, id, m);
      EstablishNext(cfg, s, id, m);
      WinPushes(cfg, s.h, id, n);
    } else if m.granted && m.vote == Vote(n.candidate.value.leader, false) {
      PushedSame(cfg, s.h, id, n, Next(cfg, s, VoteRespStep(id, m)).nodes[id], Nothing);
    } else {
      assert Carried(m) == Some(m.vote);
      UpdateVotePushes(cfg, s.h, id, n, m.vote);
    }
  }

  // ---- replication ----

  lemma TruncatePushes(cfg: Config, h: History, id: NodeId, n: Node, since: nat, from: Source)
    requires Mem(n) == Replay(n.disk, n.queue) && n.vote.leader.node != Some(id)
    ensures Pushed(cfg, h, id, n, Truncate(n, since), from)
  {
    if since < |n.log| {
      PushedOne(cfg, h, id, n, Truncate(n, since), TruncateLog(since), from);
    }
  }

  lemma RepairPushes(cfg: Config, h: History, id: NodeId, n: Node, m: Msg, k: nat)
    requires Mem(n) == Replay(n.disk, n.queue) && m.AppendReq? && k < |m.entries|
    requires n.vote == Vote(m.leader, true) && m.leader.node != Some(id) && NextIndex(m.prev) + k <= |n.log|
    ensures Pushed(cfg, h, id, n, Repaired(n, NextIndex(m.prev) + k, m.entries[k..]), Copied(m))
  {
    hide Pushed, Replay;
    var t := NextIndex(m.prev) + k;
    var n1 := Truncate(n, t);
    assert m.entries[k..] == m.entries[|m.entries| - |m.entries[k..]|..];
    TruncatePushes(cfg, h, id, n, t, Copied(m));
    PushedMem(cfg, h, id, n, n1, Copied(m));
    assert |n1.log| == t;
    PushedOne(cfg, h, id, n1, Repaired(n, t, m.entries[k..]), AppendEntries(m.entries[k..]), Copied(m));
    PushedThen(cfg, h, id, n, n1, Repaired(n, t, m.entries[k..]), Copied(m));
  }

  lemma FollowerPushes(cfg: Config, h: History, id: NodeId, n: Node, m: Msg)
    requires Following(cfg, h, id, n) && Complete(cfg, h)
    requires m.AppendReq? && n.vote == Vote(m.leader, true) && SegmentOk(cfg, h, m)
    requires m.prev.Some? ==> HasLogId(n, m.prev.value)
    ensures Pushed(cfg, h, id, n, FollowerAppend(n, m.prev, m.entries), Copied(m))
  {
    hide Pushed, CoreOk, HistoryOk, AcceptedOk, SegmentOk, FirstConflict, FollowerAppend, LastSent, Repaired, Follows;
    var k := FirstConflict(n, NextIndex(m.prev), m.entries);
    var n' := FollowerAppend(n, m.prev, m.entries);
    CoreMem(cfg, h, id, n);
    FollowerAppendShape(n, m.prev, m.entries);
    if k < |m.entries| {
      PresentFits(cfg, h, id, n, m);
      var r := Repaired(n, NextIndex(m.prev) + k, m.entries[k..]);
      RepairPushes(cfg, h, id, n, m, k);
      PushedMem(cfg, h, id, n, r, Copied(m));
      PushedSame(cfg, h, id, r, n', Copied(m));
      PushedThen(cfg, h, id, n, r, n', Copied(m));
    } else {
      PushedSame(cfg, h, id, n, n', Copied(m));
    }
  }

  lemma PresentFits(cfg: Config, h: History, id: NodeId, n: Node, m: Msg)
    requires Following(cfg, h, id, n) && Complete(cfg, h)
    requires m.AppendReq? && n.vote == Vote(m.leader, true) && SegmentOk(cfg, h, m)
    requires m.prev.Some? ==> HasLogId(n, m.prev.value)
    ensures NextIndex(m.prev) + FirstConflict(n, NextIndex(m.prev), m.entries) <= |n.log|
  {
    MemOk(cfg, h, id, n);
    PresentFollows(cfg, h, id, n, m);
  }

  lemma AcceptPushes(cfg: Config, h: History, id: NodeId, n: Node, m: Msg)
    requires Following(cfg, h, id, n) && Complete(cfg, h)
    requires m.AppendReq? && n.vote == Vote(m.leader, true) && SegmentOk(cfg, h, m) && m.leader.node.Some?
    requires m.prev.Some? ==> HasLogId(n, m.prev.value)
    ensures var n2 := FollowerAppend(n, m.prev, m.entries);
            var r := AppendResp(id, m.leader.node.value, m.leader, Success(LastSent(m.prev, m.entries)));
            Pushed(cfg, h, id, n, CommitEntries(Push(n2, Send(r)), m.commit), Copied(m))
  {
    hide Pushed, CoreOk, HistoryOk, AcceptedOk, SegmentOk, FollowerAppend, LastSent, Follows;
    var n2 := FollowerAppend(n, m.prev, m.entries);
    var r := AppendResp(id, m.leader.node.value, m.leader, Success(LastSent(m.prev, m.entries)));
    var n3 := Push(n2, Send(r));
    FollowerPushes(cfg, h, id, n, m);
    PushedMem(cfg, h, id, n, n2, Copied(m));
    FollowerAppendOk(cfg, h, id, n, m);
    LastSentIs(cfg, h, m);
    PushedOne(cfg, h, id, n2, n3, Send(r), Copied(m));
    PushedMem(cfg, h, id, n2, n3, Copied(m));
    PushedThen(cfg, h, id, n, n2, n3, Copied(m));
    CommitPushes(cfg, h, id, n3, m.commit, Copied(m));
    PushedThen(cfg, h, id, n, n3, CommitEntries(n3, m.commit), Copied(m));
  }

  lemma CommitPushes(cfg: Config, h: History, id: NodeId, n: Node, commit: Option<LogId>, from: Source)
    requires Mem(n) == Replay(n.disk, n.queue)
    ensures Pushed(cfg, h, id, n, CommitEntries(n, commit), from)
  {
    var c := OptMin(n.accepted, commit);
    if OptLt(n.committed, c) {
      PushedOne(cfg, h, id, n, CommitEntries(n, commit), SaveCommitted(c.value), from);
    }
  }

  lemma LeaderCommitPushes(cfg: Config, h: History, id: NodeId, n: Node, index: nat)
    requires Mem(n) == Replay(n.disk, n.queue) && index < |n.log|
    ensures Pushed(cfg, h, id, n, LeaderCommit(cfg, n, index), Nothing)
  {
    var c := LogId(n.log[index], index);
    if c.leader == VoteTerm(cfg.mode, n.vote) && OptLt(n.committed, Some(c)) {
      PushedOne(cfg, h, id, n, LeaderCommit(cfg, n, index), SaveCommitted(c), Nothing);
    }
  }

  lemma AppendReqPushes(cfg: Config, h: History, id: NodeId, n: Node, m: Msg)
    requires HistoryOk(cfg, h) && Complete(cfg, h) && NodeOk(cfg, h, id, n)
    requires m in h.msgs && m.AppendReq? && m.leader.node.Some? && m.leader.node != Some(id)
    ensures Pushed(cfg, h, id, n,
                   HandleAppendReq(cfg, id, n, m.leader.node.value, m.leader, m.prev, m.entries, m.commit), Copied(m))
  {
    hide Pushed, CoreOk, RolesOk, UpdateVote, FollowerAppend, LastSent, CommitEntries, EstablishedOk, BasesOk;
    var src := m.leader.node.value;
    var v := Vote(m.leader, true);
    assert MsgOk(cfg, h, Sender(m), m);
    CoreMem(cfg, h, id, n);
    LeaderIsSaved(cfg, h, m.leader);
    FollowVoteOk(cfg, h, id, n, v);
    FollowVoteShape(cfg, h, id, n, v);
    FollowPushes(cfg, h, id, n, v, Copied(m));
    var (ok, n1) := UpdateVote(cfg, id, n, v);
    PushedMem(cfg, h, id, n, n1, Copied(m));
    if !ok {
      PushedPlain(cfg, h, id, n, AppendResp(id, src, m.leader, HigherVote(n.vote)), Copied(m));
    } else if m.prev.Some? && !HasLogId(n1, m.prev.value) {
      var n2 := Truncate(n1, m.prev.value.index);
      TruncatePushes(cfg, h, id, n1, m.prev.value.index, Copied(m));
      PushedMem(cfg, h, id, n1, n2, Copied(m));
      PushedThen(cfg, h, id, n, n1, n2, Copied(m));
      PushedPlain(cfg, h, id, n2, AppendResp(id, src, m.leader, Conflict), Copied(m));
      PushedThen(cfg, h, id, n, n2, Push(n2, Send(AppendResp(id, src, m.leader, Conflict))), Copied(m));
    } else {
      AcceptPushes(cfg, h, id, n1, m);
      PushedThen(cfg, h, id, n, n1,
                 HandleAppendReq(cfg, id, n, src, m.leader, m.prev, m.entries, m.commit), Copied(m));
    }
  }

  // ---- every step ----

  /** The step handles something at its node: it runs nothing that is queued and sends nothing directly. */
  predicate Handles(step: Step) {
    !step.ReplicateStep? && !step.RunStep? && !step.RefuseStep?
  }

  /** The node that handles the step. */
  function Handler(s: Cluster, step: Step): Node
    requires step.id in s.nodes
  {
    if step.CrashStep? then Crashed(s.nodes[step.id], step.keepCommitted) else s.nodes[step.id]
  }

  lemma CrashPushes(cfg: Config, s: Cluster, id: NodeId, keep: bool)
    requires Inv(cfg, s) && id in s.nodes
    ensures Pushed(cfg, s.h, id, Crashed(s.nodes[id], keep), Restart(cfg, id, s.nodes[id], keep), Own(1))
  {
    hide Pushed, CoreOk, HistoryOk, RolesOk, BecomeLeader;
    var n := Crashed(s.nodes[id], keep);
    assert NodeOk(cfg, s.h, id, s.nodes[id]);
    CrashedOk(cfg, s.h, id, s.nodes[id], keep);
    CoreMem(cfg, s.h, id, n);
    if n.vote.leader.node == Some(id) && n.vote.committed {
      RestorePushes(cfg, s.h, id, n);
    } else {
      PushedSame(cfg, s.h, id, n, n, Own(1));
    }
  }

  lemma WritePushes(cfg: Config, s: Cluster, id: NodeId, count: nat)
    requires Inv(cfg, s) && Enabled(cfg, s, WriteStep(id, count))
    ensures var n := s.nodes[id];
            Pushed(cfg, s.h, id, n, LeaderAppend(cfg, id, n, n.leader.value, count), Own(count))
  {
    hide Pushed, CoreOk, HistoryOk, CandidateOk, AcceptedOk;
    var n := s.nodes[id];
    assert NodeOk(cfg, s.h, id, n);
    CoreMem(cfg, s.h, id, n);
    VoteOrderIsPartialOrder(cfg.mode, n.vote, Vote(n.leader.value.leader, true), n.vote);
    LeaderPushes(cfg, s.h, id, n, n.leader.value, count);
  }

  lemma AnswerPushes(cfg: Config, s: Cluster, id: NodeId, m: Msg)
    requires Inv(cfg, s) && Enabled(cfg, s, AppendRespStep(id, m)) && Active(id, s.nodes[id])
    ensures Pushed(cfg, s.h, id, s.nodes[id], UpdateVote(cfg, id, s.nodes[id], m.res.vote).1, Nothing)
  {
    hide Pushed, CoreOk, RolesOk, MsgOk, EstablishedOk, BasesOk;
    assert NodeOk(cfg, s.h, id, s.nodes[id]);
    assert Carried(m) == Some(m.res.vote);
    UpdateVotePushes(cfg, s.h, id, s.nodes[id], m.res.vote);
  }

  /** The node that took the step, after it. */
  function Stepped(cfg: Config, s: Cluster, step: Step): Node
    requires Enabled(cfg, s, step)
  {
    Next(cfg, s, step).nodes[step.id]
  }

  /** Whatever a step makes a node queue is a command it may queue, and nothing else about storage changes. */
  lemma StepPushes(cfg: Config, s: Cluster, step: Step)
    requires Inv(cfg, s) && Enabled(cfg, s, step) && Handles(step) && Active(step.id, s.nodes[step.id])
    ensures Pushed(cfg, Next(cfg, s, step).h, step.id, Handler(s, step), Stepped(cfg, s, step), SourceOf(cfg, s, step))
  {
    hide Pushed, CoreOk, RolesOk, Elect, HandleVoteReq, HandleAppendReq, LeaderAppend, Restart, LeaderCommit;
    hide UpdateVote;
    var n := s.nodes[step.id];
    assert NodeOk(cfg, s.h, step.id, n);
    CoreMem(cfg, s.h, step.id, n);
    match step {
      case ElectStep(id) => ElectPushes(cfg, Next(cfg, s, step).h, id, n);
      case WriteStep(id, count) => WritePushes(cfg, s, id, count);
      case VoteReqStep(id, m, leased) =>
        VoteReqPushes(cfg, s.h, id, n, m.leader.node.value, m.leader, m.last, leased);
      case VoteRespStep(id, m) => VoteRespPushes(cfg, s, id, m);
      case AppendReqStep(id, m) =>
        HistoryComplete(cfg, s);
        AppendReqPushes(cfg, s.h, id, n, m);
      case AppendRespStep(id, m) => AnswerPushes(cfg, s, id, m);
      case CommitStep(id, index, _) => LeaderCommitPushes(cfg, s.h, id, n, index);
      case CrashStep(id, keep) => CrashPushes(cfg, s, id, keep);
    }
  }
}
