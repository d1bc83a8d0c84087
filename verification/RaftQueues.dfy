/** What holds of the queue of every node in every run: saved votes rise along it, a leader's storage only grows
    along it, and what is acknowledged is in the storage that the acknowledgement waits for. */
module RaftQueues {
  import opened Basics
  import opened Votes
  import opened RaftNode
  import opened RaftCluster
  import opened RaftInvariant
  import opened RaftSafety
  import opened RaftCore
  import opened RaftVoting
  import opened RaftGrowth
  import opened RaftElection
  import opened RaftReplication
  import opened RaftStorage
  import opened RaftRefusal
  import opened RaftRun
  import opened RaftTheorems
  import opened RaftPushes

  /** A leader has written an entry of its own, and accepts all it has. */
  predicate Started(cfg: Config, h: History, id: NodeId, n: Node) {
    n.vote.committed && n.vote.leader.node == Some(id) ==>
      var v := VoteTerm(cfg.mode, n.vote);
      v in h.bases && |h.bases[v]| < |n.log| && n.accepted == LastId(n.log)
  }

  ghost predicate RoleOk(cfg: Config, h: History, id: NodeId, n: Node) {
    Active(id, n) && Started(cfg, h, id, n)
  }

  ghost predicate QueueOk(cfg: Config, h: History, id: NodeId, n: Node) {
    forall q :: 0 <= q < |n.queue| ==> Orderly(cfg, h, id, StoreAt(n, q), n.queue[q])
  }

  ghost predicate Ordered(cfg: Config, s: Cluster) {
    forall id :: id in s.nodes ==>
      RoleOk(cfg, s.h, id, s.nodes[id]) && QueueOk(cfg, s.h, id, s.nodes[id])
  }

  // ---- the queue of the node that takes a step ----

  lemma OrderlyGrows(cfg: Config, h: History, h': History, id: NodeId, st: Store, cmd: Command)
    requires Orderly(cfg, h, id, st, cmd) && Extends(h, h')
    requires cmd.Send? && cmd.msg.AppendResp? && cmd.msg.res.Success? ==> ToCommitted(cfg.mode, cmd.msg.req) in h.bases
    ensures Orderly(cfg, h', id, st, cmd)
  {
  }

  /** Acknowledgements name leaders that were established. */
  lemma AckedIsLeader(cfg: Config, h: History, id: NodeId, n: Node, q: nat)
    requires HistoryOk(cfg, h) && CoreOk(cfg, h, id, n) && q < |n.queue|
    requires n.queue[q].Send? && n.queue[q].msg.AppendResp? && n.queue[q].msg.res.Success?
    ensures ToCommitted(cfg.mode, n.queue[q].msg.req) in h.bases
  {
    hide GrantsOk, PromisesOk, StoresOk, VotesRise, TellsOk;
    assert MsgOk(cfg, h, id, n.queue[q].msg);
    assert EstablishedOk(cfg, h, n.queue[q].msg.req);
  }

  lemma QueueGrows(cfg: Config, h: History, h': History, id: NodeId, n: Node)
    requires HistoryOk(cfg, h) && CoreOk(cfg, h, id, n) && QueueOk(cfg, h, id, n) && Extends(h, h')
    ensures QueueOk(cfg, h', id, n)
  {
    hide HistoryOk, CoreOk, Orderly;
    forall q | 0 <= q < |n.queue|
      ensures Orderly(cfg, h', id, StoreAt(n, q), n.queue[q])
    {
      if n.queue[q].Send? && n.queue[q].msg.AppendResp? && n.queue[q].msg.res.Success? {
        AckedIsLeader(cfg, h, id, n, q);
      }
      OrderlyGrows(cfg, h, h', id, StoreAt(n, q), n.queue[q]);
    }
  }

  lemma QueuePushed(cfg: Config, h: History, id: NodeId, n: Node, n': Node, from: Source)
    requires QueueOk(cfg, h, id, n) && Pushed(cfg, h, id, n, n', from)
    ensures QueueOk(cfg, h, id, n')
  {
    hide Orderly;
    forall q | 0 <= q < |n'.queue|
      ensures Orderly(cfg, h, id, StoreAt(n', q), n'.queue[q])
    {
      if q < |n.queue| {
        StoreAtPrefix(n, n', q);
      } else {
        assert Kind(cfg, h, id, StoreAt(n', q), n'.queue[q], from);
      }
    }
  }

  lemma QueueRan(cfg: Config, h: History, id: NodeId, n: Node)
    requires QueueOk(cfg, h, id, n) && |n.queue| > 0
    ensures QueueOk(cfg, h, id, Ran(n))
  {
    hide Orderly;
    forall q | 0 <= q < |Ran(n).queue|
      ensures Orderly(cfg, h, id, StoreAt(Ran(n), q), Ran(n).queue[q])
    {
      StoreAtRan(n, q);
      assert Ran(n).queue[q] == n.queue[q + 1];
    }
  }

  lemma QueueRefused(cfg: Config, h: History, id: NodeId, n: Node, pos: nat)
    requires QueueOk(cfg, h, id, n) && MayRefuse(n, pos)
    ensures QueueOk(cfg, h, id, Without(n, pos))
  {
    hide Orderly;
    var n' := Without(n, pos);
    forall q | 0 <= q < |n'.queue|
      ensures Orderly(cfg, h, id, StoreAt(n', q), n'.queue[q])
    {
      StoreAtWithout(n, pos, q);
      assert n'.queue[q] == n.queue[Moved(pos, q)];
    }
  }

  // ---- the role of the node that takes a step ----

  lemma RoleGrows(cfg: Config, h: History, h': History, id: NodeId, n: Node)
    requires RoleOk(cfg, h, id, n) && Extends(h, h')
    ensures RoleOk(cfg, h', id, n)
  {
  }

  lemma FollowRole(cfg: Config, h: History, id: NodeId, n: Node, v: Vote)
    requires RoleOk(cfg, h, id, n) && v.leader.node != Some(id)
    ensures RoleOk(cfg, h, id, UpdateVote(cfg, id, n, v).1)
  {
    FollowVoteShape(cfg, h, id, n, v);
  }

  lemma UpdateVoteRole(cfg: Config, h: History, id: NodeId, n: Node, v: Vote)
    requires NodeOk(cfg, h, id, n) && RoleOk(cfg, h, id, n) && (n.leader.Some? || n.candidate.Some?)
    requires VoteKnown(cfg, h, v)
    ensures RoleOk(cfg, h, id, UpdateVote(cfg, id, n, v).1)
  {
    if v.leader.node == Some(id) {
      OwnVoteChangesNothing(cfg, h, id, n, v);
    } else {
      FollowRole(cfg, h, id, n, v);
    }
  }

  lemma WriteRole(cfg: Config, h: History, id: NodeId, n: Node, count: nat)
    requires RoleOk(cfg, h, id, n) && LeaderOk(cfg, h, id, n) && n.leader.Some? && BasesOk(h.bases)
    ensures RoleOk(cfg, h, id, LeaderAppend(cfg, id, n, n.leader.value, count))
  {
    hide BasesOk;
    if |n.log| > 0 {
      AtMonotone(h.bases, ToCommitted(cfg.mode, n.leader.value.leader), |n.log| - 1, |n.log| - 1);
    }
  }

  lemma WinRole(cfg: Config, h: History, id: NodeId, n: Node)
    requires CandidateOk(cfg, h, id, n) && n.candidate.Some?
    requires n.leader.Some? ==>
               VoteLt(cfg.mode, Vote(n.leader.value.leader, true), Vote(n.candidate.value.leader, false))
    ensures RoleOk(cfg, Establishes(cfg, h, n.candidate.value.leader, n.log), id,
                   EstablishLeader(cfg, id, n, n.candidate.value))
  {
    hide LeaderAppend, EstablishLeader;
    var c := n.candidate.value;
    EstablishShape(cfg, id, n, c);
    LeaderAppendShape(cfg, id, Crowned(n, c), Leader(c.leader, c.last), 1);
  }

  lemma VoteRespRole(cfg: Config, s: Cluster, id: NodeId, m: Msg)
    requires Inv(cfg, s) && Enabled(cfg, s, VoteRespStep(id, m)) && RoleOk(cfg, s.h, id, s.nodes[id])
    ensures var s' := Next(cfg, s, VoteRespStep(id, m)); RoleOk(cfg, s'.h, id, s'.nodes[id])
  {
    hide CoreOk, AcceptedOk, EstablishLeader, MsgOk, EstablishedOk, UpdateVote;
    var n := s.nodes[id];
    assert NodeOk(cfg, s.h, id, n);
    if n.candidate.Some? && m.req == n.candidate.value.leader {
      if WinsElection(cfg, n, m.src, m.req, m.vote, m.granted) {
        if n.leader.Some? {
          CandidateOutranks(cfg, s.h, id, n);
        }
        EstablishNext(cfg, s, id, m);
        WinRole(cfg, s.h, id, n);
      } else if !m.granted || m.vote != Vote(n.candidate.value.leader, false) {
        assert Carried(m) == Some(m.vote);
        UpdateVoteRole(cfg, s.h, id, n, m.vote);
      }
    }
  }

  lemma FollowerAppendRole(n: Node, prev: Option<LogId>, entries: Log)
    ensures var n' := FollowerAppend(n, prev, entries);
            n'.vote == n.vote && n'.leader == n.leader && n'.candidate == n.candidate
  {
    FollowerAppendShape(n, prev, entries);
  }

  lemma AppendReqRole(cfg: Config, h: History, id: NodeId, n: Node, m: Msg)
    requires RoleOk(cfg, h, id, n) && m.AppendReq? && m.leader.node.Some? && m.leader.node != Some(id)
    ensures RoleOk(cfg, h, id,
                   HandleAppendReq(cfg, id, n, m.leader.node.value, m.leader, m.prev, m.entries, m.commit))
  {
    hide UpdateVote, FollowerAppend, LastSent;
    var v := Vote(m.leader, true);
    FollowRole(cfg, h, id, n, v);
    FollowVoteShape(cfg, h, id, n, v);
    FollowerAppendRole(UpdateVote(cfg, id, n, v).1, m.prev, m.entries);
  }

  lemma RestartRole(cfg: Config, h: History, id: NodeId, n: Node, keep: bool)
    requires CoreOk(cfg, h, id, n)
    ensures RoleOk(cfg, h, id, Restart(cfg, id, n, keep))
  {
    hide CoreOk, LeaderAppend, LastRun;
    var n' := Crashed(n, keep);
    if n'.vote.leader.node == Some(id) && n'.vote.committed {
      CrashedOk(cfg, h, id, n, keep);
      CrashedHolds(cfg, h, id, n');
      var last := LastId(n'.log);
      var n1 := n'.(leader := Some(Leader(n'.vote.leader, last)), accepted := OptMax(n'.accepted, last));
      LeaderAppendShape(cfg, id, Push(n1, Send(AppendResp(id, id, n'.vote.leader, Success(last)))), n1.leader.value, 1);
      var v := VoteTerm(cfg.mode, n'.vote);
      if |n'.log| > 0 && n'.log[|n'.log| - 1] != v {
        assert LogIdLt(last.value, LogId(v, |n'.log|));
      }
    }
  }

  lemma CrashedHolds(cfg: Config, h: History, id: NodeId, n: Node)
    requires CoreOk(cfg, h, id, n) && n.vote.leader.node == Some(id) && n.vote.committed
    ensures var v := VoteTerm(cfg.mode, n.vote);
            v in h.bases && |h.bases[v]| <= |n.log| && Follows(h.bases, n.log, v, |n.log|)
            && forall j :: 0 <= j < |n.log| ==> LeaderLe(n.log[j], v) && (n.log[j] == v ==> |h.bases[v]| <= j)
  {
    MemOk(cfg, h, id, n);
  }

  // ---- every step ----

  lemma StepRole(cfg: Config, s: Cluster, step: Step)
    requires Inv(cfg, s) && Enabled(cfg, s, step) && RoleOk(cfg, s.h, step.id, s.nodes[step.id])
    ensures RoleOk(cfg, Next(cfg, s, step).h, step.id, Stepped(cfg, s, step))
  {
    hide CoreOk, CandidateOk, AcceptedOk, MsgOk, EstablishedOk, BasesOk, HandleAppendReq, LeaderAppend;
    hide UpdateVote, Restart;
    var n := s.nodes[step.id];
    assert NodeOk(cfg, s.h, step.id, n);
    match step {
      case ElectStep(id) => ElectShape(cfg, id, n);
      case WriteStep(id, count) => WriteRole(cfg, s.h, id, n, count);
      case VoteReqStep(id, m, leased) => FollowRole(cfg, s.h, id, n, Vote(m.leader, false));
      case VoteRespStep(id, m) => VoteRespRole(cfg, s, id, m);
      case AppendReqStep(id, m) => AppendReqRole(cfg, s.h, id, n, m);
      case AppendRespStep(id, m) =>
        assert Carried(m) == Some(m.res.vote);
        UpdateVoteRole(cfg, s.h, id, n, m.res.vote);
      case CrashStep(id, keep) => RestartRole(cfg, s.h, id, n, keep);
      case _ =>
    }
  }

  lemma StepQueue(cfg: Config, s: Cluster, step: Step)
    requires Inv(cfg, s) && Enabled(cfg, s, step)
    requires Active(step.id, s.nodes[step.id]) && QueueOk(cfg, s.h, step.id, s.nodes[step.id])
    ensures QueueOk(cfg, Next(cfg, s, step).h, step.id, Stepped(cfg, s, step))
  {
    hide CoreOk, RolesOk, Orderly, Pushed, HistoryOk;
    hide Elect, HandleVoteReq, HandleVoteResp, HandleAppendReq, LeaderAppend, Restart, LeaderCommit;
    hide UpdateVote, Elected;
    var n, h' := s.nodes[step.id], Next(cfg, s, step).h;
    assert NodeOk(cfg, s.h, step.id, n);
    NextExtends(cfg, s, step);
    QueueGrows(cfg, s.h, h', step.id, n);
    match step {
      case RunStep(id) =>
        RunNext(cfg, s, id);
        QueueRan(cfg, h', id, n);
      case RefuseStep(id, pos) => QueueRefused(cfg, h', id, n, pos);
      case ReplicateStep(_, _, _) =>
      case _ =>
        StepPushes(cfg, s, step);
        QueuePushed(cfg, h', step.id, Handler(s, step), Stepped(cfg, s, step), SourceOf(cfg, s, step));
    }
  }

  lemma OthersStay(cfg: Config, s: Cluster, step: Step)
    requires Enabled(cfg, s, step)
    ensures var s' := Next(cfg, s, step);
            s'.nodes.Keys == s.nodes.Keys && forall y :: y in s.nodes && y != step.id ==> s'.nodes[y] == s.nodes[y]
  {
    hide Elect, HandleVoteReq, HandleVoteResp, HandleAppendReq, LeaderAppend, Restart, LeaderCommit;
    hide UpdateVote, Elected;
  }

  lemma OrderedNext(cfg: Config, s: Cluster, step: Step)
    requires Inv(cfg, s) && Enabled(cfg, s, step) && Ordered(cfg, s)
    ensures Ordered(cfg, Next(cfg, s, step))
  {
    hide NodeOk, Active, Started, QueueOk, Next, HistoryOk;
    var s' := Next(cfg, s, step);
    StepRole(cfg, s, step);
    StepQueue(cfg, s, step);
    OthersStay(cfg, s, step);
    NextExtends(cfg, s, step);
    forall y | y in s'.nodes
      ensures RoleOk(cfg, s'.h, y, s'.nodes[y]) && QueueOk(cfg, s'.h, y, s'.nodes[y])
    {
      if y != step.id {
        OtherQueue(cfg, s, s'.h, y);
      }
    }
  }

  lemma OtherQueue(cfg: Config, s: Cluster, h': History, y: NodeId)
    requires Inv(cfg, s) && Ordered(cfg, s) && y in s.nodes && Extends(s.h, h')
    ensures RoleOk(cfg, h', y, s.nodes[y]) && QueueOk(cfg, h', y, s.nodes[y])
  {
    hide CoreOk, RolesOk, HistoryOk, QueueOk;
    assert NodeOk(cfg, s.h, y, s.nodes[y]);
    QueueGrows(cfg, s.h, h', y, s.nodes[y]);
    RoleGrows(cfg, s.h, h', y, s.nodes[y]);
  }

  lemma {:induction false} OrderedRun(cfg: Config, s: Cluster, steps: seq<Step>)
    requires Inv(cfg, s) && Ordered(cfg, s) && IsRun(cfg, s, steps)
    ensures Ordered(cfg, After(cfg, s, steps))
    decreases |steps|
  {
    hide Inv, Ordered;
    if |steps| > 0 {
      NextOk(cfg, s, steps[0]);
      OrderedNext(cfg, s, steps[0]);
      OrderedRun(cfg, Next(cfg, s, steps[0]), steps[1..]);
    }
  }

  lemma ReachedOrdered(cfg: Config, s0: Cluster, steps: seq<Step>, s: Cluster)
    requires Reaches(cfg, s0, steps, s)
    ensures Inv(cfg, s) && Ordered(cfg, s)
  {
    hide Inv;
    InitOk(cfg, s0);
    ReachedOk(cfg, s0, steps, s);
    OrderedRun(cfg, s0, steps);
  }

  // ---- what follows along a queue ----

  /** Storage is never left with a lower vote by a later command. */
  lemma {:induction false} VotesGrow(cfg: Config, h: History, id: NodeId, n: Node, j: nat, k: nat)
    requires QueueOk(cfg, h, id, n) && j <= k <= |n.queue|
    ensures VoteLe(cfg.mode, StoreAt(n, j).vote, StoreAt(n, k).vote)
    decreases k - j
  {
    VoteOrderIsPartialOrder(cfg.mode, StoreAt(n, j).vote, StoreAt(n, j).vote, StoreAt(n, j).vote);
    if j < k {
      VotesGrow(cfg, h, id, n, j, k - 1);
      StoreAtNext(n, k - 1);
      assert Orderly(cfg, h, id, StoreAt(n, k - 1), n.queue[k - 1]);
      VoteOrderIsPartialOrder(cfg.mode, StoreAt(n, j).vote, StoreAt(n, k - 1).vote, StoreAt(n, k).vote);
    }
  }

  /** Under its own vote a node only adds to its storage. */
  lemma {:induction false} OwnLogGrows(cfg: Config, h: History, id: NodeId, n: Node, j: nat, k: nat)
    requires QueueOk(cfg, h, id, n) && j <= k <= |n.queue|
    requires StoreAt(n, j).vote.leader == StoreAt(n, k).vote.leader && StoreAt(n, j).vote.leader.node == Some(id)
    ensures StoreAt(n, j).log <= StoreAt(n, k).log
    decreases k - j
  {
    hide VoteLe, StoreAt;
    if j < k {
      VotesGrow(cfg, h, id, n, j, k - 1);
      VotesGrow(cfg, h, id, n, k - 1, k);
      VoteBetween(cfg.mode, StoreAt(n, j).vote, StoreAt(n, k - 1).vote, StoreAt(n, k).vote);
      OwnLogGrows(cfg, h, id, n, j, k - 1);
      StoreAtNext(n, k - 1);
      assert Orderly(cfg, h, id, StoreAt(n, k - 1), n.queue[k - 1]);
    }
  }

  lemma VoteBetween(mode: Mode, a: Vote, b: Vote, c: Vote)
    requires VoteLe(mode, a, b) && VoteLe(mode, b, c) && a.leader == c.leader
    ensures b.leader == a.leader
  {
  }

  /** When the acknowledgement of a log id leaves a node, the log on the node's disk up to that id is that of the
      leader it goes to: the id is there, and so is, entry by entry, whatever that leader's log holds up to it. */
  lemma AckedIsOnDisk(cfg: Config, s0: Cluster, steps: seq<Step>, s: Cluster, id: NodeId, l: LeaderId, b: NodeId)
    requires Reaches(cfg, s0, steps, s) && id in s.nodes && |s.nodes[id].queue| > 0
    requires s.nodes[id].queue[0].Send? && IsAck(s.nodes[id].queue[0].msg, id, l)
    ensures var log, last := s.nodes[id].disk.log, s.nodes[id].queue[0].msg.res.last.value;
            Contains(log, last.leader, last.index)
            && (b in s.nodes && s.nodes[b].leader.Some? && s.nodes[b].leader.value.leader == l ==>
                  forall j :: 0 <= j <= last.index && j < |s.nodes[b].log| ==> log[j] == s.nodes[b].log[j])
  {
    hide Reaches, HistoryOk, CoreOk, Inv;
    ReachedOrdered(cfg, s0, steps, s);
    var n := s.nodes[id];
    assert StoreAt(n, 0) == n.disk;
    assert Orderly(cfg, s.h, id, StoreAt(n, 0), n.queue[0]);
    AckNames(cfg, s, id);
    if b in s.nodes && s.nodes[b].leader.Some? {
      LeaderHolds(cfg, s, b);
    }
  }

  lemma AckNames(cfg: Config, s: Cluster, id: NodeId)
    requires Inv(cfg, s) && id in s.nodes && |s.nodes[id].queue| > 0 && s.nodes[id].queue[0].Send?
    ensures MsgOk(cfg, s.h, id, s.nodes[id].queue[0].msg)
  {
    hide HistoryOk, GrantsOk, PromisesOk, StoresOk, VotesRise, TellsOk, RolesOk, MsgOk;
    assert NodeOk(cfg, s.h, id, s.nodes[id]);
  }

  /** Once a node was established as leader `l`, its storage holds a vote for `l` or a greater one, so as long as
      the vote is for `l` its storage only grows. */
  lemma LeaderStoresGrow(cfg: Config, h: History, id: NodeId, n: Node, j: nat, k: nat)
    requires HistoryOk(cfg, h) && CoreOk(cfg, h, id, n) && QueueOk(cfg, h, id, n) && j <= k <= |n.queue|
    requires StoreAt(n, k).vote.leader in h.leaders && StoreAt(n, k).vote.leader.node == Some(id)
    ensures StoreAt(n, j).vote.leader == StoreAt(n, k).vote.leader
    ensures StoreAt(n, j).log <= StoreAt(n, k).log
  {
    hide HistoryOk, GrantsOk, StoresOk, SendsOk, VotesRise, QueueOk, VoteLe;
    var l := StoreAt(n, k).vote.leader;
    LeaderIsSaved(cfg, h, l);
    assert OwnVotesHold(cfg, h, id, StoreAt(n, j));
    VotesGrow(cfg, h, id, n, j, k);
    VoteBetween(cfg.mode, Vote(l, false), StoreAt(n, j).vote, StoreAt(n, k).vote);
    OwnLogGrows(cfg, h, id, n, j, k);
  }

  // ---- becoming a leader ----

  lemma FollowKeepsOwn(cfg: Config, h: History, id: NodeId, n: Node, v: Vote)
    requires v.leader.node != Some(id)
    ensures var n' := UpdateVote(cfg, id, n, v).1; n'.vote.leader.node == Some(id) ==> n'.vote == n.vote
  {
    FollowVoteShape(cfg, h, id, n, v);
  }

  lemma UpdateKeepsOwn(cfg: Config, h: History, id: NodeId, n: Node, v: Vote)
    requires NodeOk(cfg, h, id, n) && Active(id, n) && (n.leader.Some? || n.candidate.Some?) && VoteKnown(cfg, h, v)
    ensures var n' := UpdateVote(cfg, id, n, v).1; n'.vote.leader.node == Some(id) ==> n'.vote == n.vote
  {
    if v.leader.node == Some(id) {
      OwnVoteChangesNothing(cfg, h, id, n, v);
    } else {
      FollowKeepsOwn(cfg, h, id, n, v);
    }
  }

  /** Only an election that is won, or a restart, makes a node the leader under another vote. */
  lemma LeaderVoteStays(cfg: Config, s: Cluster, step: Step)
    requires Inv(cfg, s) && Enabled(cfg, s, step) && Active(step.id, s.nodes[step.id])
    requires !Wins(cfg, s, step) && !step.CrashStep?
    ensures var n, n' := s.nodes[step.id], Stepped(cfg, s, step);
            n'.vote.committed && n'.vote.leader.node == Some(step.id) ==> n'.vote == n.vote
  {
    hide CoreOk, RolesOk, MsgOk, EstablishedOk, BasesOk, LeaderAppend, UpdateVote, Restart, EstablishLeader;
    hide FollowerAppend, LastSent;
    var n := s.nodes[step.id];
    assert NodeOk(cfg, s.h, step.id, n);
    match step {
      case ElectStep(id) => ElectShape(cfg, id, n);
      case WriteStep(id, count) => WriteKeepsVote(cfg, id, n, n.leader.value, count);
      case VoteReqStep(id, m, leased) => FollowKeepsOwn(cfg, s.h, id, n, Vote(m.leader, false));
      case VoteRespStep(id, m) =>
        if n.candidate.Some? {
          assert Carried(m) == Some(m.vote);
          UpdateKeepsOwn(cfg, s.h, id, n, m.vote);
        }
      case AppendReqStep(id, m) =>
        FollowKeepsOwn(cfg, s.h, id, n, Vote(m.leader, true));
        FollowerAppendRole(UpdateVote(cfg, id, n, Vote(m.leader, true)).1, m.prev, m.entries);
      case AppendRespStep(id, m) =>
        assert Carried(m) == Some(m.res.vote);
        UpdateKeepsOwn(cfg, s.h, id, n, m.res.vote);
      case _ =>
    }
  }

  lemma WriteKeepsVote(cfg: Config, id: NodeId, n: Node, l: Leader, count: nat)
    ensures LeaderAppend(cfg, id, n, l, count).vote == n.vote
  {
  }

  /** Winning commits the vote, under an id that no leader had. */
  lemma WinnerIsNew(cfg: Config, s: Cluster, step: Step)
    requires Inv(cfg, s) && Enabled(cfg, s, step) && Wins(cfg, s, step)
    ensures var n, n' := s.nodes[step.id], Stepped(cfg, s, step);
            !n.vote.committed && n'.vote == Vote(n.vote.leader, true) && n.vote.leader.node == Some(step.id)
            && VoteTerm(cfg.mode, n.vote) !in s.h.bases
            && Next(cfg, s, step).h == Establishes(cfg, s.h, n.vote.leader, n.log)
  {
    hide CoreOk, AcceptedOk, MsgOk, EstablishedOk, BasesOk, HistoryOk, WinsElection;
    var n, m := s.nodes[step.id], step.msg;
    assert NodeOk(cfg, s.h, step.id, n);
    WinnerCandidate(cfg, n, m);
    if n.leader.Some? {
      CandidateOutranks(cfg, s.h, step.id, n);
    }
    WinnerElected(cfg, s, step.id, m);
    EstablishNext(cfg, s, step.id, m);
    EstablishShape(cfg, step.id, n, n.candidate.value);
  }

  lemma WinnerCandidate(cfg: Config, n: Node, m: Msg)
    requires m.VoteResp? && WinsElection(cfg, n, m.src, m.req, m.vote, m.granted)
    ensures n.candidate.Some?
  {
  }
}
