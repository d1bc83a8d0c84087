/** Every step keeps the invariant, so every reachable cluster has it. */
module RaftRun {
  import opened Basics
  import opened Votes
  import opened RaftNode
  import opened RaftCluster
  import opened RaftInvariant
  import opened RaftSafety
  import opened RaftVoting
  import opened RaftGrowth
  import opened RaftElection
  import opened RaftReplication
  import opened RaftStorage
  import opened RaftRefusal

  lemma NodeStepOk(cfg: Config, s: Cluster, id: NodeId, n: Node)
    requires Inv(cfg, s) && id in s.nodes && NodeOk(cfg, s.h, id, n)
    ensures Inv(cfg, With(s, id, n))
  {
  }

  lemma WriteOk(cfg: Config, s: Cluster, id: NodeId, count: nat)
    requires Inv(cfg, s) && Enabled(cfg, s, WriteStep(id, count))
    ensures Inv(cfg, Next(cfg, s, WriteStep(id, count)))
  {
    hide CoreOk, HistoryOk;
    var n := s.nodes[id];
    var l := n.leader.value;
    assert NodeOk(cfg, s.h, id, n);
    VoteOrderIsPartialOrder(cfg.mode, n.vote, Vote(l.leader, true), n.vote);
    LeaderAppendOk(cfg, s.h, id, n, l, count);
    NodeStepOk(cfg, s, id, LeaderAppend(cfg, id, n, l, count));
  }

  /** The leader of a node is older than the vote the node holds as a candidate. */
  lemma CandidateOutranks(cfg: Config, h: History, id: NodeId, n: Node)
    requires RolesOk(cfg, h, id, n) && n.candidate.Some? && n.leader.Some?
    ensures VoteLt(cfg.mode, Vote(n.leader.value.leader, true), Vote(n.candidate.value.leader, false))
  {
  }

  lemma VoteRespOk(cfg: Config, s: Cluster, id: NodeId, m: Msg)
    requires Inv(cfg, s) && Enabled(cfg, s, VoteRespStep(id, m))
    ensures Inv(cfg, Next(cfg, s, VoteRespStep(id, m)))
  {
    hide CoreOk, HistoryOk, LeaderOk, CandidateOk, AcceptedOk;
    var n := s.nodes[id];
    assert NodeOk(cfg, s.h, id, n);
    if n.candidate.Some? && n.leader.Some? {
      CandidateOutranks(cfg, s.h, id, n);
    }
    if WinsElection(cfg, n, m.src, m.req, m.vote, m.granted) {
      EstablishOk(cfg, s, id, m);
    } else {
      HandleVoteRespOk(cfg, s.h, id, n, m);
      NodeStepOk(cfg, s, id, HandleVoteResp(cfg, id, n, m.src, m.req, m.vote, m.granted));
    }
  }

  lemma HistorySays(cfg: Config, h: History, id: NodeId, m: Msg)
    requires HistoryOk(cfg, h) && m.AppendReq? && MsgOk(cfg, h, id, m)
    ensures HistoryOk(cfg, h.(msgs := h.msgs + {m}))
  {
    hide LogOk, BaseOk;
    var h' := h.(msgs := h.msgs + {m});
    forall l | l in h'.leaders
      ensures EstablishedOk(cfg, h', l)
    {
      assert EstablishedOk(cfg, h, l);
      var q :| ElectedBy(cfg, h, l, q);
      forall a | a in q
        ensures Granted(h', a, l)
      {
        GrantedGrows(h, h', a, l);
      }
      assert ElectedBy(cfg, h', l, q);
    }
    forall w | w in h'.asked
      ensures AskedOk(cfg, h', w)
    {
      assert AskedOk(cfg, h, w);
    }
    SaysMsgs(cfg, h, id, m);
  }

  lemma SaysMsgs(cfg: Config, h: History, id: NodeId, m: Msg)
    requires HistoryOk(cfg, h) && m.AppendReq? && MsgOk(cfg, h, id, m)
    ensures var h' := h.(msgs := h.msgs + {m});
            forall x :: x in h'.msgs ==> MsgOk(cfg, h', Sender(x), x)
  {
    hide LogOk, BasesOk;
    var h' := h.(msgs := h.msgs + {m});
    forall l | l in h.leaders
      ensures ToCommitted(cfg.mode, l) in h.bases
    {
      assert EstablishedOk(cfg, h, l);
    }
    forall x | x in h'.msgs
      ensures MsgOk(cfg, h', Sender(x), x)
    {
      assert MsgOk(cfg, h, Sender(x), x);
      MsgGrows(cfg, h, h', Sender(x), x);
    }
  }

  lemma ReplicateOk(cfg: Config, s: Cluster, id: NodeId, start: nat, count: nat)
    requires Inv(cfg, s) && Enabled(cfg, s, ReplicateStep(id, start, count))
    ensures Inv(cfg, Next(cfg, s, ReplicateStep(id, start, count)))
  {
    hide CoreOk, LeaderOk, AcceptedOk, MsgOk;
    var m := ReplicateMsg(s.nodes[id], start, count);
    var h' := s.h.(msgs := s.h.msgs + {m});
    ReplicateMsgOk(cfg, s, id, start, count);
    ReplicateSender(cfg, s, id, start, count);
    HistorySays(cfg, s.h, id, m);
    forall y | y in s.nodes
      ensures NodeOk(cfg, h', y, s.nodes[y])
    {
      assert NodeOk(cfg, s.h, y, s.nodes[y]);
      NodeGrows(cfg, s.h, h', y, s.nodes[y]);
    }
  }

  lemma ReplicateSender(cfg: Config, s: Cluster, id: NodeId, start: nat, count: nat)
    requires Inv(cfg, s) && Enabled(cfg, s, ReplicateStep(id, start, count))
    ensures Sender(ReplicateMsg(s.nodes[id], start, count)) == id
  {
    hide CoreOk, HistoryOk;
    assert NodeOk(cfg, s.h, id, s.nodes[id]);
  }

  lemma CommitStepOk(cfg: Config, s: Cluster, id: NodeId, index: nat, acks: set<NodeId>)
    requires Inv(cfg, s) && Enabled(cfg, s, CommitStep(id, index, acks))
    ensures Inv(cfg, Next(cfg, s, CommitStep(id, index, acks)))
  {
    hide CoreOk, HistoryOk, CandidateOk, AcceptedOk;
    var n := s.nodes[id];
    assert NodeOk(cfg, s.h, id, n);
    assert AckedBy(cfg, s.h, n.leader.value.leader, index, acks);
    LeaderCommitOk(cfg, s.h, id, n, index, acks);
    NodeStepOk(cfg, s, id, LeaderCommit(cfg, n, index));
  }

  lemma HandlerOk(cfg: Config, s: Cluster, step: Step)
    requires Inv(cfg, s) && Enabled(cfg, s, step)
    requires step.VoteReqStep? || step.AppendReqStep? || step.AppendRespStep? || step.CrashStep?
    ensures Inv(cfg, Next(cfg, s, step))
  {
    hide CoreOk, RolesOk, EstablishedOk, MsgOk;
    var n := s.nodes[step.id];
    assert NodeOk(cfg, s.h, step.id, n);
    match step {
      case VoteReqStep(id, m, leased) =>
        HandleVoteReqOk(cfg, s.h, id, n, m, leased);
        NodeStepOk(cfg, s, id, HandleVoteReq(cfg, id, n, m.leader.node.value, m.leader, m.last, leased));
      case AppendReqStep(id, m) =>
        HistoryComplete(cfg, s);
        HandleAppendReqOk(cfg, s.h, id, n, m);
        NodeStepOk(cfg, s, id,
                   HandleAppendReq(cfg, id, n, m.leader.node.value, m.leader, m.prev, m.entries, m.commit));
      case AppendRespStep(id, m) =>
        assert Carried(m) == Some(m.res.vote);
        UpdateVoteOk(cfg, s.h, id, n, m.res.vote);
        NodeStepOk(cfg, s, id, UpdateVote(cfg, id, n, m.res.vote).1);
      case CrashStep(id, keep) =>
        RestartOk(cfg, s.h, id, n, keep);
        NodeStepOk(cfg, s, id, Restart(cfg, id, n, keep));
    }
  }

  /** Every step of the protocol keeps the invariant. */
  lemma NextOk(cfg: Config, s: Cluster, step: Step)
    requires Inv(cfg, s) && Enabled(cfg, s, step)
    ensures Inv(cfg, Next(cfg, s, step))
  {
    hide Inv;
    match step {
      case ElectStep(id) => ElectOk(cfg, s, id);
      case WriteStep(id, count) => WriteOk(cfg, s, id, count);
      case VoteRespStep(id, m) => VoteRespOk(cfg, s, id, m);
      case ReplicateStep(id, start, count) => ReplicateOk(cfg, s, id, start, count);
      case CommitStep(id, index, acks) => CommitStepOk(cfg, s, id, index, acks);
      case RunStep(id) => RunOk(cfg, s, id);
      case RefuseStep(id, pos) => RefuseOk(cfg, s, id, pos);
      case _ => HandlerOk(cfg, s, step);
    }
  }

  lemma NewNodeOk(cfg: Config, s: Cluster, id: NodeId)
    requires Init(cfg, s) && id in s.nodes
    ensures NodeOk(cfg, s.h, id, s.nodes[id])
  {
    var n := s.nodes[id];
    assert StoreAt(n, 0) == n.disk;
    assert forall i :: 0 <= i < |n.log| ==> n.log[i] == Genesis(cfg);
    assert forall m :: !Said(s.h, n, m);
    assert StoreOk(cfg, s.h, id, n.disk);
  }

  lemma InitOk(cfg: Config, s: Cluster)
    requires Init(cfg, s)
    ensures Inv(cfg, s)
  {
    forall id | id in s.nodes
      ensures NodeOk(cfg, s.h, id, s.nodes[id])
    {
      NewNodeOk(cfg, s, id);
    }
  }

  /** Every cluster that a run reaches satisfies the invariant. */
  lemma {:induction false} RunKeeps(cfg: Config, s: Cluster, steps: seq<Step>)
    requires Inv(cfg, s) && IsRun(cfg, s, steps)
    ensures Inv(cfg, After(cfg, s, steps))
    decreases |steps|
  {
    hide Inv;
    if |steps| > 0 {
      NextOk(cfg, s, steps[0]);
      RunKeeps(cfg, Next(cfg, s, steps[0]), steps[1..]);
    }
  }
}
