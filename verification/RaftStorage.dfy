/** Running queued commands and restarting keep the invariant. */
module RaftStorage {
  import opened Basics
  import opened Votes
  import opened RaftNode
  import opened RaftCluster
  import opened RaftInvariant
  import opened RaftCore
  import opened RaftVoting
  import opened RaftGrowth

  lemma {:induction false} ReplayShift(st: Store, queue: seq<Command>)
    requires |queue| > 0
    ensures Replay(Run(st, queue[0]), queue[1..]) == Replay(st, queue)
  {
    var q := queue[..|queue| - 1];
    if |queue| == 1 {
      assert Replay(st, q) == st;
    } else {
      ReplayShift(st, q);
      assert queue[1..][..|queue| - 2] == q[1..];
    }
  }

  function Ran(n: Node): Node
    requires |n.queue| > 0
  {
    n.(disk := Run(n.disk, n.queue[0]), queue := n.queue[1..])
  }

  function RanHistory(h: History, cmd: Command): History {
    match cmd
    case Send(m) => h.(msgs := h.msgs + {m})
    case SaveVote(v) => h.(saved := h.saved + {v.leader})
    case _ => h
  }

  lemma RunNext(cfg: Config, s: Cluster, id: NodeId)
    requires Enabled(cfg, s, RunStep(id))
    ensures Next(cfg, s, RunStep(id))
            == Cluster(s.nodes[id := Ran(s.nodes[id])], RanHistory(s.h, s.nodes[id].queue[0]))
  {
  }

  lemma StoreAtRan(n: Node, k: nat)
    requires |n.queue| > 0 && k < |n.queue|
    ensures StoreAt(Ran(n), k) == StoreAt(n, k + 1)
  {
    assert n.queue[..k + 1][1..] == n.queue[1..][..k];
    ReplayShift(n.disk, n.queue[..k + 1]);
  }

  lemma StoreAtOne(n: Node)
    requires |n.queue| > 0
    ensures StoreAt(n, 1) == Run(n.disk, n.queue[0]) && StoreAt(n, 0) == n.disk
  {
    assert n.queue[..1] == [n.queue[0]] && [n.queue[0]][..0] == [];
    assert Replay(n.disk, [n.queue[0]]) == Run(Replay(n.disk, []), n.queue[0]);
  }

  lemma RanGrows(h: History, cmd: Command)
    ensures Grows(h, RanHistory(h, cmd))
  {
  }

  lemma RanSaid(h: History, n: Node, m: Msg)
    requires |n.queue| > 0 && Said(RanHistory(h, n.queue[0]), Ran(n), m)
    ensures Said(h, n, m)
  {
  }

  /** The message or vote that leaves the queue is in order. */
  lemma HistoryRan(cfg: Config, h: History, id: NodeId, n: Node)
    requires HistoryOk(cfg, h) && CoreOk(cfg, h, id, n) && |n.queue| > 0
    ensures HistoryOk(cfg, RanHistory(h, n.queue[0]))
  {
    var cmd := n.queue[0];
    var h' := RanHistory(h, cmd);
    RanGrows(h, cmd);
    RanLeaders(cfg, h, cmd);
    StoreAtOne(n);
    forall w | w in h'.asked
      ensures AskedOk(cfg, h', w)
    {
      assert AskedOk(cfg, h, w);
    }
    forall m | m in h'.msgs
      ensures MsgOk(cfg, h', Sender(m), m)
      ensures Carried(m).Some? ==> VoteKnown(cfg, h', Carried(m).value)
    {
      if m in h.msgs {
        assert MsgOk(cfg, h, Sender(m), m);
        MsgGrows(cfg, h, h', Sender(m), m);
      } else {
        assert cmd == Send(m) && MsgOk(cfg, h, id, m);
        MsgGrows(cfg, h, h', id, m);
        assert TellsOk(cfg, h, m, n.disk);
      }
    }
  }

  lemma RanLeaders(cfg: Config, h: History, cmd: Command)
    requires HistoryOk(cfg, h)
    ensures var h' := RanHistory(h, cmd);
            (forall l :: l in h'.leaders ==> EstablishedOk(cfg, h', l))
            && (forall l :: l in h.leaders ==> ToCommitted(cfg.mode, l) in h.bases)
  {
    var h' := RanHistory(h, cmd);
    RanGrows(h, cmd);
    forall l | l in h'.leaders
      ensures EstablishedOk(cfg, h', l) && ToCommitted(cfg.mode, l) in h.bases
    {
      assert EstablishedOk(cfg, h, l);
      var q :| ElectedBy(cfg, h, l, q);
      forall a | a in q
        ensures Granted(h', a, l)
      {
        GrantedGrows(h, h', a, l);
      }
      assert ElectedBy(cfg, h', l, q);
    }
  }

  /** The other nodes do not notice. */
  lemma RanQuiet(cfg: Config, h: History, id: NodeId, n: Node, y: NodeId, ny: Node)
    requires CoreOk(cfg, h, id, n) && |n.queue| > 0 && y != id
    ensures Quiet(cfg, h, RanHistory(h, n.queue[0]), y, ny)
  {
    var cmd := n.queue[0];
    RanGrows(h, cmd);
    StoreAtOne(n);
    assert StoreOk(cfg, h, id, StoreAt(n, 1));
    if cmd.Send? {
      assert MsgOk(cfg, h, id, cmd.msg);
    }
  }

  lemma RanPromises(cfg: Config, h: History, id: NodeId, n: Node)
    requires CoreOk(cfg, h, id, n) && |n.queue| > 0
    ensures PromisesOk(cfg, RanHistory(h, n.queue[0]), id, Ran(n))
  {
    var cmd, n' := n.queue[0], Ran(n);
    var h' := RanHistory(h, cmd);
    RanGrows(h, cmd);
    forall k | 0 <= k <= |n'.queue|
      ensures OwnVotesHold(cfg, h', id, StoreAt(n', k))
    {
      StoreAtRan(n, k);
      if cmd.SaveVote? {
        VoteOrderIsPartialOrder(cfg.mode, Vote(cmd.vote.leader, false), cmd.vote, StoreAt(n, k + 1).vote);
      }
    }
    forall m, k | m in h'.msgs && 0 <= k <= |n'.queue|
      ensures Promise(cfg, h', id, m, StoreAt(n', k))
    {
      StoreAtRan(n, k);
      assert m in h.msgs || (n.queue[0].Send? && n.queue[0].msg == m);
      assert Promise(cfg, h, id, m, StoreAt(n, k + 1));
      PromiseGrows(cfg, h, h', id, m, StoreAt(n, k + 1));
    }
    forall j, k | 0 <= j < |n'.queue| && n'.queue[j].Send? && j <= k <= |n'.queue|
      ensures Promise(cfg, h', id, n'.queue[j].msg, StoreAt(n', k))
    {
      StoreAtRan(n, k);
      assert n'.queue[j] == n.queue[j + 1];
      assert Promise(cfg, h, id, n.queue[j + 1].msg, StoreAt(n, k + 1));
      PromiseGrows(cfg, h, h', id, n'.queue[j].msg, StoreAt(n, k + 1));
    }
  }

  lemma RanGrants(cfg: Config, h: History, id: NodeId, n: Node)
    requires HistoryOk(cfg, h) && CoreOk(cfg, h, id, n) && |n.queue| > 0
    ensures GrantsOk(cfg, RanHistory(h, n.queue[0]), id, Ran(n))
  {
    var cmd, n' := n.queue[0], Ran(n);
    var h' := RanHistory(h, cmd);
    RanGrows(h, cmd);
    forall g, g', w, w' | Said(h', n', g) && Said(h', n', g') && IsGrant(g, id, w) && IsGrant(g', id, w')
      ensures !CompareLeaders(cfg.mode, w, w').Incomparable?
    {
      RanSaid(h, n, g);
      RanSaid(h, n, g');
    }
    forall g, a, w, v | Said(h', n', g) && Said(h', n', a) && IsGrant(g, id, w) && IsAck(a, id, v)
      ensures GrantAfterAck(cfg, h', a, w, v)
    {
      RanSaid(h, n, g);
      RanSaid(h, n, a);
      AckedLeader(cfg, h, id, n, a, v);
      GrantAfterAckGrows(cfg, h, h', a, w, v);
    }
  }

  lemma RanSends(cfg: Config, h: History, id: NodeId, n: Node)
    requires HistoryOk(cfg, h) && CoreOk(cfg, h, id, n) && |n.queue| > 0
    ensures SendsOk(cfg, RanHistory(h, n.queue[0]), id, Ran(n))
  {
    var cmd, n' := n.queue[0], Ran(n);
    var h' := RanHistory(h, cmd);
    RanGrows(h, cmd);
    RanLeaders(cfg, h, cmd);
    StoreAtOne(n);
    assert StoreOk(cfg, h, id, StoreAt(n, 1));
    forall j | 0 <= j < |n'.queue| && n'.queue[j].Send?
      ensures MsgOk(cfg, h', id, n'.queue[j].msg) && TellsOk(cfg, h', n'.queue[j].msg, StoreAt(n', j))
    {
      StoreAtRan(n, j);
      assert n'.queue[j] == n.queue[j + 1];
      MsgGrows(cfg, h, h', id, n'.queue[j].msg);
      assert TellsOk(cfg, h, n.queue[j + 1].msg, StoreAt(n, j + 1));
    }
  }

  lemma RanStores(cfg: Config, h: History, id: NodeId, n: Node)
    requires CoreOk(cfg, h, id, n) && |n.queue| > 0
    ensures var h' := RanHistory(h, n.queue[0]);
            var n' := Ran(n);
            Mem(n') == Replay(n'.disk, n'.queue) && StoresOk(cfg, h', id, n') && VotesRise(cfg, n')
  {
    var n' := Ran(n);
    var h' := RanHistory(h, n.queue[0]);
    RanGrows(h, n.queue[0]);
    ReplayShift(n.disk, n.queue);
    forall k | 0 <= k <= |n'.queue|
      ensures StoreOk(cfg, h', id, StoreAt(n', k)) && VoteLe(cfg.mode, StoreAt(n', k).vote, n'.vote)
    {
      StoreAtRan(n, k);
      StoreGrows(cfg, h, h', id, StoreAt(n, k + 1));
    }
    forall j, k | 0 <= j < k <= |n'.queue| && n'.queue[j].SaveVote?
      ensures VoteLe(cfg.mode, n'.queue[j].vote, StoreAt(n', k).vote)
    {
      StoreAtRan(n, k);
      assert n'.queue[j] == n.queue[j + 1];
    }
  }

  lemma RanRoles(cfg: Config, h: History, id: NodeId, n: Node)
    requires HistoryOk(cfg, h) && NodeOk(cfg, h, id, n) && |n.queue| > 0
    ensures RolesOk(cfg, RanHistory(h, n.queue[0]), id, Ran(n))
  {
    var h' := RanHistory(h, n.queue[0]);
    var n' := Ran(n);
    RanGrows(h, n.queue[0]);
    RolesGrow(cfg, h, h', id, n);
    if n.candidate.Some? {
      forall k | 0 <= k <= |n'.queue| && StoreAt(n', k).vote.leader == n.candidate.value.leader
        ensures StoreAt(n', k).log == n'.log
      {
        StoreAtRan(n, k);
      }
    }
  }

  lemma RunOk(cfg: Config, s: Cluster, id: NodeId)
    requires Inv(cfg, s) && Enabled(cfg, s, RunStep(id))
    ensures Inv(cfg, Next(cfg, s, RunStep(id)))
  {
    hide StoresOk, VotesRise, PromisesOk, GrantsOk, SendsOk, LeaderOk, AcceptedOk;
    var n := s.nodes[id];
    var h' := RanHistory(s.h, n.queue[0]);
    assert NodeOk(cfg, s.h, id, n);
    RunNext(cfg, s, id);
    HistoryRan(cfg, s.h, id, n);
    RanStores(cfg, s.h, id, n);
    RanPromises(cfg, s.h, id, n);
    RanGrants(cfg, s.h, id, n);
    RanSends(cfg, s.h, id, n);
    RanRoles(cfg, s.h, id, n);
    forall y | y in s.nodes && y != id
      ensures NodeOk(cfg, h', y, s.nodes[y])
    {
      assert NodeOk(cfg, s.h, y, s.nodes[y]);
      RanQuiet(cfg, s.h, id, n, y, s.nodes[y]);
      NodeGrows(cfg, s.h, h', y, s.nodes[y]);
    }
    RanSenders(cfg, s, id);
    InvOf(cfg, s, h', id, Ran(n));
  }

  lemma RanSenders(cfg: Config, s: Cluster, id: NodeId)
    requires Inv(cfg, s) && Enabled(cfg, s, RunStep(id))
    ensures forall m :: m in RanHistory(s.h, s.nodes[id].queue[0]).msgs ==> Sender(m) in s.nodes
  {
    var n := s.nodes[id];
    assert NodeOk(cfg, s.h, id, n);
    if n.queue[0].Send? {
      assert MsgOk(cfg, s.h, id, n.queue[0].msg);
    }
  }

  // ---- restart ----

  /** What is left of a node when it crashes. */
  function Crashed(n: Node, keep: bool): Node {
    var d := n.disk.(committed := if keep then n.disk.committed else None);
    Node(d.vote, d.log, d.committed, None, None, None, [], d)
  }

  lemma CrashedOk(cfg: Config, h: History, id: NodeId, n: Node, keep: bool)
    requires CoreOk(cfg, h, id, n)
    ensures CoreOk(cfg, h, id, Crashed(n, keep))
  {
    var n' := Crashed(n, keep);
    assert StoreAt(n, 0) == n.disk && StoreAt(n', 0) == n'.disk;
    assert StoreOk(cfg, h, id, StoreAt(n, 0)) && OwnVotesHold(cfg, h, id, StoreAt(n, 0));
    forall m | m in h.msgs
      ensures Promise(cfg, h, id, m, n'.disk)
    {
      assert Promise(cfg, h, id, m, StoreAt(n, 0));
    }
    assert forall m :: Said(h, n', m) ==> Said(h, n, m);
    assert GrantsOk(cfg, h, id, n');
  }

  lemma RestartOk(cfg: Config, h: History, id: NodeId, n: Node, keep: bool)
    requires HistoryOk(cfg, h) && NodeOk(cfg, h, id, n)
    ensures NodeOk(cfg, h, id, Restart(cfg, id, n, keep))
  {
    var n' := Crashed(n, keep);
    CrashedOk(cfg, h, id, n, keep);
    if n'.vote.leader.node == Some(id) && n'.vote.committed {
      BecomeLeaderOk(cfg, h, id, n');
    }
  }
}
