/** Sending a refusal ahead of entries that are not flushed yet keeps the invariant. */
module RaftRefusal {
  import opened Basics
  import opened Votes
  import opened RaftNode
  import opened RaftCluster
  import opened RaftInvariant
  import opened RaftCore
  import opened RaftGrowth
  import opened RaftStorage

  /** The node without the queued message at `pos`. */
  function Without(n: Node, pos: nat): Node
    requires pos < |n.queue|
  {
    n.(queue := n.queue[..pos] + n.queue[pos + 1..])
  }

  /** The position in the old queue of what is at `k` in the new one. */
  function Moved(pos: nat, k: nat): nat {
    if k < pos then k else k + 1
  }

  lemma StoreAtNext(n: Node, k: nat)
    requires k < |n.queue|
    ensures StoreAt(n, k + 1) == Run(StoreAt(n, k), n.queue[k])
  {
    assert n.queue[..k + 1][..k] == n.queue[..k];
  }

  lemma {:induction false} StoreAtWithout(n: Node, pos: nat, k: nat)
    requires pos < |n.queue| && n.queue[pos].Send? && k < |n.queue|
    ensures StoreAt(Without(n, pos), k) == StoreAt(n, Moved(pos, k))
    decreases k
  {
    var n' := Without(n, pos);
    if k <= pos {
      assert n'.queue[..k] == n.queue[..k];
      if k == pos {
        StoreAtNext(n, k);
      }
    } else {
      StoreAtWithout(n, pos, k - 1);
      StoreAtNext(n', k - 1);
      StoreAtNext(n, k);
    }
  }

  /** Up to the refusal no queued command changes the saved vote. */
  lemma {:induction false} VoteUpTo(n: Node, pos: nat, k: nat)
    requires MayRefuse(n, pos) && k <= pos
    ensures StoreAt(n, k).vote == n.disk.vote
  {
    if k == 0 {
      assert n.queue[..0] == [];
    } else {
      VoteUpTo(n, pos, k - 1);
      StoreAtNext(n, k - 1);
    }
  }

  function Heard(h: History, m: Msg): History {
    h.(msgs := h.msgs + {m})
  }

  lemma RefusalPromise(cfg: Config, h: History, id: NodeId, n: Node, pos: nat, k: nat)
    requires CoreOk(cfg, h, id, n) && MayRefuse(n, pos) && k <= |n.queue|
    ensures Promise(cfg, h, id, n.queue[pos].msg, StoreAt(n, k))
  {
    hide StoresOk, GrantsOk, SendsOk, VotesRise;
    if k <= pos {
      VoteUpTo(n, pos, k);
      VoteUpTo(n, pos, pos);
      assert Promise(cfg, h, id, n.queue[pos].msg, StoreAt(n, pos));
    }
  }

  lemma RefusalPromises(cfg: Config, h: History, id: NodeId, n: Node, pos: nat)
    requires CoreOk(cfg, h, id, n) && MayRefuse(n, pos)
    ensures PromisesOk(cfg, Heard(h, n.queue[pos].msg), id, Without(n, pos))
  {
    hide StoresOk, GrantsOk, SendsOk, VotesRise, StoreAt;
    var m, n' := n.queue[pos].msg, Without(n, pos);
    var h' := Heard(h, m);
    forall k | 0 <= k <= |n'.queue|
      ensures OwnVotesHold(cfg, h', id, StoreAt(n', k))
    {
      StoreAtWithout(n, pos, k);
    }
    forall x, k | x in h'.msgs && 0 <= k <= |n'.queue|
      ensures Promise(cfg, h', id, x, StoreAt(n', k))
    {
      StoreAtWithout(n, pos, k);
      if x == m {
        RefusalPromise(cfg, h, id, n, pos, Moved(pos, k));
      }
      assert Promise(cfg, h, id, x, StoreAt(n, Moved(pos, k)));
      PromiseGrows(cfg, h, h', id, x, StoreAt(n, Moved(pos, k)));
    }
    forall j, k | 0 <= j < |n'.queue| && n'.queue[j].Send? && j <= k <= |n'.queue|
      ensures Promise(cfg, h', id, n'.queue[j].msg, StoreAt(n', k))
    {
      StoreAtWithout(n, pos, k);
      assert n'.queue[j] == n.queue[Moved(pos, j)];
      assert Promise(cfg, h, id, n.queue[Moved(pos, j)].msg, StoreAt(n, Moved(pos, k)));
      PromiseGrows(cfg, h, h', id, n'.queue[j].msg, StoreAt(n, Moved(pos, k)));
    }
  }

  lemma RefusalStores(cfg: Config, h: History, id: NodeId, n: Node, pos: nat)
    requires CoreOk(cfg, h, id, n) && MayRefuse(n, pos)
    ensures var h', n' := Heard(h, n.queue[pos].msg), Without(n, pos);
            Mem(n') == Replay(n'.disk, n'.queue) && StoresOk(cfg, h', id, n') && VotesRise(cfg, n')
  {
    hide PromisesOk, GrantsOk, SendsOk, StoreOk;
    var h', n' := Heard(h, n.queue[pos].msg), Without(n, pos);
    StoreAtWithout(n, pos, |n'.queue|);
    StoreAtEnd(n');
    StoreAtEnd(n);
    if pos == |n'.queue| {
      StoreAtNext(n, pos);
    }
    forall k | 0 <= k <= |n'.queue|
      ensures StoreOk(cfg, h', id, StoreAt(n', k)) && VoteLe(cfg.mode, StoreAt(n', k).vote, n'.vote)
    {
      StoreAtWithout(n, pos, k);
      StoreGrows(cfg, h, h', id, StoreAt(n, Moved(pos, k)));
    }
    forall j, k | 0 <= j < k <= |n'.queue| && n'.queue[j].SaveVote?
      ensures VoteLe(cfg.mode, n'.queue[j].vote, StoreAt(n', k).vote)
    {
      StoreAtWithout(n, pos, k);
      assert n'.queue[j] == n.queue[Moved(pos, j)];
    }
  }

  lemma RefusalSaid(h: History, n: Node, pos: nat, x: Msg)
    requires pos < |n.queue| && n.queue[pos].Send?
    requires Said(Heard(h, n.queue[pos].msg), Without(n, pos), x)
    ensures Said(h, n, x)
  {
  }

  lemma RefusalGrants(cfg: Config, h: History, id: NodeId, n: Node, pos: nat)
    requires HistoryOk(cfg, h) && CoreOk(cfg, h, id, n) && MayRefuse(n, pos)
    ensures GrantsOk(cfg, Heard(h, n.queue[pos].msg), id, Without(n, pos))
  {
    hide StoresOk, PromisesOk, SendsOk, VotesRise, HistoryOk;
    var h', n' := Heard(h, n.queue[pos].msg), Without(n, pos);
    forall g, g', w, w' | Said(h', n', g) && Said(h', n', g') && IsGrant(g, id, w) && IsGrant(g', id, w')
      ensures !CompareLeaders(cfg.mode, w, w').Incomparable?
    {
      RefusalSaid(h, n, pos, g);
      RefusalSaid(h, n, pos, g');
    }
    forall g, a, w, v | Said(h', n', g) && Said(h', n', a) && IsGrant(g, id, w) && IsAck(a, id, v)
      ensures GrantAfterAck(cfg, h', a, w, v)
    {
      RefusalSaid(h, n, pos, g);
      RefusalSaid(h, n, pos, a);
      AckedLeader(cfg, h, id, n, a, v);
      GrantAfterAckGrows(cfg, h, h', a, w, v);
    }
  }

  lemma RefusalSends(cfg: Config, h: History, id: NodeId, n: Node, pos: nat)
    requires HistoryOk(cfg, h) && CoreOk(cfg, h, id, n) && MayRefuse(n, pos)
    ensures SendsOk(cfg, Heard(h, n.queue[pos].msg), id, Without(n, pos))
  {
    hide StoresOk, PromisesOk, GrantsOk, VotesRise, StoreAt, MsgOk;
    var h', n' := Heard(h, n.queue[pos].msg), Without(n, pos);
    LeadersHaveBases(cfg, h);
    forall j | 0 <= j < |n'.queue| && n'.queue[j].Send?
      ensures MsgOk(cfg, h', id, n'.queue[j].msg) && TellsOk(cfg, h', n'.queue[j].msg, StoreAt(n', j))
    {
      StoreAtWithout(n, pos, j);
      assert n'.queue[j] == n.queue[Moved(pos, j)];
      MsgGrows(cfg, h, h', id, n'.queue[j].msg);
      assert TellsOk(cfg, h, n.queue[Moved(pos, j)].msg, StoreAt(n, Moved(pos, j)));
    }
  }

  lemma LeadersHaveBases(cfg: Config, h: History)
    requires HistoryOk(cfg, h)
    ensures forall l :: l in h.leaders ==> ToCommitted(cfg.mode, l) in h.bases
  {
  }

  lemma HistoryRefuses(cfg: Config, h: History, id: NodeId, n: Node, pos: nat)
    requires HistoryOk(cfg, h) && CoreOk(cfg, h, id, n) && MayRefuse(n, pos)
    ensures HistoryOk(cfg, Heard(h, n.queue[pos].msg))
  {
    hide StoresOk, PromisesOk, GrantsOk, VotesRise, LogOk;
    var m := n.queue[pos].msg;
    var h' := Heard(h, m);
    RanLeaders(cfg, h, Send(m));
    assert RanHistory(h, Send(m)) == h';
    VoteUpTo(n, pos, pos);
    forall w | w in h'.asked
      ensures AskedOk(cfg, h', w)
    {
      assert AskedOk(cfg, h, w);
    }
    forall x | x in h'.msgs
      ensures MsgOk(cfg, h', Sender(x), x)
      ensures Carried(x).Some? ==> VoteKnown(cfg, h', Carried(x).value)
    {
      if x in h.msgs {
        assert MsgOk(cfg, h, Sender(x), x);
        MsgGrows(cfg, h, h', Sender(x), x);
      } else {
        assert MsgOk(cfg, h, id, m) && TellsOk(cfg, h, m, StoreAt(n, pos));
        MsgGrows(cfg, h, h', id, m);
      }
    }
  }

  lemma RefusalRoles(cfg: Config, h: History, id: NodeId, n: Node, pos: nat)
    requires HistoryOk(cfg, h) && NodeOk(cfg, h, id, n) && MayRefuse(n, pos)
    ensures RolesOk(cfg, Heard(h, n.queue[pos].msg), id, Without(n, pos))
  {
    hide CoreOk, HistoryOk, StoreAt;
    var h', n' := Heard(h, n.queue[pos].msg), Without(n, pos);
    RolesGrow(cfg, h, h', id, n);
    if n.candidate.Some? {
      forall k | 0 <= k <= |n'.queue| && StoreAt(n', k).vote.leader == n.candidate.value.leader
        ensures StoreAt(n', k).log == n'.log
      {
        StoreAtWithout(n, pos, k);
      }
    }
  }

  lemma RefuseOk(cfg: Config, s: Cluster, id: NodeId, pos: nat)
    requires Inv(cfg, s) && Enabled(cfg, s, RefuseStep(id, pos))
    ensures Inv(cfg, Next(cfg, s, RefuseStep(id, pos)))
  {
    hide StoresOk, VotesRise, PromisesOk, GrantsOk, SendsOk, LeaderOk, AcceptedOk, MsgOk;
    var n := s.nodes[id];
    var m := n.queue[pos].msg;
    var h' := Heard(s.h, m);
    assert NodeOk(cfg, s.h, id, n) && MayRefuse(n, pos);
    HistoryRefuses(cfg, s.h, id, n, pos);
    RefusalStores(cfg, s.h, id, n, pos);
    RefusalPromises(cfg, s.h, id, n, pos);
    RefusalGrants(cfg, s.h, id, n, pos);
    RefusalSends(cfg, s.h, id, n, pos);
    RefusalRoles(cfg, s.h, id, n, pos);
    RefusalSender(cfg, s, id, pos);
    forall y | y in s.nodes && y != id
      ensures NodeOk(cfg, h', y, s.nodes[y])
    {
      assert NodeOk(cfg, s.h, y, s.nodes[y]);
      NodeGrows(cfg, s.h, h', y, s.nodes[y]);
    }
    InvOf(cfg, s, h', id, Without(n, pos));
  }

  lemma RefusalSender(cfg: Config, s: Cluster, id: NodeId, pos: nat)
    requires Inv(cfg, s) && Enabled(cfg, s, RefuseStep(id, pos))
    ensures Sender(s.nodes[id].queue[pos].msg) == id && NotBy(s.nodes[id].queue[pos].msg, id) == false
    ensures forall y: NodeId :: y != id ==> NotBy(s.nodes[id].queue[pos].msg, y)
  {
    hide HistoryOk, StoresOk, VotesRise, PromisesOk, GrantsOk, RolesOk;
    assert NodeOk(cfg, s.h, id, s.nodes[id]);
    assert MsgOk(cfg, s.h, id, s.nodes[id].queue[pos].msg);
  }
}
