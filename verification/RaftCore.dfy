/** How the invariant of one node's storage, queue and messages survives the queueing of a command, the
    running of one, and the growth of the history. */
module RaftCore {
  import opened Basics
  import opened Votes
  import opened RaftNode
  import opened RaftCluster
  import opened RaftInvariant

  lemma StoreAtPush(n: Node, n': Node, cmd: Command, k: nat)
    requires n'.disk == n.disk && n'.queue == n.queue + [cmd] && k <= |n'.queue|
    ensures k <= |n.queue| ==> StoreAt(n', k) == StoreAt(n, k)
    ensures k == |n'.queue| ==> StoreAt(n', k) == Run(StoreAt(n, |n.queue|), cmd)
  {
    if k <= |n.queue| {
      assert n'.queue[..k] == n.queue[..k];
    } else {
      assert n'.queue[..k] == n'.queue && n'.queue[..k - 1] == n.queue == n.queue[..|n.queue|];
    }
  }

  lemma StoreAtEnd(n: Node)
    ensures StoreAt(n, |n.queue|) == Replay(n.disk, n.queue)
  {
    assert n.queue[..|n.queue|] == n.queue;
  }

  lemma CoreSame(cfg: Config, h: History, id: NodeId, n: Node, n': Node)
    requires CoreOk(cfg, h, id, n)
    requires n'.disk == n.disk && n'.queue == n.queue && Mem(n') == Mem(n)
    ensures CoreOk(cfg, h, id, n')
  {
    assert forall k :: 0 <= k <= |n.queue| ==> StoreAt(n', k) == StoreAt(n, k);
    assert forall m :: Said(h, n', m) == Said(h, n, m);
  }

  /** The new message `m` fits with the grants and acknowledgements its sender has made. */
  ghost predicate SayOk(cfg: Config, h: History, id: NodeId, n: Node, m: Msg) {
    (forall g, w, w' :: IsGrant(m, id, w) && Said(h, n, g) && IsGrant(g, id, w') ==>
       !CompareLeaders(cfg.mode, w, w').Incomparable?)
    && (forall a, w, v :: IsGrant(m, id, w) && Said(h, n, a) && IsAck(a, id, v) ==>
          GrantAfterAck(cfg, h, a, w, v))
    && (forall g, w, v :: IsAck(m, id, v) && Said(h, n, g) && IsGrant(g, id, w) ==>
          GrantAfterAck(cfg, h, m, w, v))
  }

  ghost predicate PromisesHold(cfg: Config, h: History, id: NodeId, n: Node, st: Store) {
    OwnVotesHold(cfg, h, id, st)
    && forall m :: Said(h, n, m) ==> Promise(cfg, h, id, m, st)
  }

  /** What it takes to queue `cmd` and reach storage `st`. */
  ghost predicate CanPush(cfg: Config, h: History, id: NodeId, n: Node, cmd: Command, st: Store) {
    StoreOk(cfg, h, id, st)
    && VoteLe(cfg.mode, n.vote, st.vote)
    && PromisesHold(cfg, h, id, n, st)
    && (cmd.Send? ==>
          MsgOk(cfg, h, id, cmd.msg) && TellsOk(cfg, h, cmd.msg, st)
          && Promise(cfg, h, id, cmd.msg, st) && SayOk(cfg, h, id, n, cmd.msg))
  }

  lemma SaidPush(h: History, n: Node, n': Node, cmd: Command, m: Msg)
    requires n'.queue == n.queue + [cmd] && Said(h, n', m)
    ensures Said(h, n, m) || cmd == Send(m)
  {
  }

  lemma MemOk(cfg: Config, h: History, id: NodeId, n: Node)
    requires StoresOk(cfg, h, id, n) && Mem(n) == Replay(n.disk, n.queue)
    ensures StoreOk(cfg, h, id, Mem(n))
  {
    StoreAtEnd(n);
  }

  lemma MemHasPromises(cfg: Config, h: History, id: NodeId, n: Node)
    requires CoreOk(cfg, h, id, n)
    ensures StoreOk(cfg, h, id, Mem(n))
    ensures PromisesHold(cfg, h, id, n, Mem(n))
  {
    StoreAtEnd(n);
    forall m | Said(h, n, m)
      ensures Promise(cfg, h, id, m, Mem(n))
    {
      if m !in h.msgs {
        var j :| 0 <= j < |n.queue| && n.queue[j] == Send(m);
        assert n.queue[j].Send?;
      }
    }
  }

  lemma PushGrants(cfg: Config, h: History, id: NodeId, n: Node, n': Node, cmd: Command)
    requires GrantsOk(cfg, h, id, n) && n'.queue == n.queue + [cmd]
    requires cmd.Send? ==> SayOk(cfg, h, id, n, cmd.msg)
    ensures GrantsOk(cfg, h, id, n')
  {
    forall g, g', w, w' | Said(h, n', g) && Said(h, n', g') && IsGrant(g, id, w) && IsGrant(g', id, w')
      ensures !CompareLeaders(cfg.mode, w, w').Incomparable?
    {
      SaidPush(h, n, n', cmd, g);
      SaidPush(h, n, n', cmd, g');
    }
    forall g, a, w, v | Said(h, n', g) && Said(h, n', a) && IsGrant(g, id, w) && IsAck(a, id, v)
      ensures GrantAfterAck(cfg, h, a, w, v)
    {
      SaidPush(h, n, n', cmd, g);
      SaidPush(h, n, n', cmd, a);
    }
  }

  lemma PushPromises(cfg: Config, h: History, id: NodeId, n: Node, n': Node, cmd: Command)
    requires CoreOk(cfg, h, id, n)
    requires n'.disk == n.disk && n'.queue == n.queue + [cmd] && Mem(n') == Run(Mem(n), cmd)
    requires CanPush(cfg, h, id, n, cmd, Mem(n'))
    ensures PromisesOk(cfg, h, id, n')
  {
    StoreAtEnd(n);
    forall k | 0 <= k <= |n'.queue|
      ensures OwnVotesHold(cfg, h, id, StoreAt(n', k))
    {
      StoreAtPush(n, n', cmd, k);
    }
    forall m, k | m in h.msgs && 0 <= k <= |n'.queue|
      ensures Promise(cfg, h, id, m, StoreAt(n', k))
    {
      StoreAtPush(n, n', cmd, k);
      assert Said(h, n, m);
    }
    forall j, k | 0 <= j < |n'.queue| && n'.queue[j].Send? && j <= k <= |n'.queue|
      ensures Promise(cfg, h, id, n'.queue[j].msg, StoreAt(n', k))
    {
      StoreAtPush(n, n', cmd, k);
      if j < |n.queue| {
        assert n'.queue[j] == n.queue[j];
        assert Said(h, n, n.queue[j].msg);
      } else if k < |n'.queue| {
        // A message does not change storage.
        StoreAtPush(n, n', cmd, |n'.queue|);
        assert cmd.Send?;
        assert StoreAt(n', k) == Mem(n) == Mem(n');
      }
    }
  }

  lemma PushStores(cfg: Config, h: History, id: NodeId, n: Node, n': Node, cmd: Command)
    requires CoreOk(cfg, h, id, n)
    requires n'.disk == n.disk && n'.queue == n.queue + [cmd] && Mem(n') == Run(Mem(n), cmd)
    requires StoreOk(cfg, h, id, Mem(n')) && VoteLe(cfg.mode, n.vote, n'.vote)
    ensures StoresOk(cfg, h, id, n') && VotesRise(cfg, n') && Mem(n') == Replay(n'.disk, n'.queue)
  {
    StoreAtEnd(n);
    StoreAtEnd(n');
    StoreAtPush(n, n', cmd, |n'.queue|);
    forall k | 0 <= k <= |n'.queue|
      ensures StoreOk(cfg, h, id, StoreAt(n', k)) && VoteLe(cfg.mode, StoreAt(n', k).vote, n'.vote)
    {
      StoreAtPush(n, n', cmd, k);
      if k <= |n.queue| {
        VoteOrderIsPartialOrder(cfg.mode, StoreAt(n, k).vote, n.vote, n'.vote);
      }
    }
    forall j, k | 0 <= j < k <= |n'.queue| && n'.queue[j].SaveVote?
      ensures VoteLe(cfg.mode, n'.queue[j].vote, StoreAt(n', k).vote)
    {
      StoreAtPush(n, n', cmd, k);
      if j < |n.queue| {
        assert n'.queue[j] == n.queue[j];
        VoteOrderIsPartialOrder(cfg.mode, n.queue[j].vote, n.vote, n'.vote);
      }
    }
  }

  lemma PushOk(cfg: Config, h: History, id: NodeId, n: Node, n': Node, cmd: Command)
    requires CoreOk(cfg, h, id, n)
    requires n'.disk == n.disk && n'.queue == n.queue + [cmd] && Mem(n') == Run(Mem(n), cmd)
    requires CanPush(cfg, h, id, n, cmd, Mem(n'))
    ensures CoreOk(cfg, h, id, n')
  {
    PushStores(cfg, h, id, n, n', cmd);
    PushPromises(cfg, h, id, n, n', cmd);
    PushGrants(cfg, h, id, n, n', cmd);
    forall j | 0 <= j < |n'.queue| && n'.queue[j].Send?
      ensures MsgOk(cfg, h, id, n'.queue[j].msg) && TellsOk(cfg, h, n'.queue[j].msg, StoreAt(n', j))
    {
      StoreAtPush(n, n', cmd, j);
      StoreAtEnd(n);
      if j < |n.queue| {
        assert n'.queue[j] == n.queue[j];
      }
    }
  }

  /** A step that replaces one node and extends the history. */
  lemma InvOf(cfg: Config, s: Cluster, h': History, id: NodeId, n': Node)
    requires id in s.nodes && HistoryOk(cfg, h') && NodeOk(cfg, h', id, n')
    requires forall m :: m in h'.msgs ==> Sender(m) in s.nodes
    requires forall y :: y in s.nodes && y != id ==> NodeOk(cfg, h', y, s.nodes[y])
    ensures Inv(cfg, Cluster(s.nodes[id := n'], h'))
  {
  }
}
