/** The invariant of a node survives what happens elsewhere: new messages, votes saved and leaders
    established by others. */
module RaftGrowth {
  import opened Basics
  import opened Votes
  import opened RaftNode
  import opened RaftCluster
  import opened RaftInvariant
  import opened RaftCore

  /** Messages, leaders and their bases are only ever added. */
  ghost predicate Extends(h: History, h': History) {
    h.msgs <= h'.msgs && h.leaders <= h'.leaders
    && forall v :: v in h.bases ==> v in h'.bases && h'.bases[v] == h.bases[v]
  }

  ghost predicate Grows(h: History, h': History) {
    Extends(h, h') && h.saved <= h'.saved && h'.asked == h.asked
  }

  lemma ChosenGrows(cfg: Config, h: History, h': History, v: LeaderId, i: nat)
    requires Extends(h, h') && Chosen(cfg, h, v, i)
    ensures Chosen(cfg, h', v, i)
  {
    var l, acks :| ToCommitted(cfg.mode, l) == v && AckedBy(cfg, h, l, i, acks);
    forall a | a in acks
      ensures Acked(h', a, l, i)
    {
      var m :| m in h.msgs && IsAck(m, a, l) && i <= m.res.last.value.index;
      assert m in h'.msgs;
    }
    assert AckedBy(cfg, h', l, i, acks);
  }

  lemma GrantedGrows(h: History, h': History, id: NodeId, w: LeaderId)
    requires Grows(h, h') && Granted(h, id, w)
    ensures Granted(h', id, w)
  {
  }

  lemma CommitGrows(cfg: Config, h: History, h': History, st: Store)
    requires Extends(h, h') && CommitOk(cfg, h, st)
    ensures CommitOk(cfg, h', st)
  {
    if st.committed.Some? {
      var c := st.committed.value;
      var x, j :| Covers(cfg, h, x, j, c.index) && Under(cfg.mode, x, st.vote)
                  && Follows(h.bases, st.log, x, c.index + 1);
      ChosenGrows(cfg, h, h', x, j);
      assert Covers(cfg, h', x, j, c.index);
      assert Follows(h'.bases, st.log, x, c.index + 1);
    }
  }

  lemma CommitKnownGrows(cfg: Config, h: History, h': History, c: Option<LogId>, v: LeaderId)
    requires Grows(h, h') && CommitKnown(cfg, h, c, v)
    ensures CommitKnown(cfg, h', c, v)
  {
    if c.Some? {
      var x, j :| Covers(cfg, h, x, j, c.value.index) && LeaderLe(x, v)
                  && c.value.leader == At(h.bases, x, c.value.index);
      ChosenGrows(cfg, h, h', x, j);
      assert Covers(cfg, h', x, j, c.value.index);
    }
  }

  lemma LogGrows(h: History, h': History, log: Log)
    requires Grows(h, h') && LogOk(h.bases, log)
    ensures LogOk(h'.bases, log)
  {
  }

  lemma FollowsGrows(h: History, h': History, log: Log, v: LeaderId, n: nat)
    requires Grows(h, h') && v in h.bases && Follows(h.bases, log, v, n)
    ensures Follows(h'.bases, log, v, n)
  {
  }

  lemma StoreGrows(cfg: Config, h: History, h': History, id: NodeId, st: Store)
    requires Grows(h, h') && StoreOk(cfg, h, id, st)
    requires st.vote.leader in h'.leaders - h.leaders ==> OwnOk(cfg, h', id, st)
    ensures StoreOk(cfg, h', id, st)
  {
    CommitGrows(cfg, h, h', st);
    LogGrows(h, h', st.log);
    if st.vote.leader in h.leaders && st.vote.leader.node == Some(id) {
      FollowsGrows(h, h', st.log, VoteTerm(cfg.mode, st.vote), |st.log|);
    }
  }

  lemma PromiseGrows(cfg: Config, h: History, h': History, id: NodeId, m: Msg, st: Store)
    requires Grows(h, h') && Promise(cfg, h, id, m, st)
    ensures Promise(cfg, h', id, m, st)
  {
  }

  lemma MsgGrows(cfg: Config, h: History, h': History, src: NodeId, m: Msg)
    requires Grows(h, h') && MsgOk(cfg, h, src, m)
    requires forall l :: l in h.leaders ==> ToCommitted(cfg.mode, l) in h.bases
    ensures MsgOk(cfg, h', src, m)
  {
    if m.AppendReq? {
      CommitKnownGrows(cfg, h, h', m.commit, ToCommitted(cfg.mode, m.leader));
    }
  }

  lemma SecuredGrows(cfg: Config, h: History, h': History, w: LeaderId, v: LeaderId, i: nat)
    requires Grows(h, h') && SecuredOrLost(cfg, h, w, v, i)
    ensures SecuredOrLost(cfg, h', w, v, i)
  {
  }

  lemma GrantAfterAckGrows(cfg: Config, h: History, h': History, a: Msg, w: LeaderId, v: LeaderId)
    requires Grows(h, h') && a.AppendResp? && a.res.Success? && a.res.last.Some?
    requires ToCommitted(cfg.mode, v) in h.bases && GrantAfterAck(cfg, h, a, w, v)
    ensures GrantAfterAck(cfg, h', a, w, v)
  {
    var t := ToCommitted(cfg.mode, v);
    if LeaderLt(t, ToCommitted(cfg.mode, w)) {
      forall i | |h'.bases[t]| <= i <= a.res.last.value.index
        ensures SecuredOrLost(cfg, h', w, t, i)
      {
        SecuredGrows(cfg, h, h', w, t, i);
      }
    }
  }

  /** Message `m` promises nothing on behalf of node `id`. */
  predicate NotBy(m: Msg, id: NodeId) {
    match m
    case VoteReq(w, _) => w.node != Some(id)
    case VoteResp(src, _, _, _, _, _) => src != id
    case AppendReq(_, _, _, _) => true
    case AppendResp(src, _, _, _) => src != id
  }

  /** The growth of the history leaves node `n` alone. */
  ghost predicate Quiet(cfg: Config, h: History, h': History, id: NodeId, n: Node) {
    Grows(h, h')
    && (forall m :: m in h'.msgs - h.msgs ==> NotBy(m, id))
    && (forall w :: w in h'.saved - h.saved && w.node == Some(id) ==> w == DefaultLeader(cfg.mode))
    && (forall k :: 0 <= k <= |n.queue| && StoreAt(n, k).vote.leader in h'.leaders - h.leaders ==>
          OwnOk(cfg, h', id, StoreAt(n, k)))
  }

  lemma SaidGrows(h: History, h': History, id: NodeId, n: Node, m: Msg)
    requires forall m :: m in h'.msgs - h.msgs ==> NotBy(m, id)
    requires Said(h', n, m) && !NotBy(m, id)
    ensures Said(h, n, m)
  {
  }

  lemma GrantsGrow(cfg: Config, h: History, h': History, id: NodeId, n: Node)
    requires HistoryOk(cfg, h) && CoreOk(cfg, h, id, n) && Quiet(cfg, h, h', id, n)
    ensures GrantsOk(cfg, h', id, n)
  {
    forall g, g', w, w' | Said(h', n, g) && Said(h', n, g') && IsGrant(g, id, w) && IsGrant(g', id, w')
      ensures !CompareLeaders(cfg.mode, w, w').Incomparable?
    {
      SaidGrows(h, h', id, n, g);
      SaidGrows(h, h', id, n, g');
    }
    forall g, a, w, v | Said(h', n, g) && Said(h', n, a) && IsGrant(g, id, w) && IsAck(a, id, v)
      ensures GrantAfterAck(cfg, h', a, w, v)
    {
      SaidGrows(h, h', id, n, g);
      SaidGrows(h, h', id, n, a);
      AckedLeader(cfg, h, id, n, a, v);
      GrantAfterAckGrows(cfg, h, h', a, w, v);
    }
  }

  lemma AckedLeader(cfg: Config, h: History, id: NodeId, n: Node, a: Msg, v: LeaderId)
    requires HistoryOk(cfg, h) && CoreOk(cfg, h, id, n) && Said(h, n, a) && IsAck(a, id, v)
    ensures v in h.leaders && ToCommitted(cfg.mode, v) in h.bases
  {
    if a in h.msgs {
      assert MsgOk(cfg, h, Sender(a), a);
    } else {
      var j :| 0 <= j < |n.queue| && n.queue[j] == Send(a);
      assert n.queue[j].Send?;
    }
    assert EstablishedOk(cfg, h, v);
  }

  lemma PromisesGrow(cfg: Config, h: History, h': History, id: NodeId, n: Node)
    requires CoreOk(cfg, h, id, n) && Quiet(cfg, h, h', id, n)
    ensures PromisesOk(cfg, h', id, n)
  {
    forall m, k | m in h'.msgs && 0 <= k <= |n.queue|
      ensures Promise(cfg, h', id, m, StoreAt(n, k))
    {
      if m in h.msgs {
        PromiseGrows(cfg, h, h', id, m, StoreAt(n, k));
      } else {
        assert m in h'.msgs - h.msgs;
      }
    }
    forall j, k | 0 <= j < |n.queue| && n.queue[j].Send? && j <= k <= |n.queue|
      ensures Promise(cfg, h', id, n.queue[j].msg, StoreAt(n, k))
    {
      PromiseGrows(cfg, h, h', id, n.queue[j].msg, StoreAt(n, k));
    }
  }

  lemma CoreGrows(cfg: Config, h: History, h': History, id: NodeId, n: Node)
    requires HistoryOk(cfg, h) && CoreOk(cfg, h, id, n) && Quiet(cfg, h, h', id, n)
    ensures CoreOk(cfg, h', id, n)
  {
    forall k | 0 <= k <= |n.queue|
      ensures StoreOk(cfg, h', id, StoreAt(n, k))
    {
      StoreGrows(cfg, h, h', id, StoreAt(n, k));
    }
    PromisesGrow(cfg, h, h', id, n);
    GrantsGrow(cfg, h, h', id, n);
    assert forall l :: l in h.leaders ==> EstablishedOk(cfg, h, l);
    forall j | 0 <= j < |n.queue| && n.queue[j].Send?
      ensures MsgOk(cfg, h', id, n.queue[j].msg) && TellsOk(cfg, h', n.queue[j].msg, StoreAt(n, j))
    {
      MsgGrows(cfg, h, h', id, n.queue[j].msg);
    }
  }

  lemma RolesGrow(cfg: Config, h: History, h': History, id: NodeId, n: Node)
    requires HistoryOk(cfg, h) && NodeOk(cfg, h, id, n) && Grows(h, h')
    requires n.candidate.Some? ==> n.candidate.value.leader !in h'.leaders
    ensures RolesOk(cfg, h', id, n)
  {
    if n.candidate.Some? {
      forall g | g in n.candidate.value.granters
        ensures Granted(h', g, n.candidate.value.leader)
      {
        GrantedGrows(h, h', g, n.candidate.value.leader);
      }
    }
    if n.leader.Some? {
      var v := ToCommitted(cfg.mode, n.leader.value.leader);
      FollowsGrows(h, h', n.log, v, |n.log|);
      CommitKnownGrows(cfg, h, h', n.committed, v);
    }
    if n.accepted.Some? {
      MemHasPromises(cfg, h, id, n);
      assert EstablishedOk(cfg, h, n.vote.leader);
    }
  }

  lemma NodeGrows(cfg: Config, h: History, h': History, id: NodeId, n: Node)
    requires HistoryOk(cfg, h) && NodeOk(cfg, h, id, n) && Quiet(cfg, h, h', id, n)
    requires n.candidate.Some? ==> n.candidate.value.leader !in h'.leaders
    ensures NodeOk(cfg, h', id, n)
  {
    CoreGrows(cfg, h, h', id, n);
    RolesGrow(cfg, h, h', id, n);
  }
}
