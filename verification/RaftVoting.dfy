/** Accepting votes and leading keep the invariant of a node. */
module RaftVoting {
  import opened Basics
  import opened Votes
  import opened RaftNode
  import opened RaftCluster
  import opened RaftInvariant
  import opened RaftSafety
  import opened RaftCore

  // ---- a greater vote, the same log ----

  lemma AckHoldsUp(cfg: Config, h: History, v: LeaderId, k: nat, st: Store, b: Vote)
    requires AckHolds(cfg, h, v, k, st)
    requires VoteLe(cfg.mode, st.vote, b) && (st.vote.committed ==> st.vote.leader.node.Some?)
    ensures AckHolds(cfg, h, v, k, st.(vote := b))
  {
  }

  lemma PromisesUp(cfg: Config, h: History, id: NodeId, n: Node, st: Store, b: Vote)
    requires PromisesHold(cfg, h, id, n, st)
    requires VoteLe(cfg.mode, st.vote, b) && (st.vote.committed ==> st.vote.leader.node.Some?)
    ensures PromisesHold(cfg, h, id, n, st.(vote := b))
  {
    forall m | Said(h, n, m)
      ensures Promise(cfg, h, id, m, st.(vote := b))
    {
      assert Promise(cfg, h, id, m, st);
      if m.AppendResp? && m.src == id && m.res.Success? && m.res.last.Some? {
        AckHoldsUp(cfg, h, ToCommitted(cfg.mode, m.req), m.res.last.value.index, st, b);
      }
    }
  }

  lemma StoreUp(cfg: Config, h: History, id: NodeId, st: Store, b: Vote)
    requires StoreOk(cfg, h, id, st) && VoteLe(cfg.mode, st.vote, b)
    requires VoteHeld(cfg, h, id, b) && OwnOk(cfg, h, id, st.(vote := b))
    ensures StoreOk(cfg, h, id, st.(vote := b))
  {
  }

  lemma SaveVoteOk(cfg: Config, h: History, id: NodeId, n: Node, n': Node, b: Vote)
    requires CoreOk(cfg, h, id, n)
    requires n'.disk == n.disk && n'.queue == n.queue + [SaveVote(b)] && Mem(n') == Mem(n).(vote := b)
    requires VoteLe(cfg.mode, n.vote, b)
    requires VoteHeld(cfg, h, id, b) && OwnOk(cfg, h, id, Mem(n'))
    ensures CoreOk(cfg, h, id, n')
  {
    MemHasPromises(cfg, h, id, n);
    StoreUp(cfg, h, id, Mem(n), b);
    PromisesUp(cfg, h, id, n, Mem(n), b);
    PushOk(cfg, h, id, n, n', SaveVote(b));
  }

  // ---- a message that grants and acknowledges nothing ----

  lemma PlainSendOk(cfg: Config, h: History, id: NodeId, n: Node, m: Msg)
    requires CoreOk(cfg, h, id, n)
    requires MsgOk(cfg, h, id, m) && TellsOk(cfg, h, m, Mem(n)) && Promise(cfg, h, id, m, Mem(n))
    requires forall w :: !IsGrant(m, id, w)
    requires forall v :: !IsAck(m, id, v)
    ensures CoreOk(cfg, h, id, Push(n, Send(m)))
  {
    MemHasPromises(cfg, h, id, n);
    PushOk(cfg, h, id, n, Push(n, Send(m)), Send(m));
  }

  // ---- roles are not touched by the queue ----

  lemma RolesPush(cfg: Config, h: History, id: NodeId, n: Node, n': Node, cmd: Command)
    requires RolesOk(cfg, h, id, n) && CoreOk(cfg, h, id, n)
    requires n' == n.(queue := n.queue + [cmd]) && cmd.Send?
    ensures RolesOk(cfg, h, id, n')
  {
    if n.candidate.Some? {
      var c := n.candidate.value;
      forall k | 0 <= k <= |n'.queue| && StoreAt(n', k).vote.leader == c.leader
        ensures StoreAt(n', k).log == n'.log
      {
        StoreAtPush(n, n', cmd, k);
        StoreAtEnd(n);
      }
    }
  }

  // ---- following ----

  lemma FollowVoteOk(cfg: Config, h: History, id: NodeId, n: Node, v: Vote)
    requires NodeOk(cfg, h, id, n) && VoteKnown(cfg, h, v) && v.leader.node != Some(id)
    ensures NodeOk(cfg, h, id, UpdateVote(cfg, id, n, v).1)
  {
    if VoteLe(cfg.mode, n.vote, v) {
      var n0 := n.(vote := v, accepted := None);
      var n1 := Push(n0, SaveVote(v));
      var n2 := if v.committed then n1 else Push(n1, Send(VoteResp(id, id, v.leader, v, None, true)));
      if n.vote != v {
        SaveVoteOk(cfg, h, id, n, n1, v);
        if !v.committed {
          PlainSendOk(cfg, h, id, n1, VoteResp(id, id, v.leader, v, None, true));
        }
        CoreSame(cfg, h, id, n2, n2.(leader := None, candidate := None));
      } else {
        CoreSame(cfg, h, id, n, n.(leader := None, candidate := None));
      }
    }
  }

  lemma FollowVoteShape(cfg: Config, h: History, id: NodeId, n: Node, v: Vote)
    requires v.leader.node != Some(id)
    ensures var (ok, n') := UpdateVote(cfg, id, n, v);
            (ok <==> VoteLe(cfg.mode, n.vote, v))
            && (ok ==> n'.vote == v && n'.leader.None? && n'.candidate.None?)
            && n'.log == n.log && n'.committed == n.committed
            && (!ok ==> n' == n)
  {
  }

  // ---- leading ----

  lemma CommitExtend(cfg: Config, h: History, st: Store, es: Log)
    requires CommitOk(cfg, h, st)
    ensures CommitOk(cfg, h, st.(log := st.log + es))
  {
  }

  lemma PromisesExtend(cfg: Config, h: History, id: NodeId, n: Node, st: Store, es: Log)
    requires PromisesHold(cfg, h, id, n, st)
    ensures PromisesHold(cfg, h, id, n, st.(log := st.log + es))
  {
  }

  /** Entries of the leader whose vote the node holds may be written. */
  lemma AppendOk(cfg: Config, h: History, id: NodeId, n: Node, n': Node, es: Log)
    requires HistoryOk(cfg, h) && CoreOk(cfg, h, id, n) && n.vote.committed && n.vote.leader in h.leaders
    requires n'.disk == n.disk && n'.queue == n.queue + [AppendEntries(es)]
    requires Mem(n') == Mem(n).(log := n.log + es)
    requires Follows(h.bases, n'.log, VoteTerm(cfg.mode, n.vote), |n'.log|)
    ensures CoreOk(cfg, h, id, n')
  {
    var v := VoteTerm(cfg.mode, n.vote);
    assert EstablishedOk(cfg, h, n.vote.leader);
    MemHasPromises(cfg, h, id, n);
    FollowsIsOk(h.bases, n'.log, v);
    CommitExtend(cfg, h, Mem(n), es);
    PromisesExtend(cfg, h, id, n, Mem(n), es);
    forall j | 0 <= j < |n'.log|
      ensures LeaderLe(n'.log[j], v)
    {
      AtMonotone(h.bases, v, j, j);
    }
    PushOk(cfg, h, id, n, n', AppendEntries(es));
  }

  /** An acknowledgement under the vote the node holds meets no later grant. */
  lemma AckSendOk(cfg: Config, h: History, id: NodeId, n: Node, dst: NodeId, last: Option<LogId>)
    requires HistoryOk(cfg, h) && CoreOk(cfg, h, id, n) && n.vote.committed && n.vote.leader in h.leaders
    requires last.Some? ==> Follows(h.bases, n.log, VoteTerm(cfg.mode, n.vote), last.value.index + 1)
                            && last.value.leader == n.log[last.value.index]
    ensures CoreOk(cfg, h, id, Push(n, Send(AppendResp(id, dst, n.vote.leader, Success(last)))))
  {
    hide HistoryOk, GrantsOk, PromisesOk, StoresOk, SendsOk, VotesRise, LogOk, CommitOk, OwnOk;
    var m := AppendResp(id, dst, n.vote.leader, Success(last));
    LeaderHasBase(cfg, h, n.vote.leader);
    MemHasPromises(cfg, h, id, n);
    forall g, w, l | IsAck(m, id, l) && Said(h, n, g) && IsGrant(g, id, w)
      ensures GrantAfterAck(cfg, h, m, w, l)
    {
      assert Promise(cfg, h, id, g, Mem(n));
      AckUnderVote(cfg, h, m, w, n.vote);
    }
    AckIsHeld(cfg, h, id, n, dst, last);
    PushOk(cfg, h, id, n, Push(n, Send(m)), Send(m));
  }

  lemma LeaderHasBase(cfg: Config, h: History, l: LeaderId)
    requires HistoryOk(cfg, h) && l in h.leaders
    ensures ToCommitted(cfg.mode, l) in h.bases
  {
    assert EstablishedOk(cfg, h, l);
  }

  /** No candidate up to the node's vote comes after the leader of that vote. */
  lemma AckUnderVote(cfg: Config, h: History, m: Msg, w: LeaderId, v: Vote)
    requires m.AppendResp? && m.res.Success? && m.res.last.Some? && VoteLe(cfg.mode, Vote(w, false), v)
    ensures GrantAfterAck(cfg, h, m, w, v.leader)
  {
  }

  lemma AckIsHeld(cfg: Config, h: History, id: NodeId, n: Node, dst: NodeId, last: Option<LogId>)
    requires VoteTerm(cfg.mode, n.vote) in h.bases && n.vote.committed
    requires last.Some? ==> Follows(h.bases, n.log, VoteTerm(cfg.mode, n.vote), last.value.index + 1)
    ensures Promise(cfg, h, id, AppendResp(id, dst, n.vote.leader, Success(last)), Mem(n))
  {
    var v := VoteTerm(cfg.mode, n.vote);
    VoteOrderIsPartialOrder(cfg.mode, n.vote, n.vote, n.vote);
    if last.Some? {
      forall i | |h.bases[v]| <= i <= last.value.index
        ensures Contains(n.log, v, i)
      {
        assert n.log[i] == At(h.bases, v, i);
      }
    }
  }

  lemma AcceptedMax(cfg: Config, h: History, n: Node, last: Option<LogId>)
    requires AcceptedOk(cfg, h, n)
    requires last.Some? ==>
               n.vote.committed
               && last.value.leader == At(h.bases, VoteTerm(cfg.mode, n.vote), last.value.index)
               && Follows(h.bases, n.log, VoteTerm(cfg.mode, n.vote), last.value.index + 1)
    ensures AcceptedOk(cfg, h, n.(accepted := OptMax(n.accepted, last)))
  {
  }

  /** The node after the entries are queued, before they are acknowledged locally. */
  function LeaderWrite(n: Node, l: Leader, v: LeaderId, count: nat): Node
    requires count > 0
  {
    var last := Some(LogId(v, |n.log| + count - 1));
    var es := seq(count, _ => v);
    Push(n.(leader := Some(Leader(l.leader, last)), log := n.log + es, accepted := OptMax(n.accepted, last)),
         AppendEntries(es))
  }

  lemma LeaderWriteRoles(cfg: Config, h: History, id: NodeId, n: Node, l: Leader, count: nat)
    requires count > 0 && RolesOk(cfg, h, id, n) && n.candidate.None?
    requires n.leader == Some(l) && n.vote == Vote(l.leader, true)
    ensures RolesOk(cfg, h, id, LeaderWrite(n, l, VoteTerm(cfg.mode, n.vote), count))
    ensures var n' := LeaderWrite(n, l, VoteTerm(cfg.mode, n.vote), count);
            Follows(h.bases, n'.log, VoteTerm(cfg.mode, n.vote), |n'.log|)
  {
  }

  lemma LeaderAppendShape(cfg: Config, id: NodeId, n: Node, l: Leader, count: nat)
    requires count > 0 && l.last == LastId(n.log)
    ensures var n' := LeaderWrite(n, l, ToCommitted(cfg.mode, l.leader), count);
            LeaderAppend(cfg, id, n, l, count)
            == Push(n', Send(AppendResp(id, id, l.leader, Success(LastId(n'.log)))))
  {
  }

  lemma LeaderWriteOk(cfg: Config, h: History, id: NodeId, n: Node, l: Leader, count: nat)
    requires HistoryOk(cfg, h) && NodeOk(cfg, h, id, n) && count > 0
    requires n.leader == Some(l) && n.vote == Vote(l.leader, true)
    ensures NodeOk(cfg, h, id, LeaderWrite(n, l, VoteTerm(cfg.mode, n.vote), count))
    ensures var n' := LeaderWrite(n, l, VoteTerm(cfg.mode, n.vote), count);
            Follows(h.bases, n'.log, VoteTerm(cfg.mode, n.vote), |n'.log|)
  {
    var v := VoteTerm(cfg.mode, n.vote);
    var n' := LeaderWrite(n, l, v, count);
    assert n.candidate.None?;
    LeaderWriteRoles(cfg, h, id, n, l, count);
    AppendOk(cfg, h, id, n, n', seq(count, _ => v));
  }

  lemma AckOk(cfg: Config, h: History, id: NodeId, n: Node, dst: NodeId, last: Option<LogId>)
    requires HistoryOk(cfg, h) && NodeOk(cfg, h, id, n) && n.vote.committed && n.vote.leader in h.leaders
    requires last.Some? ==> Follows(h.bases, n.log, VoteTerm(cfg.mode, n.vote), last.value.index + 1)
                            && last.value.leader == n.log[last.value.index]
    ensures NodeOk(cfg, h, id, Push(n, Send(AppendResp(id, dst, n.vote.leader, Success(last)))))
  {
    var cmd := Send(AppendResp(id, dst, n.vote.leader, Success(last)));
    AckSendOk(cfg, h, id, n, dst, last);
    RolesPush(cfg, h, id, n, Push(n, cmd), cmd);
  }

  lemma LeaderAppendOk(cfg: Config, h: History, id: NodeId, n: Node, l: Leader, count: nat)
    requires HistoryOk(cfg, h) && NodeOk(cfg, h, id, n)
    requires n.leader == Some(l) && n.vote == Vote(l.leader, true)
    ensures NodeOk(cfg, h, id, LeaderAppend(cfg, id, n, l, count))
  {
    if count > 0 {
      var n' := LeaderWrite(n, l, VoteTerm(cfg.mode, n.vote), count);
      LeaderAppendShape(cfg, id, n, l, count);
      LeaderWriteOk(cfg, h, id, n, l, count);
      AckOk(cfg, h, id, n', id, LastId(n'.log));
    }
  }

  lemma CommitIsKnown(cfg: Config, h: History, st: Store, v: LeaderId)
    requires CommitOk(cfg, h, st)
    requires forall x :: Under(cfg.mode, x, st.vote) ==> LeaderLe(x, v)
    ensures CommitKnown(cfg, h, st.committed, v)
  {
  }

  lemma BecomeLeaderOk(cfg: Config, h: History, id: NodeId, n: Node)
    requires HistoryOk(cfg, h) && CoreOk(cfg, h, id, n) && AcceptedOk(cfg, h, n) && n.candidate.None?
    requires n.vote.leader.node == Some(id) && n.vote.committed
    requires n.leader.Some? && n.leader.value.leader == n.vote.leader ==> LeaderOk(cfg, h, id, n)
    ensures NodeOk(cfg, h, id, BecomeLeader(cfg, id, n))
  {
    hide HistoryOk, GrantsOk, PromisesOk, SendsOk, VotesRise, LastRun, LeaderAppend, LogOk, AcceptedOk;
    if n.leader.Some? && n.leader.value.leader == n.vote.leader {
    } else {
      var last := LastId(n.log);
      var n1 := n.(leader := Some(Leader(n.vote.leader, last)), accepted := OptMax(n.accepted, last));
      CoreSame(cfg, h, id, n, n1);
      NewLeaderRoles(cfg, h, id, n);
      MemOk(cfg, h, id, n);
      AckOk(cfg, h, id, n1, id, last);
      LeaderAppendOk(cfg, h, id, Push(n1, Send(AppendResp(id, id, n.vote.leader, Success(last)))), n1.leader.value, 1);
    }
  }

  lemma NewLeaderRoles(cfg: Config, h: History, id: NodeId, n: Node)
    requires CoreOk(cfg, h, id, n) && AcceptedOk(cfg, h, n) && n.candidate.None?
    requires n.vote.leader.node == Some(id) && n.vote.committed
    ensures RolesOk(cfg, h, id, n.(leader := Some(Leader(n.vote.leader, LastId(n.log))),
                                   accepted := OptMax(n.accepted, LastId(n.log))))
  {
    MemHasPromises(cfg, h, id, n);
    var v := VoteTerm(cfg.mode, n.vote);
    CommitIsKnown(cfg, h, Mem(n), v);
    AcceptedMax(cfg, h, n, LastId(n.log));
  }

  // ---- any vote that arrives ----

  /** A known vote for this node itself is not above what the node holds, but for the commitment. */
  lemma OwnVoteArrives(cfg: Config, h: History, id: NodeId, n: Node, v: Vote)
    requires CoreOk(cfg, h, id, n) && VoteKnown(cfg, h, v) && v.leader.node == Some(id)
    ensures VoteLe(cfg.mode, Vote(v.leader, false), n.vote)
  {
    MemHasPromises(cfg, h, id, n);
  }

  lemma OwnVoteOk(cfg: Config, h: History, id: NodeId, n: Node, v: Vote)
    requires HistoryOk(cfg, h) && NodeOk(cfg, h, id, n)
    requires VoteKnown(cfg, h, v) && v.leader.node == Some(id)
    ensures NodeOk(cfg, h, id, UpdateVote(cfg, id, n, v).1)
  {
    hide HistoryOk, GrantsOk, SendsOk, VotesRise, LogOk;
    OwnVoteArrives(cfg, h, id, n, v);
    if VoteLe(cfg.mode, n.vote, v) {
      if n.vote == v {
        if v.committed {
          BecomeLeaderOk(cfg, h, id, n);
        }
      } else {
        assert n.vote == Vote(v.leader, false) && v.committed;
        MemHasPromises(cfg, h, id, n);
        var n1 := Push(n.(vote := v, accepted := None), SaveVote(v));
        SaveVoteOk(cfg, h, id, n, n1, v);
        BecomeLeaderOk(cfg, h, id, n1);
      }
    }
  }

  lemma UpdateVoteOk(cfg: Config, h: History, id: NodeId, n: Node, v: Vote)
    requires HistoryOk(cfg, h) && NodeOk(cfg, h, id, n) && VoteKnown(cfg, h, v)
    ensures NodeOk(cfg, h, id, UpdateVote(cfg, id, n, v).1)
  {
    if v.leader.node == Some(id) {
      OwnVoteOk(cfg, h, id, n, v);
    } else {
      FollowVoteOk(cfg, h, id, n, v);
    }
  }

  lemma SendPlainOk(cfg: Config, h: History, id: NodeId, n: Node, m: Msg)
    requires NodeOk(cfg, h, id, n)
    requires MsgOk(cfg, h, id, m) && TellsOk(cfg, h, m, Mem(n)) && Promise(cfg, h, id, m, Mem(n))
    requires forall w :: !IsGrant(m, id, w)
    requires forall v :: !IsAck(m, id, v)
    ensures NodeOk(cfg, h, id, Push(n, Send(m)))
  {
    PlainSendOk(cfg, h, id, n, m);
    RolesPush(cfg, h, id, n, Push(n, Send(m)), Send(m));
  }
}
