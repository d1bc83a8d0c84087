/** Electing, granting votes and establishing leaders keep the invariant. */
module RaftElection {
  import opened Basics
  import opened Votes
  import opened Quorums
  import opened RaftNode
  import opened RaftCluster
  import opened RaftInvariant
  import opened RaftSafety
  import opened RaftCore
  import opened RaftVoting
  import opened RaftGrowth

  // ---- granting ----

  /** Comparing last log ids is enough: a candidate whose last id is not below the voter's holds what the
      voter's log holds, or some leader in between did not. */
  lemma LogCheckSecures(cfg: Config, h: History, log: Log, w: LeaderId, v: LeaderId, i: nat)
    requires BasesOk(h.bases) && LogOk(h.bases, log)
    requires w in h.asked && AskedOk(cfg, h, w) && OptLe(LastId(log), h.asked[w])
    requires v in h.bases && |h.bases[v]| <= i && Contains(log, v, i)
    ensures SecuredOrLost(cfg, h, w, v, i)
  {
  }

  lemma GrantSecures(cfg: Config, h: History, id: NodeId, n: Node, w: LeaderId, a: Msg, v: LeaderId)
    requires HistoryOk(cfg, h) && CoreOk(cfg, h, id, n) && n.vote == Vote(w, false)
    requires w in h.asked && OptLe(LastId(n.log), h.asked[w])
    requires Said(h, n, a) && IsAck(a, id, v)
    ensures GrantAfterAck(cfg, h, a, w, v)
  {
    var t := ToCommitted(cfg.mode, v);
    MemHasPromises(cfg, h, id, n);
    assert Promise(cfg, h, id, a, Mem(n));
    if t in h.bases && LeaderLt(t, ToCommitted(cfg.mode, w)) {
      forall i | |h.bases[t]| <= i <= a.res.last.value.index
        ensures SecuredOrLost(cfg, h, w, t, i)
      {
        if Contains(n.log, t, i) {
          LogCheckSecures(cfg, h, n.log, w, t, i);
        } else {
          var u :| Lacks(h, u, t, i) && Under(cfg.mode, u, n.vote);
          assert LeaderLt(u, ToCommitted(cfg.mode, w));
        }
      }
    }
  }

  lemma GrantSendOk(cfg: Config, h: History, id: NodeId, n: Node, w: LeaderId, m: Msg)
    requires HistoryOk(cfg, h) && CoreOk(cfg, h, id, n) && n.vote == Vote(w, false)
    requires w in h.asked && OptLe(LastId(n.log), h.asked[w])
    requires IsGrant(m, id, w) && (m.dst == id || w in h.saved)
    ensures CoreOk(cfg, h, id, Push(n, Send(m)))
  {
    MemHasPromises(cfg, h, id, n);
    forall g, w1, w2 | IsGrant(m, id, w1) && Said(h, n, g) && IsGrant(g, id, w2)
      ensures !CompareLeaders(cfg.mode, w1, w2).Incomparable?
    {
      assert Promise(cfg, h, id, g, Mem(n));
      assert VoteLe(cfg.mode, Vote(w2, false), Vote(w, false));
    }
    forall a, w1, v | IsGrant(m, id, w1) && Said(h, n, a) && IsAck(a, id, v)
      ensures GrantAfterAck(cfg, h, a, w1, v)
    {
      GrantSecures(cfg, h, id, n, w, a, v);
    }
    PushOk(cfg, h, id, n, Push(n, Send(m)), Send(m));
  }

  lemma HandleVoteReqOk(cfg: Config, h: History, id: NodeId, n: Node, m: Msg, leased: bool)
    requires HistoryOk(cfg, h) && NodeOk(cfg, h, id, n)
    requires m in h.msgs && m.VoteReq? && m.leader.node.Some? && m.leader.node != Some(id)
    ensures NodeOk(cfg, h, id, HandleVoteReq(cfg, id, n, m.leader.node.value, m.leader, m.last, leased))
  {
    var w, src := m.leader, m.leader.node.value;
    assert MsgOk(cfg, h, Sender(m), m) && Carried(m) == Some(Vote(w, false));
    if (n.vote.committed && leased) || !OptLe(LastId(n.log), m.last) {
      SendPlainOk(cfg, h, id, n, VoteResp(id, src, w, n.vote, LastId(n.log), false));
    } else {
      var (ok, n1) := UpdateVote(cfg, id, n, Vote(w, false));
      FollowVoteOk(cfg, h, id, n, Vote(w, false));
      FollowVoteShape(cfg, h, id, n, Vote(w, false));
      var r := VoteResp(id, src, w, n1.vote, LastId(n1.log), ok);
      if ok {
        GrantSendOk(cfg, h, id, n1, w, r);
        RolesPush(cfg, h, id, n1, Push(n1, Send(r)), Send(r));
      } else {
        SendPlainOk(cfg, h, id, n1, r);
      }
    }
  }

  // ---- standing for election ----

  /** Node `id` has said nothing that concerns candidate `w`. */
  ghost predicate Unheard(h: History, id: NodeId, n: Node, w: LeaderId) {
    forall m :: Said(h, n, m) ==> !IsGrant(m, id, w) && (m.VoteReq? ==> m.leader != w)
  }

  function Asks(h: History, w: LeaderId, last: Option<LogId>): History {
    h.(asked := h.asked[w := last])
  }

  lemma SecuredAsks(cfg: Config, h: History, w: LeaderId, last: Option<LogId>, w': LeaderId, v: LeaderId, i: nat)
    requires SecuredOrLost(cfg, h, w', v, i) && w' != w
    ensures SecuredOrLost(cfg, Asks(h, w, last), w', v, i)
  {
  }

  lemma GrantsAsk(cfg: Config, h: History, id: NodeId, n: Node, w: LeaderId, last: Option<LogId>)
    requires GrantsOk(cfg, h, id, n) && Unheard(h, id, n, w)
    ensures GrantsOk(cfg, Asks(h, w, last), id, n)
  {
    var h' := Asks(h, w, last);
    forall g, g', w1, w2 | Said(h', n, g) && Said(h', n, g') && IsGrant(g, id, w1) && IsGrant(g', id, w2)
      ensures !CompareLeaders(cfg.mode, w1, w2).Incomparable?
    {
      assert Said(h, n, g) && Said(h, n, g');
    }
    forall g, a, w', v | Said(h', n, g) && Said(h', n, a) && IsGrant(g, id, w') && IsAck(a, id, v)
      ensures GrantAfterAck(cfg, h', a, w', v)
    {
      assert Said(h, n, g) && Said(h, n, a);
      assert GrantAfterAck(cfg, h, a, w', v);
      var t := ToCommitted(cfg.mode, v);
      if t in h.bases && LeaderLt(t, ToCommitted(cfg.mode, w')) {
        forall i | |h.bases[t]| <= i <= a.res.last.value.index
          ensures SecuredOrLost(cfg, h', w', t, i)
        {
          SecuredAsks(cfg, h, w, last, w', t, i);
        }
      }
    }
  }

  lemma StoreAsks(cfg: Config, h: History, id: NodeId, w: LeaderId, last: Option<LogId>, st: Store)
    ensures StoreOk(cfg, Asks(h, w, last), id, st) == StoreOk(cfg, h, id, st)
  {
    var h' := Asks(h, w, last);
    assert forall x, j :: Chosen(cfg, h', x, j) == Chosen(cfg, h, x, j) by {
      forall x, j
        ensures Chosen(cfg, h', x, j) == Chosen(cfg, h, x, j)
      {
        ChosenAsks(cfg, h, w, last, x, j);
      }
    }
    assert forall x, j, i :: Covers(cfg, h', x, j, i) == Covers(cfg, h, x, j, i);
  }

  lemma ChosenAsks(cfg: Config, h: History, w: LeaderId, last: Option<LogId>, x: LeaderId, j: nat)
    ensures Chosen(cfg, Asks(h, w, last), x, j) == Chosen(cfg, h, x, j)
  {
    var h' := Asks(h, w, last);
    assert forall a, l :: Acked(h', a, l, j) == Acked(h, a, l, j);
    assert forall l, acks :: AckedBy(cfg, h', l, j, acks) == AckedBy(cfg, h, l, j, acks);
  }

  lemma PromiseAsks(cfg: Config, h: History, id: NodeId, w: LeaderId, last: Option<LogId>, m: Msg, st: Store)
    requires Promise(cfg, h, id, m, st)
    ensures Promise(cfg, Asks(h, w, last), id, m, st)
  {
  }

  lemma MsgAsks(cfg: Config, h: History, id: NodeId, w: LeaderId, last: Option<LogId>, m: Msg)
    requires MsgOk(cfg, h, id, m) && (m.VoteReq? ==> m.leader != w)
    ensures MsgOk(cfg, Asks(h, w, last), id, m)
  {
    if m.AppendReq? && m.commit.Some? {
      var v := ToCommitted(cfg.mode, m.leader);
      var c := m.commit;
      var x, j :| Covers(cfg, h, x, j, c.value.index) && LeaderLe(x, v)
                  && c.value.leader == At(h.bases, x, c.value.index);
      ChosenAsks(cfg, h, w, last, x, j);
      assert Covers(cfg, Asks(h, w, last), x, j, c.value.index);
    }
  }

  lemma CoreAsks(cfg: Config, h: History, id: NodeId, n: Node, w: LeaderId, last: Option<LogId>)
    requires CoreOk(cfg, h, id, n) && Unheard(h, id, n, w)
    ensures CoreOk(cfg, Asks(h, w, last), id, n)
  {
    var h' := Asks(h, w, last);
    forall k | 0 <= k <= |n.queue|
      ensures StoreOk(cfg, h', id, StoreAt(n, k)) && OwnVotesHold(cfg, h', id, StoreAt(n, k))
    {
      StoreAsks(cfg, h, id, w, last, StoreAt(n, k));
    }
    GrantsAsk(cfg, h, id, n, w, last);
    forall m, k | m in h'.msgs && 0 <= k <= |n.queue|
      ensures Promise(cfg, h', id, m, StoreAt(n, k))
    {
      PromiseAsks(cfg, h, id, w, last, m, StoreAt(n, k));
    }
    forall j, k | 0 <= j < |n.queue| && n.queue[j].Send? && j <= k <= |n.queue|
      ensures Promise(cfg, h', id, n.queue[j].msg, StoreAt(n, k))
    {
      PromiseAsks(cfg, h, id, w, last, n.queue[j].msg, StoreAt(n, k));
    }
    forall j | 0 <= j < |n.queue| && n.queue[j].Send?
      ensures MsgOk(cfg, h', id, n.queue[j].msg) && TellsOk(cfg, h', n.queue[j].msg, StoreAt(n, j))
    {
      assert Said(h, n, n.queue[j].msg);
      MsgAsks(cfg, h, id, w, last, n.queue[j].msg);
    }
  }

  lemma CommitKnownAsks(cfg: Config, h: History, w: LeaderId, last: Option<LogId>, c: Option<LogId>, v: LeaderId)
    requires CommitKnown(cfg, h, c, v)
    ensures CommitKnown(cfg, Asks(h, w, last), c, v)
  {
    if c.Some? {
      var x, j :| Covers(cfg, h, x, j, c.value.index) && LeaderLe(x, v)
                  && c.value.leader == At(h.bases, x, c.value.index);
      ChosenAsks(cfg, h, w, last, x, j);
      assert Covers(cfg, Asks(h, w, last), x, j, c.value.index);
    }
  }

  lemma RolesAsk(cfg: Config, h: History, id: NodeId, n: Node, w: LeaderId, last: Option<LogId>)
    requires RolesOk(cfg, h, id, n)
    requires n.candidate.Some? ==> n.candidate.value.leader != w
    ensures RolesOk(cfg, Asks(h, w, last), id, n)
  {
    var h' := Asks(h, w, last);
    assert forall g, x :: Granted(h', g, x) == Granted(h, g, x);
    if n.leader.Some? {
      CommitKnownAsks(cfg, h, w, last, n.committed, ToCommitted(cfg.mode, n.leader.value.leader));
    }
  }

  /** The leader id a node stands with is new to everybody. */
  lemma NewCandidate(cfg: Config, s: Cluster, id: NodeId)
    requires Inv(cfg, s) && id in s.nodes
    ensures var w := LeaderId(s.nodes[id].vote.leader.term + 1, Some(id));
            w !in s.h.saved && w !in s.h.leaders
            && (forall m :: m in s.h.msgs ==> Carried(m) != Some(Vote(w, false)))
            && (forall y :: y in s.nodes ==> Unheard(s.h, y, s.nodes[y], w))
  {
    hide LogOk, MsgOk, EstablishedOk;
    var n := s.nodes[id];
    var w := LeaderId(n.vote.leader.term + 1, Some(id));
    assert NodeOk(cfg, s.h, id, n);
    MemHasPromises(cfg, s.h, id, n);
    assert !VoteLe(cfg.mode, Vote(w, false), n.vote);
    assert w !in s.h.saved;
    if w in s.h.leaders {
      LeaderIsSaved(cfg, s.h, w);
    }
    assert forall m :: m in s.h.msgs && Carried(m).Some? ==> Carried(m).value.leader != w;
    forall y | y in s.nodes
      ensures Unheard(s.h, y, s.nodes[y], w)
    {
      UnheardBy(cfg, s, id, y, w);
    }
  }

  lemma UnheardBy(cfg: Config, s: Cluster, id: NodeId, y: NodeId, w: LeaderId)
    requires Inv(cfg, s) && id in s.nodes && y in s.nodes && w.node == Some(id)
    requires w !in s.h.saved && !VoteLe(cfg.mode, Vote(w, false), s.nodes[id].vote)
    requires forall m :: m in s.h.msgs && Carried(m).Some? ==> Carried(m).value.leader != w
    ensures Unheard(s.h, y, s.nodes[y], w)
  {
    var n := s.nodes[y];
    assert NodeOk(cfg, s.h, y, n);
    MemHasPromises(cfg, s.h, y, n);
    forall m | Said(s.h, n, m)
      ensures !IsGrant(m, y, w) && (m.VoteReq? ==> m.leader != w)
    {
      if m in s.h.msgs {
      } else {
        var j :| 0 <= j < |n.queue| && n.queue[j] == Send(m);
        assert n.queue[j].Send?;
        assert MsgOk(cfg, s.h, y, m);
        assert Promise(cfg, s.h, y, m, Mem(n));
      }
    }
  }

  lemma HistoryAsks(cfg: Config, h: History, w: LeaderId, last: Option<LogId>)
    requires HistoryOk(cfg, h) && AskedOk(cfg, Asks(h, w, last), w) && w !in h.leaders
    requires forall m :: m in h.msgs ==> Carried(m) != Some(Vote(w, false))
    ensures HistoryOk(cfg, Asks(h, w, last))
  {
    var h' := Asks(h, w, last);
    assert forall g, x :: Granted(h', g, x) == Granted(h, g, x);
    forall l | l in h'.leaders
      ensures EstablishedOk(cfg, h', l)
    {
      assert EstablishedOk(cfg, h, l);
      var q :| ElectedBy(cfg, h, l, q);
      assert ElectedBy(cfg, h', l, q);
    }
    forall x | x in h'.asked
      ensures AskedOk(cfg, h', x)
    {
      assert x != w ==> AskedOk(cfg, h, x);
    }
    forall m | m in h'.msgs
      ensures MsgOk(cfg, h', Sender(m), m)
    {
      assert MsgOk(cfg, h, Sender(m), m);
      MsgAsks(cfg, h, Sender(m), w, last, m);
    }
  }

  /** The node after it saved the vote for itself and granted it. */
  function SelfVoted(n: Node, id: NodeId, w: LeaderId): Node {
    var v := Vote(w, false);
    var n1 := n.(candidate := Some(Candidate(w, LastId(n.log), {})), vote := v, accepted := None);
    Push(Push(n1, SaveVote(v)), Send(VoteResp(id, id, w, v, None, true)))
  }

  lemma ElectShape(cfg: Config, id: NodeId, n: Node)
    ensures var w := LeaderId(n.vote.leader.term + 1, Some(id));
            Elect(cfg, id, n) == Push(SelfVoted(n, id, w), Send(VoteReq(w, LastId(n.log))))
  {
  }

  lemma SelfVotedOk(cfg: Config, h: History, id: NodeId, n: Node, w: LeaderId)
    requires HistoryOk(cfg, h) && CoreOk(cfg, h, id, n)
    requires w == LeaderId(n.vote.leader.term + 1, Some(id)) && w !in h.leaders
    requires w in h.asked && h.asked[w] == LastId(n.log)
    ensures CoreOk(cfg, h, id, SelfVoted(n, id, w))
  {
    var v := Vote(w, false);
    var n1 := n.(candidate := Some(Candidate(w, LastId(n.log), {})), vote := v, accepted := None);
    var n2 := Push(n1, SaveVote(v));
    SaveVoteOk(cfg, h, id, n, n2, v);
    GrantSendOk(cfg, h, id, n2, w, VoteResp(id, id, w, v, None, true));
  }

  lemma SelfVotedStores(cfg: Config, h: History, id: NodeId, n: Node, w: LeaderId, k: nat)
    requires CoreOk(cfg, h, id, n) && w == LeaderId(n.vote.leader.term + 1, Some(id))
    requires k <= |SelfVoted(n, id, w).queue| && StoreAt(SelfVoted(n, id, w), k).vote.leader == w
    ensures StoreAt(SelfVoted(n, id, w), k).log == n.log
  {
    hide GrantsOk, PromisesOk, StoresOk, SendsOk;
    var v := Vote(w, false);
    var n1 := n.(candidate := Some(Candidate(w, LastId(n.log), {})), vote := v, accepted := None);
    var n2 := Push(n1, SaveVote(v));
    var n3 := SelfVoted(n, id, w);
    StoreAtEnd(n);
    assert forall j :: 0 <= j <= |n.queue| ==> VoteLe(cfg.mode, StoreAt(n, j).vote, n.vote);
    assert forall j :: 0 <= j <= |n.queue| ==> StoreAt(n, j).vote.leader != w;
    StoreAtPush(n2, n3, n3.queue[|n2.queue|], k);
    StoreAtPush(n, n2, SaveVote(v), |n2.queue|);
    if k <= |n2.queue| {
      StoreAtPush(n, n2, SaveVote(v), k);
    }
  }

  lemma SelfVotedRoles(cfg: Config, h: History, id: NodeId, n: Node, w: LeaderId)
    requires HistoryOk(cfg, h) && CoreOk(cfg, h, id, n) && LeaderOk(cfg, h, id, n)
    requires w == LeaderId(n.vote.leader.term + 1, Some(id)) && w !in h.leaders
    requires w in h.asked && h.asked[w] == LastId(n.log)
    ensures RolesOk(cfg, h, id, SelfVoted(n, id, w))
  {
    var n' := SelfVoted(n, id, w);
    MemHasPromises(cfg, h, id, n);
    assert forall j :: 0 <= j < |n.log| ==> LeaderLe(n.log[j], VoteTerm(cfg.mode, n.vote));
    assert LeaderLt(VoteTerm(cfg.mode, n.vote), ToCommitted(cfg.mode, w));
    forall k | 0 <= k <= |n'.queue| && StoreAt(n', k).vote.leader == w
      ensures StoreAt(n', k).log == n'.log
    {
      SelfVotedStores(cfg, h, id, n, w, k);
    }
    if n.leader.Some? {
      VoteOrderIsPartialOrder(cfg.mode, Vote(n.leader.value.leader, true), n.vote, n'.vote);
    }
  }

  lemma ElectNodeOk(cfg: Config, h: History, id: NodeId, n: Node, w: LeaderId)
    requires HistoryOk(cfg, h) && CoreOk(cfg, h, id, n) && LeaderOk(cfg, h, id, n)
    requires w == LeaderId(n.vote.leader.term + 1, Some(id)) && w !in h.leaders
    requires w in h.asked && h.asked[w] == LastId(n.log)
    ensures NodeOk(cfg, h, id, Elect(cfg, id, n))
  {
    ElectShape(cfg, id, n);
    SelfVotedOk(cfg, h, id, n, w);
    SelfVotedRoles(cfg, h, id, n, w);
    SendPlainOk(cfg, h, id, SelfVoted(n, id, w), VoteReq(w, LastId(n.log)));
  }

  lemma ElectOk(cfg: Config, s: Cluster, id: NodeId)
    requires Inv(cfg, s) && Enabled(cfg, s, ElectStep(id))
    ensures Inv(cfg, Next(cfg, s, ElectStep(id)))
  {
    hide LeaderOk, VotesRise, GrantsOk;
    var n := s.nodes[id];
    var w, last := LeaderId(n.vote.leader.term + 1, Some(id)), LastId(n.log);
    var s' := Next(cfg, s, ElectStep(id));
    ElectShape(cfg, id, n);
    assert s'.h == Asks(s.h, w, last);
    NewCandidate(cfg, s, id);
    assert NodeOk(cfg, s.h, id, n);
    MemHasPromises(cfg, s.h, id, n);
    assert AskedOk(cfg, s'.h, w);
    HistoryAsks(cfg, s.h, w, last);
    forall y | y in s'.nodes
      ensures NodeOk(cfg, s'.h, y, s'.nodes[y])
    {
      CoreAsks(cfg, s.h, y, s.nodes[y], w, last);
      if y == id {
        ElectSelf(cfg, s.h, id, n, w, last);
      } else {
        RolesAsk(cfg, s.h, y, s.nodes[y], w, last);
      }
    }
  }

  lemma ElectSelf(cfg: Config, h: History, id: NodeId, n: Node, w: LeaderId, last: Option<LogId>)
    requires NodeOk(cfg, h, id, n) && HistoryOk(cfg, Asks(h, w, last))
    requires CoreOk(cfg, Asks(h, w, last), id, n)
    requires w == LeaderId(n.vote.leader.term + 1, Some(id)) && w !in h.leaders && last == LastId(n.log)
    ensures NodeOk(cfg, Asks(h, w, last), id, Elect(cfg, id, n))
  {
    RolesAsk(cfg, h, id, n, w, last);
    ElectNodeOk(cfg, Asks(h, w, last), id, n, w);
  }

  // ---- establishing a leader ----

  function Establishes(cfg: Config, h: History, w: LeaderId, log: Log): History {
    h.(leaders := h.leaders + {w}, bases := h.bases[ToCommitted(cfg.mode, w) := log])
  }

  /** A candidate with a quorum of grants is the first leader of its committed id. */
  lemma NewTerm(cfg: Config, s: Cluster, w: LeaderId, q: set<NodeId>)
    requires Inv(cfg, s) && ElectedBy(cfg, s.h, w, q)
    requires w !in s.h.leaders && w.term > 0 && w.node.Some?
    ensures ToCommitted(cfg.mode, w) !in s.h.bases
  {
    hide NodeOk, MsgOk, BasesOk, VoteKnown, AskedOk, ElectedBy, Granted;
    if ToCommitted(cfg.mode, w) in s.h.bases {
      var l :| l in s.h.leaders && ToCommitted(cfg.mode, l) == ToCommitted(cfg.mode, w);
      assert EstablishedOk(cfg, s.h, l);
      var q' :| ElectedBy(cfg, s.h, l, q');
      var y := QuorumMember(cfg, s.h, w, q, l, q');
      SameGranter(cfg, s, y, w, l);
    }
  }

  lemma EstablishGrows(cfg: Config, h: History, w: LeaderId, log: Log)
    requires ToCommitted(cfg.mode, w) !in h.bases
    ensures Grows(h, Establishes(cfg, h, w, log))
  {
  }

  lemma EstablishBases(cfg: Config, h: History, w: LeaderId, log: Log)
    requires HistoryOk(cfg, h) && LogOk(h.bases, log) && ToCommitted(cfg.mode, w) !in h.bases
    requires forall j :: 0 <= j < |log| ==> LeaderLt(log[j], ToCommitted(cfg.mode, w))
    ensures BasesOk(Establishes(cfg, h, w, log).bases)
  {
    var h' := Establishes(cfg, h, w, log);
    EstablishGrows(cfg, h, w, log);
    forall v | v in h'.bases
      ensures BaseOk(h'.bases, v)
    {
      if v == ToCommitted(cfg.mode, w) {
        LogGrows(h, h', log);
      } else {
        assert BaseOk(h.bases, v);
        LogGrows(h, h', h.bases[v]);
      }
    }
  }

  lemma EstablishLeaders(cfg: Config, h: History, w: LeaderId, log: Log, q: set<NodeId>)
    requires HistoryOk(cfg, h) && ToCommitted(cfg.mode, w) !in h.bases
    requires ElectedBy(cfg, h, w, q) && w in h.asked && h.asked[w] == LastId(log)
    ensures var h' := Establishes(cfg, h, w, log); forall l :: l in h'.leaders ==> EstablishedOk(cfg, h', l)
  {
    var h' := Establishes(cfg, h, w, log);
    EstablishGrows(cfg, h, w, log);
    assert forall g, x :: Granted(h', g, x) == Granted(h, g, x);
    assert AskedOk(cfg, h, w);
    forall l | l in h'.leaders
      ensures EstablishedOk(cfg, h', l)
    {
      if l == w {
        assert ElectedBy(cfg, h', w, q);
      } else {
        assert EstablishedOk(cfg, h, l);
        var p :| ElectedBy(cfg, h, l, p);
        assert ElectedBy(cfg, h', l, p);
      }
    }
  }

  lemma HistoryEstablishes(cfg: Config, h: History, w: LeaderId, log: Log, q: set<NodeId>)
    requires HistoryOk(cfg, h) && LogOk(h.bases, log) && ToCommitted(cfg.mode, w) !in h.bases
    requires forall j :: 0 <= j < |log| ==> LeaderLt(log[j], ToCommitted(cfg.mode, w))
    requires ElectedBy(cfg, h, w, q) && w in h.asked && h.asked[w] == LastId(log)
    ensures HistoryOk(cfg, Establishes(cfg, h, w, log))
  {
    hide LogOk, BaseOk;
    var h' := Establishes(cfg, h, w, log);
    EstablishGrows(cfg, h, w, log);
    EstablishBases(cfg, h, w, log);
    EstablishLeaders(cfg, h, w, log, q);
    assert forall l :: l in h.leaders ==> EstablishedOk(cfg, h, l);
    forall v | v in h'.bases && v != Genesis(cfg)
      ensures exists l :: l in h'.leaders && ToCommitted(cfg.mode, l) == v
    {
      if v == ToCommitted(cfg.mode, w) {
        assert w in h'.leaders;
      } else {
        var l :| l in h.leaders && ToCommitted(cfg.mode, l) == v;
        assert l in h'.leaders;
      }
    }
    forall m | m in h'.msgs
      ensures MsgOk(cfg, h', Sender(m), m)
    {
      MsgGrows(cfg, h, h', Sender(m), m);
    }
    forall x | x in h'.asked
      ensures AskedOk(cfg, h', x)
    {
      assert AskedOk(cfg, h, x);
    }
  }

  /** Everything but the winner is untouched by an election won elsewhere. */
  lemma OthersEstablish(cfg: Config, h: History, w: LeaderId, log: Log, id: NodeId, y: NodeId, n: Node)
    requires HistoryOk(cfg, h) && NodeOk(cfg, h, y, n) && ToCommitted(cfg.mode, w) !in h.bases
    requires w.node == Some(id) && y != id
    ensures NodeOk(cfg, Establishes(cfg, h, w, log), y, n)
  {
    var h' := Establishes(cfg, h, w, log);
    EstablishGrows(cfg, h, w, log);
    assert Quiet(cfg, h, h', y, n);
    NodeGrows(cfg, h, h', y, n);
  }

  lemma WinnerCore(cfg: Config, h: History, id: NodeId, n: Node)
    requires HistoryOk(cfg, h) && NodeOk(cfg, h, id, n) && n.candidate.Some?
    requires ToCommitted(cfg.mode, n.candidate.value.leader) !in h.bases
    ensures CoreOk(cfg, Establishes(cfg, h, n.candidate.value.leader, n.log), id, n)
    ensures CommitKnown(cfg, Establishes(cfg, h, n.candidate.value.leader, n.log), n.committed,
                        ToCommitted(cfg.mode, n.candidate.value.leader))
  {
    var w := n.candidate.value.leader;
    var v := ToCommitted(cfg.mode, w);
    var h' := Establishes(cfg, h, w, n.log);
    EstablishGrows(cfg, h, w, n.log);
    assert Follows(h'.bases, n.log, v, |n.log|);
    assert Quiet(cfg, h, h', id, n);
    CoreGrows(cfg, h, h', id, n);
    MemHasPromises(cfg, h, id, n);
    CommitIsKnown(cfg, h, Mem(n), v);
    CommitKnownGrows(cfg, h, h', n.committed, v);
  }

  /** The winner before it writes its first entry. */
  function Crowned(n: Node, c: Candidate): Node {
    var v := Vote(c.leader, true);
    Push(n.(candidate := None, leader := Some(Leader(c.leader, c.last)), vote := v, accepted := c.last),
         SaveVote(v))
  }

  lemma EstablishShape(cfg: Config, id: NodeId, n: Node, c: Candidate)
    requires n.vote == Vote(c.leader, false) && c.leader.node == Some(id)
    requires n.leader.Some? ==> VoteLt(cfg.mode, Vote(n.leader.value.leader, true), Vote(c.leader, false))
    ensures EstablishLeader(cfg, id, n, c)
            == LeaderAppend(cfg, id, Crowned(n, c), Leader(c.leader, c.last), 1)
  {
  }

  lemma CrownedOk(cfg: Config, h: History, id: NodeId, n: Node)
    requires HistoryOk(cfg, h) && NodeOk(cfg, h, id, n) && n.candidate.Some?
    requires ToCommitted(cfg.mode, n.candidate.value.leader) !in h.bases
    requires n.candidate.value.leader in h.saved
    ensures NodeOk(cfg, Establishes(cfg, h, n.candidate.value.leader, n.log), id, Crowned(n, n.candidate.value))
  {
    var c := n.candidate.value;
    var v := ToCommitted(cfg.mode, c.leader);
    var h' := Establishes(cfg, h, c.leader, n.log);
    var n' := Crowned(n, c);
    WinnerCore(cfg, h, id, n);
    assert Follows(h'.bases, n.log, v, |n.log|);
    SaveVoteOk(cfg, h', id, n, n', Vote(c.leader, true));
  }

  lemma WinnerOk(cfg: Config, h: History, id: NodeId, n: Node)
    requires HistoryOk(cfg, h) && NodeOk(cfg, h, id, n) && n.candidate.Some?
    requires ToCommitted(cfg.mode, n.candidate.value.leader) !in h.bases
    requires n.candidate.value.leader in h.saved
    requires HistoryOk(cfg, Establishes(cfg, h, n.candidate.value.leader, n.log))
    requires n.leader.Some? ==>
               VoteLt(cfg.mode, Vote(n.leader.value.leader, true), Vote(n.candidate.value.leader, false))
    ensures NodeOk(cfg, Establishes(cfg, h, n.candidate.value.leader, n.log), id,
                   EstablishLeader(cfg, id, n, n.candidate.value))
  {
    var c := n.candidate.value;
    CrownedOk(cfg, h, id, n);
    EstablishShape(cfg, id, n, c);
    LeaderAppendOk(cfg, Establishes(cfg, h, c.leader, n.log), id, Crowned(n, c), Leader(c.leader, c.last), 1);
  }

  /** A candidate that wins has its votes in the history. */
  lemma WinnerElected(cfg: Config, s: Cluster, id: NodeId, m: Msg)
    requires Inv(cfg, s) && Enabled(cfg, s, VoteRespStep(id, m))
    requires WinsElection(cfg, s.nodes[id], m.src, m.req, m.vote, m.granted)
    ensures var n := s.nodes[id];
            var w := n.candidate.value.leader;
            ToCommitted(cfg.mode, w) !in s.h.bases && w in s.h.saved && w.node == Some(id)
            && HistoryOk(cfg, Establishes(cfg, s.h, w, n.log))
  {
    hide LogOk, MsgOk, EstablishedOk;
    var n := s.nodes[id];
    var c := n.candidate.value;
    var q := c.granters + {m.src};
    assert NodeOk(cfg, s.h, id, n);
    assert IsGrant(m, m.src, c.leader);
    assert Granted(s.h, m.src, c.leader);
    assert ElectedBy(cfg, s.h, c.leader, q);
    assert Carried(m) == Some(Vote(c.leader, false));
    NewTerm(cfg, s, c.leader, q);
    MemHasPromises(cfg, s.h, id, n);
    HistoryEstablishes(cfg, s.h, c.leader, n.log, q);
  }

  lemma EstablishNext(cfg: Config, s: Cluster, id: NodeId, m: Msg)
    requires Enabled(cfg, s, VoteRespStep(id, m))
    requires WinsElection(cfg, s.nodes[id], m.src, m.req, m.vote, m.granted)
    requires s.nodes[id].leader.Some? ==>
               VoteLt(cfg.mode, Vote(s.nodes[id].leader.value.leader, true),
                      Vote(s.nodes[id].candidate.value.leader, false))
    ensures var n := s.nodes[id];
            Next(cfg, s, VoteRespStep(id, m))
            == Cluster(s.nodes[id := EstablishLeader(cfg, id, n, n.candidate.value)],
                       Establishes(cfg, s.h, n.candidate.value.leader, n.log))
  {
  }

  lemma EstablishOthers(cfg: Config, s: Cluster, id: NodeId, w: LeaderId, log: Log)
    requires Inv(cfg, s) && w.node == Some(id) && ToCommitted(cfg.mode, w) !in s.h.bases
    ensures forall y :: y in s.nodes && y != id ==> NodeOk(cfg, Establishes(cfg, s.h, w, log), y, s.nodes[y])
  {
    forall y | y in s.nodes && y != id
      ensures NodeOk(cfg, Establishes(cfg, s.h, w, log), y, s.nodes[y])
    {
      assert NodeOk(cfg, s.h, y, s.nodes[y]);
      OthersEstablish(cfg, s.h, w, log, id, y, s.nodes[y]);
    }
  }

  lemma EstablishOk(cfg: Config, s: Cluster, id: NodeId, m: Msg)
    requires Inv(cfg, s) && Enabled(cfg, s, VoteRespStep(id, m))
    requires WinsElection(cfg, s.nodes[id], m.src, m.req, m.vote, m.granted)
    requires s.nodes[id].leader.Some? ==>
               VoteLt(cfg.mode, Vote(s.nodes[id].leader.value.leader, true),
                      Vote(s.nodes[id].candidate.value.leader, false))
    ensures Inv(cfg, Next(cfg, s, VoteRespStep(id, m)))
  {
    var n := s.nodes[id];
    var c := n.candidate.value;
    var h' := Establishes(cfg, s.h, c.leader, n.log);
    WinnerElected(cfg, s, id, m);
    EstablishNext(cfg, s, id, m);
    assert NodeOk(cfg, s.h, id, n);
    WinnerOk(cfg, s.h, id, n);
    EstablishOthers(cfg, s, id, c.leader, n.log);
    InvOf(cfg, s, h', id, EstablishLeader(cfg, id, n, c));
  }

  lemma CountGrant(cfg: Config, h: History, id: NodeId, n: Node, m: Msg)
    requires NodeOk(cfg, h, id, n) && n.candidate.Some?
    requires m in h.msgs && m.VoteResp? && IsGrant(m, m.src, n.candidate.value.leader)
    ensures var c := n.candidate.value;
            NodeOk(cfg, h, id, n.(candidate := Some(c.(granters := c.granters + {m.src}))))
  {
    var c := n.candidate.value;
    var n' := n.(candidate := Some(c.(granters := c.granters + {m.src})));
    CoreSame(cfg, h, id, n, n');
    assert Granted(h, m.src, c.leader);
    assert forall k :: 0 <= k <= |n.queue| ==> StoreAt(n', k) == StoreAt(n, k);
  }

  lemma HandleVoteRespOk(cfg: Config, h: History, id: NodeId, n: Node, m: Msg)
    requires HistoryOk(cfg, h) && NodeOk(cfg, h, id, n)
    requires m in h.msgs && m.VoteResp? && m.dst == id
    requires Elected(cfg, h, n, m) == h
    requires WinsElection(cfg, n, m.src, m.req, m.vote, m.granted) ==>
               n.leader.Some?
               && !VoteLt(cfg.mode, Vote(n.leader.value.leader, true), Vote(n.candidate.value.leader, false))
    ensures NodeOk(cfg, h, id, HandleVoteResp(cfg, id, n, m.src, m.req, m.vote, m.granted))
  {
    if n.candidate.Some? && m.req == n.candidate.value.leader {
      var c := n.candidate.value;
      if m.granted && m.vote == Vote(c.leader, false) {
        if IsQuorum(cfg.configs, c.granters + {m.src}) {
          CoreSame(cfg, h, id, n, n.(candidate := None));
        } else {
          CountGrant(cfg, h, id, n, m);
        }
      } else {
        assert Carried(m) == Some(m.vote);
        UpdateVoteOk(cfg, h, id, n, m.vote);
      }
    }
  }
}
