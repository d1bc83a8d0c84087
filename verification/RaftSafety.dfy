/** What follows from the invariant: one leader per term, log matching, leader completeness and agreement
    of committed logs. */
module RaftSafety {
  import opened Basics
  import opened Votes
  import opened Quorums
  import opened RaftNode
  import opened RaftCluster
  import opened RaftInvariant

  // ---- logs ----

  lemma FollowsFromMatch(bases: map<LeaderId, Log>, log: Log, v: LeaderId, k: nat)
    requires BasesOk(bases) && LogOk(bases, log) && v in bases
    requires k < |log| && log[k] == At(bases, v, k)
    ensures Follows(bases, log, v, k + 1)
  {
  }

  lemma FollowsIsOk(bases: map<LeaderId, Log>, log: Log, v: LeaderId)
    requires BasesOk(bases) && v in bases && Follows(bases, log, v, |log|)
    ensures LogOk(bases, log)
  {
  }

  lemma AtMonotone(bases: map<LeaderId, Log>, v: LeaderId, i: nat, j: nat)
    requires BasesOk(bases) && v in bases && i <= j
    ensures LeaderLe(At(bases, v, i), At(bases, v, j))
    ensures LeaderLe(At(bases, v, j), v)
  {
  }

  /** Log matching: two logs that agree at one index agree up to it. */
  lemma LogMatching(bases: map<LeaderId, Log>, a: Log, b: Log, k: nat, j: nat)
    requires LogOk(bases, a) && LogOk(bases, b)
    requires k < |a| && k < |b| && a[k] == b[k] && j <= k
    ensures a[j] == b[j]
  {
  }

  // ---- elections ----

  lemma QuorumMember(cfg: Config, h: History, l: LeaderId, q: set<NodeId>, l': LeaderId, q': set<NodeId>)
    returns (id: NodeId)
    requires |cfg.configs| > 0 && ElectedBy(cfg, h, l, q) && ElectedBy(cfg, h, l', q')
    ensures Granted(h, id, l) && Granted(h, id, l')
  {
    assert cfg.configs[0] in cfg.configs;
    id := QuorumsIntersect(cfg.configs, cfg.configs, cfg.configs[0], q, q');
  }

  lemma GrantMember(cfg: Config, h: History, l: LeaderId, l': LeaderId) returns (id: NodeId)
    requires HistoryOk(cfg, h) && l in h.leaders && l' in h.leaders
    ensures Granted(h, id, l) && Granted(h, id, l')
  {
    assert EstablishedOk(cfg, h, l) && EstablishedOk(cfg, h, l');
    var q :| ElectedBy(cfg, h, l, q);
    var q' :| ElectedBy(cfg, h, l', q');
    id := QuorumMember(cfg, h, l, q, l', q');
  }

  /** Two established leaders with one committed id are one leader. */
  lemma OneLeader(cfg: Config, s: Cluster, l: LeaderId, l': LeaderId)
    requires Inv(cfg, s) && l in s.h.leaders && l' in s.h.leaders
    requires ToCommitted(cfg.mode, l) == ToCommitted(cfg.mode, l')
    ensures l == l'
  {
    var id := GrantMember(cfg, s.h, l, l');
    SameGranter(cfg, s, id, l, l');
    assert EstablishedOk(cfg, s.h, l) && EstablishedOk(cfg, s.h, l');
  }

  lemma SameGranter(cfg: Config, s: Cluster, id: NodeId, w: LeaderId, w': LeaderId)
    requires Inv(cfg, s) && Granted(s.h, id, w) && Granted(s.h, id, w')
    ensures !CompareLeaders(cfg.mode, w, w').Incomparable?
  {
    var g :| g in s.h.msgs && IsGrant(g, id, w);
    var g' :| g' in s.h.msgs && IsGrant(g', id, w');
    assert Sender(g) == id;
    var n := s.nodes[id];
    assert NodeOk(cfg, s.h, id, n);
    assert Said(s.h, n, g) && Said(s.h, n, g');
  }

  lemma LeaderIsSaved(cfg: Config, h: History, l: LeaderId)
    requires HistoryOk(cfg, h) && l in h.leaders
    ensures l in h.saved && VoteKnown(cfg, h, Vote(l, true))
  {
    var id := GrantMember(cfg, h, l, l);
    var g :| g in h.msgs && IsGrant(g, id, l);
    assert EstablishedOk(cfg, h, l);
    assert Carried(g) == Some(Vote(l, false));
  }

  // ---- leader completeness ----

  lemma SecuredHolds(h: History, log: Log, v: LeaderId, i: nat)
    requires BasesOk(h.bases) && LogOk(h.bases, log)
    requires v in h.bases && |h.bases[v]| <= i
    requires Secures(h, LastId(log), v, i)
    ensures Contains(log, v, i)
  {
  }

  lemma AckGrantMember(cfg: Config, h: History, l: LeaderId, i: nat, acks: set<NodeId>, w: LeaderId)
    returns (id: NodeId, a: Msg, g: Msg)
    requires HistoryOk(cfg, h) && w in h.leaders && AckedBy(cfg, h, l, i, acks)
    ensures a in h.msgs && IsAck(a, id, l) && i <= a.res.last.value.index
    ensures g in h.msgs && IsGrant(g, id, w)
  {
    assert EstablishedOk(cfg, h, w);
    var q :| ElectedBy(cfg, h, w, q);
    assert cfg.configs[0] in cfg.configs;
    id := QuorumsIntersect(cfg.configs, cfg.configs, cfg.configs[0], acks, q);
    assert Acked(h, id, l, i) && Granted(h, id, w);
    a :| a in h.msgs && IsAck(a, id, l) && i <= a.res.last.value.index;
    g :| g in h.msgs && IsGrant(g, id, w);
  }

  /** The node two quorums share has checked that `w` holds the entry, or knows who lost it. */
  lemma SharedNodeSecures(cfg: Config, s: Cluster, v: LeaderId, i: nat, w: LeaderId)
    requires Inv(cfg, s) && Chosen(cfg, s.h, v, i) && w in s.h.leaders
    requires LeaderLt(v, ToCommitted(cfg.mode, w))
    ensures SecuredOrLost(cfg, s.h, w, v, i)
  {
    var l, acks :| ToCommitted(cfg.mode, l) == v && AckedBy(cfg, s.h, l, i, acks);
    var id, a, g := AckGrantMember(cfg, s.h, l, i, acks, w);
    assert Sender(g) == id;
    var n := s.nodes[id];
    assert NodeOk(cfg, s.h, id, n);
    assert Said(s.h, n, g) && Said(s.h, n, a);
    assert GrantAfterAck(cfg, s.h, a, w, l);
  }

  /** Leader completeness: an entry that a quorum acknowledged to its own leader is in the log of every
      later leader when that leader is established. */
  lemma {:induction false} Completeness(cfg: Config, s: Cluster, v: LeaderId, i: nat, u: LeaderId)
    requires Inv(cfg, s) && Chosen(cfg, s.h, v, i)
    requires u in s.h.bases && LeaderLt(v, u)
    ensures Contains(s.h.bases[u], v, i)
    decreases u.term, if u.node.Some? then u.node.value + 1 else 0
  {
    assert u != Genesis(cfg);
    var w :| w in s.h.leaders && ToCommitted(cfg.mode, w) == u;
    SharedNodeSecures(cfg, s, v, i, w);
    assert EstablishedOk(cfg, s.h, w);
    assert BaseOk(s.h.bases, u);
    if Secures(s.h, s.h.asked[w], v, i) {
      SecuredHolds(s.h, s.h.bases[u], v, i);
    } else {
      var x :| Lacks(s.h, x, v, i) && LeaderLt(x, u);
      Completeness(cfg, s, v, i, x);
      assert false;
    }
  }

  /** Leader completeness of a history, for use where the nodes do not matter. */
  ghost predicate Complete(cfg: Config, h: History) {
    forall v, i, u :: Chosen(cfg, h, v, i) && u in h.bases && LeaderLt(v, u) ==> Contains(h.bases[u], v, i)
  }

  lemma HistoryComplete(cfg: Config, s: Cluster)
    requires Inv(cfg, s)
    ensures Complete(cfg, s.h)
  {
    forall v, i, u | Chosen(cfg, s.h, v, i) && u in s.h.bases && LeaderLt(v, u)
      ensures Contains(s.h.bases[u], v, i)
    {
      Completeness(cfg, s, v, i, u);
    }
  }

  /** Up to a chosen entry, a later leader's log is that of the entry's leader. */
  lemma ChosenAgrees(cfg: Config, h: History, x: LeaderId, j: nat, v: LeaderId, i: nat)
    requires Complete(cfg, h) && BasesOk(h.bases)
    requires Chosen(cfg, h, x, j) && v in h.bases && LeaderLe(x, v) && i <= j
    ensures At(h.bases, v, i) == At(h.bases, x, i)
  {
  }
}
