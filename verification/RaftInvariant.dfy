/** The invariant of the step system. Everything that couples two nodes goes through the history, so the
    invariant is one predicate on the history and one on each node. */
module RaftInvariant {
  import opened Basics
  import opened Votes
  import opened Quorums
  import opened RaftNode
  import opened RaftCluster

  // ---- logs ----

  /** What leader `v` has, or would write, at index `j`: its base log first, its own entries after. */
  function At(bases: map<LeaderId, Log>, v: LeaderId, j: nat): LeaderId {
    if v in bases && j < |bases[v]| then bases[v][j] else v
  }

  /** An entry of leader `x` is never inside the base of `x`, and what precedes it is the log of `x`. */
  predicate LogOk(bases: map<LeaderId, Log>, log: Log) {
    (forall i :: 0 <= i < |log| ==> log[i] in bases && |bases[log[i]]| <= i)
    && (forall i, j :: 0 <= j <= i < |log| ==> log[j] == At(bases, log[i], j))
  }

  /** The first `n` entries of `log` are those of leader `v`. */
  predicate Follows(bases: map<LeaderId, Log>, log: Log, v: LeaderId, n: nat) {
    n <= |log| && forall j :: 0 <= j < n ==> log[j] == At(bases, v, j)
  }

  ghost predicate BasesOk(bases: map<LeaderId, Log>) {
    forall v :: v in bases ==> BaseOk(bases, v)
  }

  predicate BaseOk(bases: map<LeaderId, Log>, v: LeaderId)
    requires v in bases
  {
    LogOk(bases, bases[v]) && forall j :: 0 <= j < |bases[v]| ==> LeaderLt(bases[v][j], v)
  }

  // ---- votes, grants and acknowledgements ----

  /** A log under vote `b` may hold entries of leader `u`. */
  predicate Under(mode: Mode, u: LeaderId, b: Vote) {
    LeaderLt(u, VoteTerm(mode, b)) || (u == VoteTerm(mode, b) && b.committed)
  }

  /** Node `id` grants its vote to candidate `w`. */
  predicate IsGrant(m: Msg, id: NodeId, w: LeaderId) {
    m.VoteResp? && m.src == id && m.granted && m.vote == Vote(w, false) && w.node == Some(m.dst)
  }

  predicate Granted(h: History, id: NodeId, w: LeaderId) {
    exists m :: m in h.msgs && IsGrant(m, id, w)
  }

  predicate VoteKnown(cfg: Config, h: History, v: Vote) {
    (v.leader == DefaultLeader(cfg.mode) || v.leader in h.saved)
    && (v.committed ==> v.leader in h.leaders && v.leader.node.Some?)
  }

  /** A vote held by node `id`: its own candidacy may still be unsaved. */
  predicate VoteHeld(cfg: Config, h: History, id: NodeId, v: Vote) {
    VoteKnown(cfg, h, v) || (v.leader.node == Some(id) && !v.committed)
  }

  /** The vote a message tells its receiver. */
  function Carried(m: Msg): Option<Vote> {
    match m
    case VoteReq(w, _) => Some(Vote(w, false))
    case VoteResp(_, _, _, v, _, _) => Some(v)
    case AppendReq(_, _, _, _) => None
    case AppendResp(_, _, _, res) => if res.HigherVote? then Some(res.vote) else None
  }

  // ---- commitment ----

  /** A quorum-acknowledged entry of leader `x` at `j` covers index `i`. */
  ghost predicate Covers(cfg: Config, h: History, x: LeaderId, j: nat, i: nat) {
    Chosen(cfg, h, x, j) && i <= j
  }

  /** The committed id `c` lies on the log of some leader up to `v`, at or below a chosen entry. */
  ghost predicate CommitKnown(cfg: Config, h: History, c: Option<LogId>, v: LeaderId) {
    c.Some? ==>
      exists x, j :: Covers(cfg, h, x, j, c.value.index) && LeaderLe(x, v)
                     && c.value.leader == At(h.bases, x, c.value.index)
  }

  ghost predicate CommitOk(cfg: Config, h: History, st: Store) {
    st.committed.Some? ==>
      var c := st.committed.value;
      Contains(st.log, c.leader, c.index)
      && exists x, j :: Covers(cfg, h, x, j, c.index) && Under(cfg.mode, x, st.vote)
                        && Follows(h.bases, st.log, x, c.index + 1)
  }

  // ---- one state of one node's storage ----

  ghost predicate StoreOk(cfg: Config, h: History, id: NodeId, st: Store) {
    VoteHeld(cfg, h, id, st.vote)
    && LogOk(h.bases, st.log)
    && (forall j :: 0 <= j < |st.log| ==> LeaderLe(st.log[j], VoteTerm(cfg.mode, st.vote)))
    && CommitOk(cfg, h, st)
    && OwnOk(cfg, h, id, st)
  }

  /** A leader's own storage holds at least the log it was elected with, under its vote. */
  predicate OwnOk(cfg: Config, h: History, id: NodeId, st: Store) {
    st.vote.leader in h.leaders && st.vote.leader.node == Some(id) ==>
      var v := VoteTerm(cfg.mode, st.vote);
      v in h.bases && |h.bases[v]| <= |st.log| && Follows(h.bases, st.log, v, |st.log|)
  }

  /** Storage after the first `k` queued commands. */
  function StoreAt(n: Node, k: nat): Store
    requires k <= |n.queue|
  {
    Replay(n.disk, n.queue[..k])
  }

  function Mem(n: Node): Store {
    Store(n.vote, n.log, n.committed)
  }

  // ---- what a message promises about its sender's storage ----

  /** Leader `u`, later than `v`, was elected without the entry of `v` at `i`. */
  predicate Lacks(h: History, u: LeaderId, v: LeaderId, i: nat) {
    u in h.bases && LeaderLt(v, u) && !Contains(h.bases[u], v, i)
  }

  ghost predicate Overwritten(cfg: Config, h: History, v: LeaderId, i: nat, b: Vote) {
    exists u :: Lacks(h, u, v, i) && Under(cfg.mode, u, b)
  }

  /** An acknowledged entry stays until a later leader without it overwrites it. */
  ghost predicate AckHolds(cfg: Config, h: History, v: LeaderId, k: nat, st: Store) {
    v in h.bases &&
    forall i :: |h.bases[v]| <= i <= k ==> Contains(st.log, v, i) || Overwritten(cfg, h, v, i, st.vote)
  }

  ghost predicate Promise(cfg: Config, h: History, id: NodeId, m: Msg, st: Store) {
    match m
    case VoteReq(w, _) => w.node == Some(id) ==> VoteLe(cfg.mode, Vote(w, false), st.vote)
    case VoteResp(src, _, _, v, _, _) => src == id ==> VoteLe(cfg.mode, v, st.vote)
    case AppendReq(_, _, _, _) => true
    case AppendResp(src, _, req, res) =>
      src == id ==>
        match res
        case Success(last) =>
          VoteLe(cfg.mode, Vote(req, true), st.vote)
          && (last.Some? ==> AckHolds(cfg, h, ToCommitted(cfg.mode, req), last.value.index, st))
        case Conflict => true
        case HigherVote(v) => VoteLe(cfg.mode, v, st.vote)
  }

  // ---- what a message says, apart from its sender's storage ----

  ghost predicate SegmentOk(cfg: Config, h: History, m: Msg)
    requires m.AppendReq?
  {
    var v := ToCommitted(cfg.mode, m.leader);
    m.leader in h.leaders
    && (m.prev.Some? ==> m.prev.value.leader == At(h.bases, v, m.prev.value.index))
    && (forall j :: 0 <= j < |m.entries| ==> m.entries[j] == At(h.bases, v, NextIndex(m.prev) + j))
    && CommitKnown(cfg, h, m.commit, v)
  }

  /** `src` is the node that says `m`. */
  ghost predicate MsgOk(cfg: Config, h: History, src: NodeId, m: Msg) {
    match m
    case VoteReq(w, last) => w.node == Some(src) && w in h.asked && h.asked[w] == last
    case VoteResp(s, dst, req, v, _, granted) =>
      s == src
      && (granted && !v.committed && v.leader.node == Some(dst) ==>
            v.leader in h.asked && (dst == src || v.leader in h.saved))
    case AppendReq(l, _, _, _) => l.node == Some(src) && SegmentOk(cfg, h, m)
    case AppendResp(s, _, req, res) =>
      s == src &&
      match res
      case Success(last) =>
        req in h.leaders
        && (last.Some? ==> last.value.leader == At(h.bases, ToCommitted(cfg.mode, req), last.value.index))
      case Conflict => true
      case HigherVote(_) => true
  }

  function Sender(m: Msg): NodeId {
    match m
    case VoteReq(w, _) => if w.node.Some? then w.node.value else 0
    case AppendReq(l, _, _, _) => if l.node.Some? then l.node.value else 0
    case VoteResp(src, _, _, _, _, _) => src
    case AppendResp(src, _, _, _) => src
  }

  // ---- one node ----

  predicate Said(h: History, n: Node, m: Msg) {
    m in h.msgs || Send(m) in n.queue
  }

  /** The last log id `last` of a candidate guarantees that its log holds the entry of `v` at `i`. */
  predicate Secures(h: History, last: Option<LogId>, v: LeaderId, i: nat) {
    last.Some? && var x := last.value;
    (x.leader == v && i <= x.index)
    || (LeaderLt(v, x.leader) && x.leader in h.bases && Contains(h.bases[x.leader], v, i))
  }

  ghost predicate SecuredOrLost(cfg: Config, h: History, w: LeaderId, v: LeaderId, i: nat) {
    w in h.asked
    && (Secures(h, h.asked[w], v, i)
        || exists u :: Lacks(h, u, v, i) && LeaderLt(u, ToCommitted(cfg.mode, w)))
  }

  /** A node that acknowledged entries of `v` and grants a later candidate `w` has checked that `w` holds
      them, unless a leader in between had lost them already. */
  ghost predicate GrantAfterAck(cfg: Config, h: History, a: Msg, w: LeaderId, v: LeaderId)
    requires a.AppendResp? && a.res.Success? && a.res.last.Some?
  {
    var t := ToCommitted(cfg.mode, v);
    t in h.bases && LeaderLt(t, ToCommitted(cfg.mode, w)) ==>
      forall i :: |h.bases[t]| <= i <= a.res.last.value.index ==> SecuredOrLost(cfg, h, w, t, i)
  }

  ghost predicate GrantsOk(cfg: Config, h: History, id: NodeId, n: Node) {
    (forall g, g', w, w' :: Said(h, n, g) && Said(h, n, g') && IsGrant(g, id, w) && IsGrant(g', id, w')
       ==> !CompareLeaders(cfg.mode, w, w').Incomparable?)
    && (forall g, a, w, v :: Said(h, n, g) && Said(h, n, a) && IsGrant(g, id, w) && IsAck(a, id, v)
          ==> GrantAfterAck(cfg, h, a, w, v))
  }

  ghost predicate StoresOk(cfg: Config, h: History, id: NodeId, n: Node) {
    forall k :: 0 <= k <= |n.queue| ==> StoreOk(cfg, h, id, StoreAt(n, k))
  }

  /** Node `id` does not fall below the initial vote, nor below a vote for itself that was saved. */
  ghost predicate OwnVotesHold(cfg: Config, h: History, id: NodeId, st: Store) {
    VoteLe(cfg.mode, DefaultVote(cfg.mode), st.vote)
    && forall w :: w in h.saved && w.node == Some(id) ==> VoteLe(cfg.mode, Vote(w, false), st.vote)
  }

  ghost predicate PromisesOk(cfg: Config, h: History, id: NodeId, n: Node) {
    (forall k :: 0 <= k <= |n.queue| ==> OwnVotesHold(cfg, h, id, StoreAt(n, k)))
    && (forall m, k :: m in h.msgs && 0 <= k <= |n.queue| ==> Promise(cfg, h, id, m, StoreAt(n, k)))
    && (forall j, k :: 0 <= j < |n.queue| && n.queue[j].Send? && j <= k <= |n.queue|
          ==> Promise(cfg, h, id, n.queue[j].msg, StoreAt(n, k)))
  }

  /** No queued write is under a greater vote than the one the node holds, and a vote that is saved is
      never followed by a lower one. */
  ghost predicate VotesRise(cfg: Config, n: Node) {
    (forall k :: 0 <= k <= |n.queue| ==> VoteLe(cfg.mode, StoreAt(n, k).vote, n.vote))
    && (forall j, k :: 0 <= j < k <= |n.queue| && n.queue[j].SaveVote? ==>
          VoteLe(cfg.mode, n.queue[j].vote, StoreAt(n, k).vote))
  }

  ghost predicate SendsOk(cfg: Config, h: History, id: NodeId, n: Node) {
    VoteKnown(cfg, h, n.disk.vote)
    && forall j :: 0 <= j < |n.queue| && n.queue[j].Send? ==>
         MsgOk(cfg, h, id, n.queue[j].msg) && TellsOk(cfg, h, n.queue[j].msg, StoreAt(n, j))
  }

  /** A message tells a known vote, or the one its sender will have saved by then. */
  predicate TellsOk(cfg: Config, h: History, m: Msg, st: Store) {
    Carried(m).Some? ==> VoteKnown(cfg, h, Carried(m).value) || Carried(m).value == st.vote
  }

  /** Storage, the queue and the messages of one node. */
  ghost predicate CoreOk(cfg: Config, h: History, id: NodeId, n: Node) {
    Mem(n) == Replay(n.disk, n.queue)
    && StoresOk(cfg, h, id, n)
    && VotesRise(cfg, n)
    && PromisesOk(cfg, h, id, n)
    && SendsOk(cfg, h, id, n)
    && GrantsOk(cfg, h, id, n)
  }

  ghost predicate CandidateOk(cfg: Config, h: History, id: NodeId, n: Node) {
    n.candidate.Some? ==>
      var c := n.candidate.value;
      n.vote == Vote(c.leader, false)
      && c.leader.node == Some(id)
      && c.leader.term > 0
      && c.leader !in h.leaders
      && c.leader in h.asked && h.asked[c.leader] == c.last
      && c.last == LastId(n.log)
      && (forall g :: g in c.granters ==> Granted(h, g, c.leader))
      && (forall j :: 0 <= j < |n.log| ==> LeaderLt(n.log[j], ToCommitted(cfg.mode, c.leader)))
      && (forall k :: 0 <= k <= |n.queue| && StoreAt(n, k).vote.leader == c.leader ==>
            StoreAt(n, k).log == n.log)
  }

  ghost predicate LeaderOk(cfg: Config, h: History, id: NodeId, n: Node) {
    n.leader.Some? ==>
      var l := n.leader.value;
      var v := ToCommitted(cfg.mode, l.leader);
      l.leader in h.leaders
      && l.leader.node == Some(id)
      && v in h.bases && |h.bases[v]| <= |n.log| && Follows(h.bases, n.log, v, |n.log|)
      && l.last == LastId(n.log)
      && n.vote.leader.node == Some(id)
      && VoteLe(cfg.mode, Vote(l.leader, true), n.vote)
      && CommitKnown(cfg, h, n.committed, v)
  }

  ghost predicate AcceptedOk(cfg: Config, h: History, n: Node) {
    n.accepted.Some? ==>
      n.vote.committed
      && n.accepted.value.leader == At(h.bases, VoteTerm(cfg.mode, n.vote), n.accepted.value.index)
      && Follows(h.bases, n.log, VoteTerm(cfg.mode, n.vote), n.accepted.value.index + 1)
  }

  ghost predicate RolesOk(cfg: Config, h: History, id: NodeId, n: Node) {
    CandidateOk(cfg, h, id, n) && LeaderOk(cfg, h, id, n) && AcceptedOk(cfg, h, n)
  }

  ghost predicate NodeOk(cfg: Config, h: History, id: NodeId, n: Node) {
    CoreOk(cfg, h, id, n) && RolesOk(cfg, h, id, n)
  }

  // ---- the history ----

  ghost predicate ElectedBy(cfg: Config, h: History, l: LeaderId, q: set<NodeId>) {
    IsQuorum(cfg.configs, q) && forall a :: a in q ==> Granted(h, a, l)
  }

  ghost predicate EstablishedOk(cfg: Config, h: History, l: LeaderId) {
    l.term > 0 && l.node.Some?
    && ToCommitted(cfg.mode, l) in h.bases
    && l in h.asked && h.asked[l] == LastId(h.bases[ToCommitted(cfg.mode, l)])
    && exists q :: ElectedBy(cfg, h, l, q)
  }

  predicate AskedOk(cfg: Config, h: History, w: LeaderId)
    requires w in h.asked
  {
    w.term > 0 && w.node.Some?
    && (h.asked[w].Some? ==>
          h.asked[w].value.leader in h.bases
          && LeaderLt(h.asked[w].value.leader, ToCommitted(cfg.mode, w)))
  }

  ghost predicate HistoryOk(cfg: Config, h: History) {
    |cfg.configs| > 0
    && Genesis(cfg) in h.bases && h.bases[Genesis(cfg)] == []
    && BasesOk(h.bases)
    && (forall l :: l in h.leaders ==> EstablishedOk(cfg, h, l))
    && (forall v :: v in h.bases && v != Genesis(cfg) ==>
          exists l :: l in h.leaders && ToCommitted(cfg.mode, l) == v)
    && (forall w :: w in h.asked ==> AskedOk(cfg, h, w))
    && (forall m :: m in h.msgs ==> MsgOk(cfg, h, Sender(m), m))
    && (forall m :: m in h.msgs && Carried(m).Some? ==> VoteKnown(cfg, h, Carried(m).value))
  }

  ghost predicate Inv(cfg: Config, s: Cluster) {
    HistoryOk(cfg, s.h)
    && (forall m :: m in s.h.msgs ==> Sender(m) in s.nodes)
    && forall id :: id in s.nodes ==> NodeOk(cfg, s.h, id, s.nodes[id])
  }
}
