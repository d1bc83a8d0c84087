/** A cluster of nodes as a step system. Messages are never removed once sent, so any of them may be
    delivered late, repeatedly or not at all. */
module RaftCluster {
  import opened Basics
  import opened Votes
  import opened Quorums
  import opened RaftNode

  /** The messages sent so far, and what is remembered of past elections: `saved` holds the leader ids of
      the votes ever saved by a node, `asked` maps a candidate to the last log id it asked votes with,
      `leaders` holds the leaders ever established, and `bases` maps a committed leader id to the log its
      leader had when it was established. */
  datatype History = History(
    msgs: set<Msg>,
    saved: set<LeaderId>,
    asked: map<LeaderId, Option<LogId>>,
    leaders: set<LeaderId>,
    bases: map<LeaderId, Log>)

  datatype Cluster = Cluster(nodes: map<NodeId, Node>, h: History)

  datatype Step =
    | ElectStep(id: NodeId)
    | WriteStep(id: NodeId, count: nat)
    | VoteReqStep(id: NodeId, msg: Msg, leased: bool)
    | VoteRespStep(id: NodeId, msg: Msg)
    | ReplicateStep(id: NodeId, start: nat, count: nat)
    | AppendReqStep(id: NodeId, msg: Msg)
    | AppendRespStep(id: NodeId, msg: Msg)
    | CommitStep(id: NodeId, index: nat, acks: set<NodeId>)
    | RunStep(id: NodeId)
    | RefuseStep(id: NodeId, pos: nat)
    | CrashStep(id: NodeId, keepCommitted: bool)

  /** Node `id` has acknowledged the log of leader `l` up to `index` or further. */
  predicate Acked(h: History, id: NodeId, l: LeaderId, index: nat) {
    exists m :: m in h.msgs && IsAck(m, id, l) && index <= m.res.last.value.index
  }

  predicate IsAck(m: Msg, id: NodeId, l: LeaderId) {
    m.AppendResp? && m.src == id && m.req == l && m.res.Success? && m.res.last.Some?
  }

  /** A reply that promises nothing about the log. */
  predicate IsRefusal(m: Msg) {
    (m.VoteResp? && !m.granted) || (m.AppendResp? && !m.res.Success?)
  }

  /** A refusal is not held back by entries that are not flushed yet. */
  predicate MayRefuse(n: Node, pos: nat) {
    pos < |n.queue| && n.queue[pos].Send? && IsRefusal(n.queue[pos].msg)
    && forall i :: 0 <= i < pos ==> n.queue[i].AppendEntries? || n.queue[i].Send?
  }

  predicate Enabled(cfg: Config, s: Cluster, step: Step) {
    step.id in s.nodes &&
    var n := s.nodes[step.id];
    match step
    case ElectStep(id) => IsVoter(cfg, id)
    case WriteStep(id, _) =>
      // A leader writes only while its own vote is not below the local one.
      n.leader.Some? && VoteLe(cfg.mode, n.vote, Vote(n.leader.value.leader, true))
    case VoteReqStep(id, m, _) =>
      m in s.h.msgs && m.VoteReq? && IsVoter(cfg, id) && m.leader.node.Some? && m.leader.node != Some(id)
    case VoteRespStep(id, m) => m in s.h.msgs && m.VoteResp? && m.dst == id
    case ReplicateStep(id, start, count) => n.leader.Some? && start + count <= |n.log|
    case AppendReqStep(id, m) =>
      m in s.h.msgs && m.AppendReq? && m.leader.node.Some? && m.leader.node != Some(id)
    case AppendRespStep(id, m) =>
      m in s.h.msgs && m.AppendResp? && m.dst == id && m.res.HigherVote?
      && n.leader.Some? && m.req == n.leader.value.leader
    case CommitStep(id, index, acks) =>
      n.leader.Some? && index < |n.log| && IsQuorum(cfg.configs, acks)
      && (forall a :: a in acks ==> Acked(s.h, a, n.leader.value.leader, index))
    case RunStep(_) => |n.queue| > 0
    case RefuseStep(_, pos) => MayRefuse(n, pos)
    case CrashStep(_, _) => true
  }

  /** The step writes node `n` back in place of node `id`. */
  function With(s: Cluster, id: NodeId, n: Node): Cluster {
    s.(nodes := s.nodes[id := n])
  }

  function Say(s: Cluster, m: Msg): Cluster {
    s.(h := s.h.(msgs := s.h.msgs + {m}))
  }

  /** The history after node `id`, about to be `n`, hears a vote reply: a won election is remembered. */
  function Elected(cfg: Config, h: History, n: Node, m: Msg): History
    requires m.VoteResp?
  {
    if WinsElection(cfg, n, m.src, m.req, m.vote, m.granted)
       && (n.leader.None?
           || VoteLt(cfg.mode, Vote(n.leader.value.leader, true), Vote(n.candidate.value.leader, false)))
    then
      var l := n.candidate.value.leader;
      h.(leaders := h.leaders + {l}, bases := h.bases[ToCommitted(cfg.mode, l) := n.log])
    else h
  }

  function ReplicateMsg(n: Node, start: nat, count: nat): Msg
    requires n.leader.Some? && start + count <= |n.log|
  {
    var prev := if start == 0 then None else Some(LogId(n.log[start - 1], start - 1));
    AppendReq(n.leader.value.leader, prev, n.log[start..start + count], n.committed)
  }

  function Next(cfg: Config, s: Cluster, step: Step): Cluster
    requires Enabled(cfg, s, step)
  {
    var n := s.nodes[step.id];
    match step
    case ElectStep(id) =>
      var n' := Elect(cfg, id, n);
      With(s, id, n').(h := s.h.(asked := s.h.asked[n'.vote.leader := LastId(n.log)]))
    case WriteStep(id, count) => With(s, id, LeaderAppend(cfg, id, n, n.leader.value, count))
    case VoteReqStep(id, m, leased) =>
      With(s, id, HandleVoteReq(cfg, id, n, m.leader.node.value, m.leader, m.last, leased))
    case VoteRespStep(id, m) =>
      With(s, id, HandleVoteResp(cfg, id, n, m.src, m.req, m.vote, m.granted)).(h := Elected(cfg, s.h, n, m))
    case ReplicateStep(id, start, count) => Say(s, ReplicateMsg(n, start, count))
    case AppendReqStep(id, m) =>
      With(s, id, HandleAppendReq(cfg, id, n, m.leader.node.value, m.leader, m.prev, m.entries, m.commit))
    case AppendRespStep(id, m) => With(s, id, UpdateVote(cfg, id, n, m.res.vote).1)
    case CommitStep(id, index, _) => With(s, id, LeaderCommit(cfg, n, index))
    case RunStep(id) =>
      var cmd := n.queue[0];
      var s' := With(s, id, n.(disk := Run(n.disk, cmd), queue := n.queue[1..]));
      if cmd.Send? then Say(s', cmd.msg)
      else if cmd.SaveVote? then s'.(h := s.h.(saved := s.h.saved + {cmd.vote.leader}))
      else s'
    case RefuseStep(id, pos) =>
      Say(With(s, id, n.(queue := n.queue[..pos] + n.queue[pos + 1..])), n.queue[pos].msg)
    case CrashStep(id, keep) => With(s, id, Restart(cfg, id, n, keep))
  }

  /** The committed leader id of the entry that initializes a cluster. */
  function Genesis(cfg: Config): LeaderId {
    ToCommitted(cfg.mode, DefaultLeader(cfg.mode))
  }

  /** A pristine node: the minimal vote, and no log but possibly the initial membership entry. */
  predicate IsNew(cfg: Config, n: Node) {
    (n.log == [] || n.log == [Genesis(cfg)])
    && n == Node(DefaultVote(cfg.mode), n.log, None, None, None, None, [],
                 Store(DefaultVote(cfg.mode), n.log, None))
  }

  predicate Init(cfg: Config, s: Cluster) {
    |cfg.configs| > 0
    && (forall id :: id in s.nodes ==> IsNew(cfg, s.nodes[id]))
    && s.h == History({}, {}, map[], {}, map[Genesis(cfg) := []])
  }

  /** Every step of the run is enabled where it is taken. */
  predicate IsRun(cfg: Config, s: Cluster, steps: seq<Step>)
    decreases |steps|
  {
    |steps| == 0 || (Enabled(cfg, s, steps[0]) && IsRun(cfg, Next(cfg, s, steps[0]), steps[1..]))
  }

  /** The cluster after a run. */
  function After(cfg: Config, s: Cluster, steps: seq<Step>): Cluster
    requires IsRun(cfg, s, steps)
    decreases |steps|
  {
    if |steps| == 0 then s else After(cfg, Next(cfg, s, steps[0]), steps[1..])
  }

  // ---- what the theorems speak of ----

  /** Leader `term` has an entry of its own at `index` that a quorum acknowledged to it. */
  ghost predicate Chosen(cfg: Config, h: History, term: LeaderId, index: nat) {
    term in h.bases && |h.bases[term]| <= index
    && exists l, acks :: ToCommitted(cfg.mode, l) == term && AckedBy(cfg, h, l, index, acks)
  }

  ghost predicate AckedBy(cfg: Config, h: History, l: LeaderId, index: nat, acks: set<NodeId>) {
    l in h.leaders && IsQuorum(cfg.configs, acks) && forall a :: a in acks ==> Acked(h, a, l, index)
  }

  predicate Contains(log: Log, term: LeaderId, index: nat) {
    index < |log| && log[index] == term
  }
}
