/** One raft node: the engine's state, the commands it has queued for its storage and its peers,
    and what its storage already holds. Every handler is a function of the node. */
module RaftNode {
  import opened Basics
  import opened Votes
  import opened Quorums

  /** The log as the plain sequence of committed leader ids, indexed from 0. */
  type Log = seq<LeaderId>

  datatype Config = Config(mode: Mode, configs: seq<set<NodeId>>)

  predicate IsVoter(cfg: Config, id: NodeId) {
    exists i :: 0 <= i < |cfg.configs| && id in cfg.configs[i]
  }

  datatype AppendResult = Success(last: Option<LogId>) | Conflict | HigherVote(vote: Vote)

  /** What nodes tell each other. `VoteResp` and `AppendResp` name the vote of the request they answer. */
  datatype Msg =
    | VoteReq(leader: LeaderId, last: Option<LogId>)
    | VoteResp(src: NodeId, dst: NodeId, req: LeaderId, vote: Vote, last: Option<LogId>, granted: bool)
    | AppendReq(leader: LeaderId, prev: Option<LogId>, entries: Log, commit: Option<LogId>)
    | AppendResp(src: NodeId, dst: NodeId, req: LeaderId, res: AppendResult)

  /** Queued commands, run in order. A `Send` is a reply or request that waits until every write
      queued before it is flushed; only a refusal may go out before pending entries are. */
  datatype Command =
    | SaveVote(vote: Vote)
    | TruncateLog(since: nat)
    | AppendEntries(entries: Log)
    | SaveCommitted(committed: LogId)
    | Send(msg: Msg)

  /** What storage holds. */
  datatype Store = Store(vote: Vote, log: Log, committed: Option<LogId>)

  datatype Candidate = Candidate(leader: LeaderId, last: Option<LogId>, granters: set<NodeId>)

  datatype Leader = Leader(leader: LeaderId, last: Option<LogId>)

  datatype Node = Node(
    vote: Vote,
    log: Log,
    committed: Option<LogId>,
    accepted: Option<LogId>,
    candidate: Option<Candidate>,
    leader: Option<Leader>,
    queue: seq<Command>,
    disk: Store)

  function LastId(log: Log): Option<LogId> {
    if |log| == 0 then None else Some(LogId(log[|log| - 1], |log| - 1))
  }

  function Run(st: Store, cmd: Command): Store {
    match cmd
    case SaveVote(v) => st.(vote := v)
    case TruncateLog(since) => if since < |st.log| then st.(log := st.log[..since]) else st
    case AppendEntries(es) => st.(log := st.log + es)
    case SaveCommitted(c) => st.(committed := Some(c))
    case Send(_) => st
  }

  /** Storage after the whole queue has run. */
  function Replay(st: Store, queue: seq<Command>): Store {
    if |queue| == 0 then st else Run(Replay(st, queue[..|queue| - 1]), queue[|queue| - 1])
  }

  function Push(n: Node, cmd: Command): Node {
    n.(queue := n.queue + [cmd])
  }

  // ---- votes ----

  /** Accept a vote that is not below the local one, save it if it is greater, and follow it. A saved
      vote that is not committed is answered to the local candidate as well. */
  function UpdateVote(cfg: Config, id: NodeId, n: Node, v: Vote): (bool, Node) {
    if !VoteLe(cfg.mode, n.vote, v) then (false, n)
    else if n.vote == v then (true, UpdateServerState(cfg, id, n))
    else
      var n1 := Push(n.(vote := v, accepted := None), SaveVote(v));
      var n2 := if v.committed then n1 else Push(n1, Send(VoteResp(id, id, v.leader, v, None, true)));
      (true, UpdateServerState(cfg, id, n2))
  }

  function UpdateServerState(cfg: Config, id: NodeId, n: Node): Node {
    if n.vote.leader.node != Some(id) then n.(leader := None, candidate := None)
    else if n.vote.committed then BecomeLeader(cfg, id, n)
    else n
  }

  /** Where the run of the last leader's entries begins. */
  function LastRun(log: Log): (i: nat)
    requires |log| > 0
    ensures i < |log| && forall j :: i <= j < |log| ==> log[j] == log[|log| - 1]
    ensures i > 0 ==> log[i - 1] != log[i]
  {
    if |log| == 1 || log[|log| - 2] != log[|log| - 1] then |log| - 1 else LastRun(log[..|log| - 1])
  }

  /** The first log id of the leader under the node's vote: the one it proposed already, or will propose. */
  function NoopId(cfg: Config, n: Node): LogId {
    var term := VoteTerm(cfg.mode, n.vote);
    LogId(term, if |n.log| > 0 && n.log[|n.log| - 1] == term then LastRun(n.log) else |n.log|)
  }

  /** The vote is this node's own and committed. A leader that is already leading under it stays;
      otherwise leadership is restored from the local log, which the node acknowledges to itself, and a
      blank entry is proposed unless the log ends with an entry of this leader. */
  function BecomeLeader(cfg: Config, id: NodeId, n: Node): Node {
    if n.leader.Some? && n.leader.value.leader == n.vote.leader then n
    else
      var last := LastId(n.log);
      var n1 := n.(leader := Some(Leader(n.vote.leader, last)), accepted := OptMax(n.accepted, last));
      var n2 := Push(n1, Send(AppendResp(id, id, n.vote.leader, Success(last))));
      if OptLt(last, Some(NoopId(cfg, n))) then LeaderAppend(cfg, id, n2, n2.leader.value, 1) else n2
  }

  /** The leader assigns consecutive log ids after its own last one and writes the entries. Its last id is always that
      of its log (`RaftInvariant.LeaderOk`), so the entries always fit. */
  function LeaderAppend(cfg: Config, id: NodeId, n: Node, l: Leader, count: nat): Node {
    if count == 0 then n
    else
      var term := ToCommitted(cfg.mode, l.leader);
      var start := NextIndex(l.last);
      var es := seq(count, _ => term);
      var last := Some(LogId(term, start + count - 1));
      var n1 := n.(leader := Some(Leader(l.leader, last)),
                   log := if start == |n.log| then n.log + es else n.log,
                   accepted := OptMax(n.accepted, last));
      Push(Push(n1, AppendEntries(es)), Send(AppendResp(id, id, l.leader, Success(last))))
  }

  // ---- election ----

  function Elect(cfg: Config, id: NodeId, n: Node): Node {
    var leader := LeaderId(n.vote.leader.term + 1, Some(id));
    var last := LastId(n.log);
    var n1 := n.(candidate := Some(Candidate(leader, last, {})));
    var (_, n2) := UpdateVote(cfg, id, n1, Vote(leader, false));
    Push(n2, Send(VoteReq(leader, last)))
  }

  /** `leased` stands for a leader lease that has not expired. */
  function HandleVoteReq(cfg: Config, id: NodeId, n: Node, src: NodeId,
                         leader: LeaderId, last: Option<LogId>, leased: bool): Node
  {
    if n.vote.committed && leased then
      Push(n, Send(VoteResp(id, src, leader, n.vote, LastId(n.log), false)))
    else if !OptLe(LastId(n.log), last) then
      Push(n, Send(VoteResp(id, src, leader, n.vote, LastId(n.log), false)))
    else
      var (ok, n1) := UpdateVote(cfg, id, n, Vote(leader, false));
      Push(n1, Send(VoteResp(id, src, leader, n1.vote, LastId(n1.log), ok)))
  }

  /** Whether this reply completes the election. */
  predicate WinsElection(cfg: Config, n: Node, src: NodeId, req: LeaderId, vote: Vote, granted: bool) {
    n.candidate.Some?
    && req == n.candidate.value.leader
    && granted && vote == Vote(n.candidate.value.leader, false)
    && IsQuorum(cfg.configs, n.candidate.value.granters + {src})
  }

  function HandleVoteResp(cfg: Config, id: NodeId, n: Node, src: NodeId,
                          req: LeaderId, vote: Vote, granted: bool): Node
  {
    if n.candidate.None? || req != n.candidate.value.leader then n
    else
      var c := n.candidate.value;
      if granted && vote == Vote(c.leader, false) then
        if IsQuorum(cfg.configs, c.granters + {src}) then EstablishLeader(cfg, id, n, c)
        else n.(candidate := Some(c.(granters := c.granters + {src})))
      else UpdateVote(cfg, id, n, vote).1
  }

  function EstablishLeader(cfg: Config, id: NodeId, n: Node, c: Candidate): Node {
    var n0 := n.(candidate := None);
    if n.leader.Some? && !VoteLt(cfg.mode, Vote(n.leader.value.leader, true), Vote(c.leader, false)) then n0
    else
      var l := Leader(c.leader, c.last);
      var (_, n1) := UpdateVote(cfg, id, n0.(leader := Some(l)), Vote(c.leader, true));
      LeaderAppend(cfg, id, n1.(accepted := OptMax(n1.accepted, c.last)), l, 1)
  }

  // ---- replication ----

  /** A log id below the committed index is taken to be present without looking. */
  predicate HasLogId(n: Node, x: LogId) {
    x.index < NextIndex(n.committed) || (x.index < |n.log| && n.log[x.index] == x.leader)
  }

  function Truncate(n: Node, since: nat): Node {
    if since < |n.log| then Push(n.(log := n.log[..since]), TruncateLog(since)) else n
  }

  /** The number of leading entries, starting at index `start`, that the node has already. */
  function FirstConflict(n: Node, start: nat, entries: Log): nat
    ensures FirstConflict(n, start, entries) <= |entries|
    decreases |entries|
  {
    if |entries| == 0 || !HasLogId(n, LogId(entries[0], start)) then 0
    else 1 + FirstConflict(n, start + 1, entries[1..])
  }

  function LastSent(prev: Option<LogId>, entries: Log): Option<LogId> {
    if |entries| == 0 then prev
    else OptMax(prev, Some(LogId(entries[|entries| - 1], NextIndex(prev) + |entries| - 1)))
  }

  /** Keep the entries that are present, cut the log at the first one that is not, write the rest. */
  function FollowerAppend(n: Node, prev: Option<LogId>, entries: Log): Node {
    var n1 := n.(accepted := OptMax(n.accepted, LastSent(prev, entries)));
    var since := FirstConflict(n, NextIndex(prev), entries);
    if since < |entries| then
      var n2 := Truncate(n1, NextIndex(prev) + since);
      Push(n2.(log := n2.log + entries[since..]), AppendEntries(entries[since..]))
    else n1
  }

  function CommitEntries(n: Node, commit: Option<LogId>): Node {
    var c := OptMin(n.accepted, commit);
    if OptLt(n.committed, c) then Push(n.(committed := c), SaveCommitted(c.value)) else n
  }

  function HandleAppendReq(cfg: Config, id: NodeId, n: Node, src: NodeId, leader: LeaderId,
                           prev: Option<LogId>, entries: Log, commit: Option<LogId>): Node
  {
    var (ok, n1) := UpdateVote(cfg, id, n, Vote(leader, true));
    if !ok then Push(n, Send(AppendResp(id, src, leader, HigherVote(n.vote))))
    else if prev.Some? && !HasLogId(n1, prev.value) then
      Push(Truncate(n1, prev.value.index), Send(AppendResp(id, src, leader, Conflict)))
    else
      var n2 := FollowerAppend(n1, prev, entries);
      var n3 := Push(n2, Send(AppendResp(id, src, leader, Success(LastSent(prev, entries)))));
      CommitEntries(n3, commit)
  }

  /** The leader commits an id of its own term that a quorum has acknowledged. */
  function LeaderCommit(cfg: Config, n: Node, index: nat): Node
    requires index < |n.log|
  {
    var c := LogId(n.log[index], index);
    if c.leader == VoteTerm(cfg.mode, n.vote) && OptLt(n.committed, Some(c)) then
      Push(n.(committed := Some(c)), SaveCommitted(c))
    else n
  }

  // ---- restart ----

  /** A restarted node knows what its storage holds; the committed id is saved only by some stores. A
      node whose saved vote is its own and committed leads again at once. */
  function Restart(cfg: Config, id: NodeId, n: Node, keepCommitted: bool): Node {
    var d := n.disk.(committed := if keepCommitted then n.disk.committed else None);
    var n1 := Node(d.vote, d.log, d.committed, None, None, None, [], d);
    if d.vote.leader.node == Some(id) && d.vote.committed then BecomeLeader(cfg, id, n1) else n1
  }
}
