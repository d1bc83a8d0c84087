/** Types shared by every part of the model. */
module Basics {

  type NodeId = nat

  datatype Option<+T> = None | Some(value: T)

  datatype Result<+T, +E> = Ok(value: T) | Err(error: E)

  /** The id of a leader. In single-leader-per-term mode `node` is the node voted for, if any;
      a committed leader id in that mode keeps the term only, so its `node` is `None`. */
  datatype LeaderId = LeaderId(term: nat, node: Option<NodeId>)

  /** The id of a log entry: the committed id of the leader that proposed it, and its index. */
  datatype LogId = LogId(leader: LeaderId, index: nat)

  predicate NodeLt(a: Option<NodeId>, b: Option<NodeId>) {
    b.Some? && (a.None? || a.value < b.value)
  }

  /** Committed leader ids are totally ordered, term first. */
  predicate LeaderLt(a: LeaderId, b: LeaderId) {
    a.term < b.term || (a.term == b.term && NodeLt(a.node, b.node))
  }

  predicate LeaderLe(a: LeaderId, b: LeaderId) {
    a == b || LeaderLt(a, b)
  }

  /** Log ids are ordered by leader, then by index. */
  predicate LogIdLt(a: LogId, b: LogId) {
    LeaderLt(a.leader, b.leader) || (a.leader == b.leader && a.index < b.index)
  }

  /** `None` is below every log id. */
  predicate OptLt(a: Option<LogId>, b: Option<LogId>) {
    b.Some? && (a.None? || LogIdLt(a.value, b.value))
  }

  predicate OptLe(a: Option<LogId>, b: Option<LogId>) {
    a == b || OptLt(a, b)
  }

  function OptMax(a: Option<LogId>, b: Option<LogId>): Option<LogId> {
    if OptLt(a, b) then b else a
  }

  function OptMin(a: Option<LogId>, b: Option<LogId>): Option<LogId> {
    if OptLt(b, a) then b else a
  }

  function NextIndex(id: Option<LogId>): nat {
    match id
    case None => 0
    case Some(x) => x.index + 1
  }
}
