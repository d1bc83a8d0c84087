/** Votes and their partial order, in both leader-id modes. */
module Votes {
  import opened Basics

  /** `Std` allows one leader per term; `Adv` orders leader ids by (term, node) and allows several. */
  datatype Mode = Std | Adv

  datatype Vote = Vote(leader: LeaderId, committed: bool)

  /** The four answers of a partial comparison, and `Panic` for the arm the source calls unreachable. */
  datatype Cmp = Less | Equal | Greater | Incomparable | Panic

  function CompareLeaders(mode: Mode, a: LeaderId, b: LeaderId): Cmp {
    if a.term < b.term then Less
    else if b.term < a.term then Greater
    else if a.node == b.node then Equal
    else if a.node.None? then Less
    else if b.node.None? then Greater
    else if mode.Std? then Incomparable
    else if a.node.value < b.node.value then Less
    else Greater
  }

  function CompareVotes(mode: Mode, a: Vote, b: Vote): Cmp {
    match CompareLeaders(mode, a.leader, b.leader)
    case Equal =>
      if a.committed == b.committed then Equal
      else if a.committed then Greater
      else Less
    case Incomparable =>
      if !a.committed && !b.committed then Incomparable
      else if !b.committed then Greater
      else if !a.committed then Less
      else Panic
    case c => c
  }

  predicate VoteLe(mode: Mode, a: Vote, b: Vote) {
    CompareVotes(mode, a, b).Less? || CompareVotes(mode, a, b).Equal?
  }

  predicate VoteLt(mode: Mode, a: Vote, b: Vote) {
    CompareVotes(mode, a, b).Less?
  }

  /** What a log entry keeps of the leader that proposed it. */
  function ToCommitted(mode: Mode, a: LeaderId): LeaderId {
    if mode.Std? then LeaderId(a.term, None) else a
  }

  /** The leader id of the initial vote of every node. */
  function DefaultLeader(mode: Mode): LeaderId {
    if mode.Std? then LeaderId(0, None) else LeaderId(0, Some(0))
  }

  function DefaultVote(mode: Mode): Vote {
    Vote(DefaultLeader(mode), false)
  }

  /** The committed id under which a node with this vote accepts entries. */
  function VoteTerm(mode: Mode, v: Vote): LeaderId {
    ToCommitted(mode, v.leader)
  }

  /** A committed leader id is the term where a term has one leader, and the whole id where it may have several. */
  lemma CommittedIdIs(mode: Mode, a: LeaderId, b: LeaderId)
    ensures ToCommitted(mode, a) == ToCommitted(mode, b) <==> if mode.Std? then a.term == b.term else a == b
    ensures LeaderLt(ToCommitted(mode, a), ToCommitted(mode, b)) <==>
            a.term < b.term || (mode.Adv? && a.term == b.term && NodeLt(a.node, b.node))
  {
  }

  lemma VoteOrderIsPartialOrder(mode: Mode, a: Vote, b: Vote, c: Vote)
    ensures VoteLe(mode, a, a)
    ensures VoteLe(mode, a, b) && VoteLe(mode, b, a) ==> a == b
    ensures VoteLe(mode, a, b) && VoteLe(mode, b, c) ==> VoteLe(mode, a, c)
    ensures VoteLe(mode, a, b) <==> VoteLt(mode, a, b) || a == b
    ensures VoteLt(mode, a, b) <==> CompareVotes(mode, b, a).Greater?
  {
  }

  /** The order by the parts of a vote: the term decides; in one term the committed vote is the greater one where
      two nodes compete for a single leadership, and the node decides where a term may have several leaders; votes
      for one leader differ by their commitment. */
  lemma VoteOrderIs(mode: Mode, a: Vote, b: Vote)
    ensures a.leader.term != b.leader.term ==> (VoteLt(mode, a, b) <==> a.leader.term < b.leader.term)
    ensures a.leader == b.leader ==> (VoteLt(mode, a, b) <==> !a.committed && b.committed)
    ensures a.leader.term == b.leader.term && a.leader.node != b.leader.node ==>
              (VoteLt(mode, a, b) <==>
                 if mode.Std? && a.leader.node.Some? && b.leader.node.Some? then !a.committed && b.committed
                 else NodeLt(a.leader.node, b.leader.node))
  {
  }

  /** A committed vote is ordered with every vote that is not; two votes are not ordered exactly if two nodes compete
      for a single leadership and neither is committed. */
  lemma CommittedIsOrdered(mode: Mode, a: Vote, b: Vote)
    ensures a.committed && !b.committed ==> VoteLt(mode, a, b) || VoteLt(mode, b, a)
    ensures CompareVotes(mode, a, b).Incomparable? <==>
            mode.Std? && !a.committed && !b.committed && a.leader != b.leader
            && a.leader.term == b.leader.term && a.leader.node.Some? && b.leader.node.Some?
  {
  }

  /** The panicking arm is reached exactly by two different leaders of one term that are both committed,
      and only where a term may have one leader. */
  lemma PanicIff(mode: Mode, a: Vote, b: Vote)
    ensures CompareVotes(mode, a, b).Panic? <==>
            mode.Std? && a.committed && b.committed && a.leader != b.leader
            && a.leader.term == b.leader.term && a.leader.node.Some? && b.leader.node.Some?
  {
  }
}
