/** What each handler achieves in every run, beside keeping the invariant. */
module RaftBehaviour {
  import opened Basics
  import opened Votes
  import opened Quorums
  import opened RaftNode
  import opened RaftCluster
  import opened RaftInvariant
  import opened RaftSafety
  import opened RaftCore
  import opened RaftVoting
  import opened RaftElection
  import opened RaftReplication
  import opened RaftStorage
  import opened RaftRun
  import opened RaftTheorems
  import opened RaftPushes
  import opened RaftQueues

  lemma VoteIsAccepted(cfg: Config, id: NodeId, n: Node, v: Vote)
    ensures var (ok, n') := UpdateVote(cfg, id, n, v);
            (ok <==> VoteLe(cfg.mode, n.vote, v))
            && n'.vote == (if ok then v else n.vote)
            && (!ok ==> n' == n)
            && n.queue <= n'.queue
            && (n'.vote != n.vote ==> |n'.queue| > |n.queue| && n'.queue[|n.queue|] == SaveVote(v))
  {
  }

  /** A vote request is granted exactly if no lease forbids it, the candidate's log is not behind, and its
      vote is not below the local one. A refusal changes nothing but the queue. */
  lemma VoteReqGrantsIff(cfg: Config, id: NodeId, n: Node, src: NodeId, w: LeaderId, last: Option<LogId>,
                         leased: bool)
    requires w.node != Some(id)
    ensures var n' := HandleVoteReq(cfg, id, n, src, w, last, leased);
            var grants := !(n.vote.committed && leased) && OptLe(LastId(n.log), last)
                          && VoteLe(cfg.mode, n.vote, Vote(w, false));
            |n'.queue| > 0
            && n'.queue[|n'.queue| - 1] == Send(VoteResp(id, src, w, n'.vote, LastId(n'.log), grants))
            && n'.log == n.log
            && (grants ==> n'.vote == Vote(w, false) && n'.leader.None? && n'.candidate.None?)
            && (!grants ==> n'.(queue := n.queue) == n)
  {
    VoteIsAccepted(cfg, id, n, Vote(w, false));
  }

  /** The follower's log where it trusts committed indexes really holds what the leader sends there. */
  predicate Trusted(n: Node, start: nat, entries: Log) {
    NextIndex(n.committed) <= |n.log|
    && forall j :: 0 <= j < |entries| && start + j < NextIndex(n.committed) ==> n.log[start + j] == entries[j]
  }

  /** The log after an accepted request: unchanged if it has the entries, else cut before them and extended by them. */
  function Spliced(log: Log, start: nat, entries: Log): Log
    requires start <= |log|
  {
    var end := start + |entries|;
    if end <= |log| && log[start..end] == entries then log else log[..start] + entries
  }

  lemma AppendIsDone(n: Node, prev: Option<LogId>, entries: Log)
    requires Trusted(n, NextIndex(prev), entries) && NextIndex(prev) <= |n.log|
    ensures FollowerAppend(n, prev, entries).log == Spliced(n.log, NextIndex(prev), entries)
  {
    hide FirstConflict, FollowerAppend, HasLogId, LastSent;
    var start, k := NextIndex(prev), FirstConflict(n, NextIndex(prev), entries);
    FollowerAppendShape(n, prev, entries);
    PresentIsThere(n, start, entries);
    if k < |entries| {
      assert n.log[..start + k] + entries[k..] == n.log[..start] + entries;
    } else {
      assert n.log[start..start + k] == entries;
    }
  }

  lemma PresentIsThere(n: Node, start: nat, entries: Log)
    requires Trusted(n, start, entries) && start <= |n.log|
    ensures var k := FirstConflict(n, start, entries);
            start + k <= |n.log| && (forall j :: 0 <= j < k ==> n.log[start + j] == entries[j])
            && (k < |entries| && start + k < |n.log| ==> n.log[start + k] != entries[k])
  {
    hide FirstConflict;
    FirstConflictIs(n, start, entries);
    var k := FirstConflict(n, start, entries);
    if k > 0 {
      assert HasLogId(n, LogId(entries[k - 1], start + (k - 1)));
    }
    forall j | 0 <= j < k
      ensures n.log[start + j] == entries[j]
    {
      assert HasLogId(n, LogId(entries[j], start + j));
    }
  }

  // ---- requests of a leader ----

  /** In every run a committed vote is of an established leader, so that the committed ids of two leaders decide. */
  lemma VoteLeIff(cfg: Config, s: Cluster, v: Vote, l: LeaderId)
    requires Inv(cfg, s) && l in s.h.leaders && (v.committed ==> v.leader in s.h.leaders)
    ensures VoteLe(cfg.mode, v, Vote(l, true)) <==> LeaderLe(VoteTerm(cfg.mode, v), ToCommitted(cfg.mode, l))
  {
    hide Inv;
    LeadersAreOrdered(cfg, s, l, if v.committed then v.leader else l);
  }

  /** In every run a request of a leader is accepted exactly if the leader's committed id is not below that of the
      node's vote, so a candidate follows the leader of its own term. Accepting it, the node saves the vote and gives
      up every role; refusing it, the node answers with its own vote and changes nothing. */
  lemma LeaderIsFollowedIff(cfg: Config, s0: Cluster, steps: seq<Step>, s: Cluster, id: NodeId, m: Msg)
    requires Reaches(cfg, s0, steps, s) && Enabled(cfg, s, AppendReqStep(id, m))
    ensures var n, n' := s.nodes[id], Next(cfg, s, AppendReqStep(id, m)).nodes[id];
            if LeaderLe(VoteTerm(cfg.mode, n.vote), ToCommitted(cfg.mode, m.leader)) then
              n'.vote == Vote(m.leader, true) && n'.leader.None? && n'.candidate.None?
              && (n'.vote != n.vote ==> |n'.queue| > |n.queue| && n'.queue[|n.queue|] == SaveVote(n'.vote))
            else n' == Push(n, Send(AppendResp(id, m.leader.node.value, m.leader, HigherVote(n.vote))))
  {
    hide Reaches, Inv, UpdateVote, FollowerAppend, LastSent, CommitEntries, Truncate;
    var n, v := s.nodes[id], Vote(m.leader, true);
    ReachedOk(cfg, s0, steps, s);
    ToldIsKnown(cfg, s, m);
    if n.vote.committed {
      HeldIsKnown(cfg, s, id, n.vote);
    }
    VoteLeIff(cfg, s, n.vote, m.leader);
    VoteIsAccepted(cfg, id, n, v);
    FollowVoteShape(cfg, s.h, id, n, v);
    FollowedIs(UpdateVote(cfg, id, n, v).1, m, AppendResp(id, m.leader.node.value, m.leader, Conflict));
    FollowedIs(UpdateVote(cfg, id, n, v).1, m,
               AppendResp(id, m.leader.node.value, m.leader, Success(LastSent(m.prev, m.entries))));
  }

  /** Repairing the log, answering and committing only add to the queue and leave vote and roles. */
  lemma FollowedIs(n: Node, m: Msg, reply: Msg)
    requires m.AppendReq?
    ensures var t := Push(Truncate(n, if m.prev.Some? then m.prev.value.index else 0), Send(reply));
            t.vote == n.vote && t.leader == n.leader && t.candidate == n.candidate && n.queue <= t.queue
    ensures var t := CommitEntries(Push(FollowerAppend(n, m.prev, m.entries), Send(reply)), m.commit);
            t.vote == n.vote && t.leader == n.leader && t.candidate == n.candidate && n.queue <= t.queue
  {
  }

  // ---- how far a follower gets ----

  function Max(a: nat, b: nat): nat {
    if a <= b then b else a
  }

  function Min(a: nat, b: nat): nat {
    if a <= b then a else b
  }

  /** The id is on the log of leader `v`. */
  predicate OnLog(bases: map<LeaderId, Log>, v: LeaderId, c: Option<LogId>) {
    c.Some? ==> c.value.leader == At(bases, v, c.value.index)
  }

  /** On one log the order of ids is that of their indexes. */
  lemma OrderIsIndex(bases: map<LeaderId, Log>, v: LeaderId, a: Option<LogId>, b: Option<LogId>)
    requires BasesOk(bases) && v in bases && OnLog(bases, v, a) && OnLog(bases, v, b)
    ensures OptLt(a, b) <==> NextIndex(a) < NextIndex(b)
  {
    hide BasesOk, At;
    if a.Some? && b.Some? {
      var i, j := a.value.index, b.value.index;
      if i <= j {
        AtMonotone(bases, v, i, j);
      } else {
        AtMonotone(bases, v, j, i);
      }
    }
  }

  /** The only message queued between `n` and `n'` is `m`. */
  predicate Replies(n: Node, n': Node, m: Msg) {
    n.queue <= n'.queue && Send(m) in n'.queue[|n.queue|..]
    && forall q :: |n.queue| <= q < |n'.queue| && n'.queue[q].Send? ==> n'.queue[q].msg == m
  }

  /** No message is queued between `n` and `n'`. */
  predicate Silent(n: Node, n': Node) {
    n.queue <= n'.queue && forall q :: |n.queue| <= q < |n'.queue| ==> !n'.queue[q].Send?
  }

  lemma OneReply(n: Node, n1: Node, n2: Node, n': Node, m: Msg)
    requires Silent(n, n1) && n2.queue == n1.queue + [Send(m)] && Silent(n2, n')
    ensures Replies(n, n', m)
  {
    var q := |n1.queue|;
    assert n'.queue[q] == Send(m);
    assert n'.queue[|n.queue|..][q - |n.queue|] == Send(m);
  }

  lemma HandlersAreSilent(cfg: Config, id: NodeId, n: Node, l: LeaderId, prev: Option<LogId>, entries: Log,
                          commit: Option<LogId>, since: nat)
    requires l.node != Some(id)
    ensures Silent(n, UpdateVote(cfg, id, n, Vote(l, true)).1)
    ensures Silent(n, FollowerAppend(n, prev, entries))
    ensures Silent(n, CommitEntries(n, commit))
    ensures Silent(n, Truncate(n, since))
  {
  }

  lemma SilentThen(n: Node, n1: Node, n2: Node)
    requires Silent(n, n1) && Silent(n1, n2)
    ensures Silent(n, n2)
  {
  }

  /** What was sent before is found exactly if it is in the log: taking committed indexes on trust is exact. */
  lemma FoundIff(cfg: Config, h: History, id: NodeId, n: Node, m: Msg)
    requires Following(cfg, h, id, n) && Complete(cfg, h)
    requires m.AppendReq? && m.leader == n.vote.leader && SegmentOk(cfg, h, m) && m.prev.Some?
    ensures HasLogId(n, m.prev.value) <==> Contains(n.log, m.prev.value.leader, m.prev.value.index)
  {
    hide HistoryOk, Complete, RolesOk, CommitKnown;
    if HasLogId(n, m.prev.value) {
      MemOk(cfg, h, id, n);
      HasFollows(cfg, h, id, n, m.prev.value);
    }
  }

  lemma CommittedIsTrusted(cfg: Config, h: History, id: NodeId, n: Node, m: Msg)
    requires Following(cfg, h, id, n) && Complete(cfg, h)
    requires m.AppendReq? && m.leader == n.vote.leader && SegmentOk(cfg, h, m)
    ensures Trusted(n, NextIndex(m.prev), m.entries)
  {
    hide HistoryOk, Complete, RolesOk, CommitKnown;
    MemOk(cfg, h, id, n);
    CommittedFollows(cfg, h, Mem(n));
  }

  /** What a follower has accepted and committed, and what its leader has committed, are on the leader's log. */
  lemma PointersOnLog(cfg: Config, h: History, id: NodeId, n: Node, commit: Option<LogId>)
    requires Following(cfg, h, id, n) && Complete(cfg, h)
    requires CommitKnown(cfg, h, commit, VoteTerm(cfg.mode, n.vote))
    ensures var v := VoteTerm(cfg.mode, n.vote);
            v in h.bases && BasesOk(h.bases)
            && OnLog(h.bases, v, n.accepted) && OnLog(h.bases, v, n.committed) && OnLog(h.bases, v, commit)
  {
    hide CoreOk, LogOk, BasesOk, MsgOk, AskedOk, Complete, Chosen, LeaderOk, CandidateOk;
    var v := VoteTerm(cfg.mode, n.vote);
    assert EstablishedOk(cfg, h, n.vote.leader);
    CommitIsOk(cfg, h, id, n);
    CommittedFollows(cfg, h, Mem(n));
    if commit.Some? {
      var x, j :| Covers(cfg, h, x, j, commit.value.index) && LeaderLe(x, v)
                  && commit.value.leader == At(h.bases, x, commit.value.index);
      ChosenAgrees(cfg, h, x, j, v, commit.value.index);
    }
  }

  /** A follower commits as much as it has accepted and its leader has committed, and nothing is taken back. */
  lemma CommitsUpTo(cfg: Config, h: History, id: NodeId, n: Node, commit: Option<LogId>)
    requires Following(cfg, h, id, n) && Complete(cfg, h)
    requires CommitKnown(cfg, h, commit, VoteTerm(cfg.mode, n.vote))
    ensures NextIndex(CommitEntries(n, commit).committed)
            == Max(NextIndex(n.committed), Min(NextIndex(n.accepted), NextIndex(commit)))
  {
    hide Following, Complete, CommitKnown, BasesOk, OnLog, OptLt;
    var v := VoteTerm(cfg.mode, n.vote);
    PointersOnLog(cfg, h, id, n, commit);
    OrderIsIndex(h.bases, v, commit, n.accepted);
    OrderIsIndex(h.bases, v, n.committed, OptMin(n.accepted, commit));
  }

  lemma AcceptsUpTo(cfg: Config, h: History, id: NodeId, n: Node, m: Msg)
    requires Following(cfg, h, id, n) && Complete(cfg, h)
    requires m.AppendReq? && m.leader == n.vote.leader && SegmentOk(cfg, h, m)
    ensures NextIndex(FollowerAppend(n, m.prev, m.entries).accepted)
            == Max(NextIndex(n.accepted), NextIndex(m.prev) + |m.entries|)
  {
    hide Following, Complete, BasesOk, OptLt, FollowerAppend, FirstConflict, LastSent, SegmentOk, Repaired;
    var v := VoteTerm(cfg.mode, n.vote);
    SegmentSays(cfg, h, m);
    PointersOnLog(cfg, h, id, n, m.commit);
    FollowerAppendShape(n, m.prev, m.entries);
    assert HistoryOk(cfg, h) by { FollowingSays(cfg, h, id, n); }
    LastSentIs(cfg, h, m);
    OrderIsIndex(h.bases, v, n.accepted, LastSent(m.prev, m.entries));
  }

  lemma SegmentSays(cfg: Config, h: History, m: Msg)
    requires m.AppendReq? && SegmentOk(cfg, h, m)
    ensures CommitKnown(cfg, h, m.commit, ToCommitted(cfg.mode, m.leader)) && m.leader in h.leaders
  {
  }

  lemma FollowingSays(cfg: Config, h: History, id: NodeId, n: Node)
    requires Following(cfg, h, id, n)
    ensures HistoryOk(cfg, h) && n.vote.committed
  {
  }

  lemma CommitIsOk(cfg: Config, h: History, id: NodeId, n: Node)
    requires CoreOk(cfg, h, id, n)
    ensures CommitOk(cfg, h, Mem(n))
  {
    hide GrantsOk, PromisesOk, VotesRise, SendsOk;
    MemOk(cfg, h, id, n);
  }

  /** The node after it took over the vote of the leader that sent `m`. */
  lemma TakesOver(cfg: Config, h: History, id: NodeId, n: Node, m: Msg)
    requires HistoryOk(cfg, h) && NodeOk(cfg, h, id, n) && m in h.msgs && m.AppendReq? && m.leader.node != Some(id)
    requires VoteLe(cfg.mode, n.vote, Vote(m.leader, true))
    ensures var n1 := UpdateVote(cfg, id, n, Vote(m.leader, true)).1;
            Following(cfg, h, id, n1) && n1.vote == Vote(m.leader, true) && SegmentOk(cfg, h, m)
            && n1.log == n.log && n1.committed == n.committed
            && n1.accepted == (if n.vote == Vote(m.leader, true) then n.accepted else None)
  {
    hide CoreOk, RolesOk, BasesOk, EstablishedOk, SegmentOk;
    assert MsgOk(cfg, h, Sender(m), m);
    SegmentSays(cfg, h, m);
    LeaderIsSaved(cfg, h, m.leader);
    FollowVoteOk(cfg, h, id, n, Vote(m.leader, true));
    FollowVoteShape(cfg, h, id, n, Vote(m.leader, true));
  }

  /** The outcome of a request that a follower accepts and whose beginning it has. */
  ghost predicate Appended(id: NodeId, n: Node, n': Node, m: Msg)
    requires m.AppendReq? && m.leader.node.Some?
  {
    var start, end := NextIndex(m.prev), NextIndex(m.prev) + |m.entries|;
    start <= |n.log| && n'.log == Spliced(n.log, start, m.entries) && end <= |n'.log|
    && Replies(n, n', AppendResp(id, m.leader.node.value, m.leader,
                                 Success(if end == 0 then None else Some(LogId(n'.log[end - 1], end - 1)))))
    && NextIndex(n'.accepted) == Max(end, if n.vote == Vote(m.leader, true) then NextIndex(n.accepted) else 0)
    && NextIndex(n'.committed)
       == Max(NextIndex(n.committed), Min(NextIndex(n'.accepted), NextIndex(m.commit)))
  }

  /** The outcome of a request whose beginning the follower lacks. */
  ghost predicate Conflicted(id: NodeId, n: Node, n': Node, m: Msg)
    requires m.AppendReq? && m.leader.node.Some? && m.prev.Some?
  {
    n'.log == n.log[..Min(m.prev.value.index, |n.log|)] && n'.committed == n.committed
    && Replies(n, n', AppendResp(id, m.leader.node.value, m.leader, Conflict))
  }

  lemma ConflictIs(cfg: Config, h: History, id: NodeId, n: Node, m: Msg)
    requires HistoryOk(cfg, h) && Complete(cfg, h) && NodeOk(cfg, h, id, n)
    requires m in h.msgs && m.AppendReq? && m.leader.node.Some? && m.leader.node != Some(id)
    requires VoteLe(cfg.mode, n.vote, Vote(m.leader, true))
    requires m.prev.Some? && !Contains(n.log, m.prev.value.leader, m.prev.value.index)
    ensures Conflicted(id, n,
                       HandleAppendReq(cfg, id, n, m.leader.node.value, m.leader, m.prev, m.entries, m.commit), m)
  {
    hide HistoryOk, Complete, NodeOk, UpdateVote, HasLogId, Following, SegmentOk, Silent, Replies;
    var n1 := UpdateVote(cfg, id, n, Vote(m.leader, true)).1;
    var n2 := Truncate(n1, m.prev.value.index);
    var reply := AppendResp(id, m.leader.node.value, m.leader, Conflict);
    VoteIsAccepted(cfg, id, n, Vote(m.leader, true));
    TakesOver(cfg, h, id, n, m);
    FoundIff(cfg, h, id, n1, m);
    HandlersAreSilent(cfg, id, n, m.leader, m.prev, m.entries, m.commit, m.prev.value.index);
    HandlersAreSilent(cfg, id, n1, m.leader, m.prev, m.entries, m.commit, m.prev.value.index);
    SilentThen(n, n1, n2);
    SilentSelf(Push(n2, Send(reply)));
    OneReply(n, n2, Push(n2, Send(reply)), Push(n2, Send(reply)), reply);
  }

  lemma SilentSelf(n: Node)
    ensures Silent(n, n)
  {
  }

  lemma AppendedIs(cfg: Config, h: History, id: NodeId, n: Node, m: Msg)
    requires HistoryOk(cfg, h) && Complete(cfg, h) && NodeOk(cfg, h, id, n)
    requires m in h.msgs && m.AppendReq? && m.leader.node.Some? && m.leader.node != Some(id)
    requires VoteLe(cfg.mode, n.vote, Vote(m.leader, true))
    requires m.prev.Some? ==> Contains(n.log, m.prev.value.leader, m.prev.value.index)
    ensures Appended(id, n,
                     HandleAppendReq(cfg, id, n, m.leader.node.value, m.leader, m.prev, m.entries, m.commit), m)
  {
    hide HistoryOk, Complete, NodeOk, UpdateVote, Following, SegmentOk, Silent, Replies, FollowerAppend;
    hide LastSent, CommitEntries, Trusted, Spliced, CommitKnown;
    var n1 := UpdateVote(cfg, id, n, Vote(m.leader, true)).1;
    VoteIsAccepted(cfg, id, n, Vote(m.leader, true));
    TakesOver(cfg, h, id, n, m);
    SegmentSays(cfg, h, m);
    CommittedIsTrusted(cfg, h, id, n1, m);
    AppendIsDone(n1, m.prev, m.entries);
    AcceptsUpTo(cfg, h, id, n1, m);
    FollowerAppendKeeps(n1, m.prev, m.entries);
    FollowerAppendOk(cfg, h, id, n1, m);
    var n2 := FollowerAppend(n1, m.prev, m.entries);
    var reply := AppendResp(id, m.leader.node.value, m.leader, Success(LastSent(m.prev, m.entries)));
    var n3 := Push(n2, Send(reply));
    ReplyIs(cfg, h, id, n1, m);
    AnswersFollowing(cfg, h, id, n2, m);
    CommitsUpTo(cfg, h, id, n3, m.commit);
    CommitEntriesRest(n3, m.commit);
    HandlersAreSilent(cfg, id, n, m.leader, m.prev, m.entries, m.commit, 0);
    HandlersAreSilent(cfg, id, n1, m.leader, m.prev, m.entries, m.commit, 0);
    HandlersAreSilent(cfg, id, n3, m.leader, m.prev, m.entries, m.commit, 0);
    SilentThen(n, n1, n2);
    OneReply(n, n2, n3, CommitEntries(n3, m.commit), reply);
  }

  lemma CommitEntriesRest(n: Node, commit: Option<LogId>)
    ensures var n' := CommitEntries(n, commit); n'.log == n.log && n'.accepted == n.accepted
  {
  }

  /** The acknowledged id is the last one sent, and in the log. */
  lemma ReplyIs(cfg: Config, h: History, id: NodeId, n: Node, m: Msg)
    requires Following(cfg, h, id, n) && Complete(cfg, h)
    requires m.AppendReq? && m.leader == n.vote.leader && SegmentOk(cfg, h, m)
    requires m.prev.Some? ==> HasLogId(n, m.prev.value)
    ensures var log, end := FollowerAppend(n, m.prev, m.entries).log, NextIndex(m.prev) + |m.entries|;
            end <= |log|
            && LastSent(m.prev, m.entries) == (if end == 0 then None else Some(LogId(log[end - 1], end - 1)))
  {
    hide Following, Complete, SegmentOk, FollowerAppend, LastSent, HasLogId;
    FollowingSays(cfg, h, id, n);
    LastSentIs(cfg, h, m);
    FollowerAppendOk(cfg, h, id, n, m);
  }

  lemma AnswersFollowing(cfg: Config, h: History, id: NodeId, n: Node, m: Msg)
    requires Following(cfg, h, id, n) && m.AppendReq? && m.leader.node.Some? && m.leader == n.vote.leader
    requires SegmentOk(cfg, h, m)
    requires Follows(h.bases, n.log, VoteTerm(cfg.mode, n.vote), NextIndex(m.prev) + |m.entries|)
    ensures Following(cfg, h, id, Push(n, Send(AppendResp(id, m.leader.node.value, m.leader,
                                                          Success(LastSent(m.prev, m.entries))))))
  {
    hide HistoryOk, CoreOk, RolesOk, SegmentOk;
    LastSentIs(cfg, h, m);
    AckOk(cfg, h, id, n, m.leader.node.value, LastSent(m.prev, m.entries));
  }

  /** In every run, a node that accepts a request either lacks the entry before those sent, and then it cuts its log
      there and says so; or it ends with exactly the entries sent where they belong, acknowledges the last of them,
      and knows as much to be committed as it has accepted from this leader and the leader has committed. */
  lemma RequestIsAnswered(cfg: Config, s0: Cluster, steps: seq<Step>, s: Cluster, id: NodeId, m: Msg)
    requires Reaches(cfg, s0, steps, s) && Enabled(cfg, s, AppendReqStep(id, m))
    requires LeaderLe(VoteTerm(cfg.mode, s.nodes[id].vote), ToCommitted(cfg.mode, m.leader))
    ensures var n, n' := s.nodes[id], Next(cfg, s, AppendReqStep(id, m)).nodes[id];
            if m.prev.Some? && !Contains(n.log, m.prev.value.leader, m.prev.value.index)
            then Conflicted(id, n, n', m)
            else Appended(id, n, n', m)
  {
    hide Reaches, NodeOk, HistoryOk, HandleAppendReq, Conflicted, Appended;
    var n := s.nodes[id];
    ReachedOk(cfg, s0, steps, s);
    ToldIsKnown(cfg, s, m);
    if n.vote.committed {
      HeldIsKnown(cfg, s, id, n.vote);
    }
    VoteLeIff(cfg, s, n.vote, m.leader);
    HistoryComplete(cfg, s);
    if m.prev.Some? && !Contains(n.log, m.prev.value.leader, m.prev.value.index) {
      ConflictIs(cfg, s.h, id, n, m);
    } else {
      AppendedIs(cfg, s.h, id, n, m);
    }
  }

  // ---- replies ----

  /** Node `n'` is node `n` after it was told vote `v`: a greater one is saved and followed, and ends every role. */
  ghost predicate Told(mode: Mode, n: Node, n': Node, v: Vote) {
    if VoteLt(mode, n.vote, v) then
      n'.vote == v && n'.leader.None? && n'.candidate.None? && n'.log == n.log && n'.committed == n.committed
      && n.queue < n'.queue && n'.queue[|n.queue|] == SaveVote(v)
    else n' == n
  }

  /** A node that leads or stands for election can only be told a greater vote that is another node's. */
  lemma ToldIs(cfg: Config, h: History, id: NodeId, n: Node, v: Vote)
    requires NodeOk(cfg, h, id, n) && Active(id, n) && (n.leader.Some? || n.candidate.Some?) && VoteKnown(cfg, h, v)
    ensures Told(cfg.mode, n, UpdateVote(cfg, id, n, v).1, v)
  {
    hide CoreOk, AcceptedOk, VoteKnown;
    if v.leader.node == Some(id) {
      OwnVoteChangesNothing(cfg, h, id, n, v);
    }
  }

  /** The outcome of a reply to the candidacy `c` of node `n`. */
  ghost predicate Counted(cfg: Config, n: Node, n': Node, c: Candidate, m: Msg)
    requires m.VoteResp?
  {
    if !(m.granted && m.vote == Vote(c.leader, false)) then Told(cfg.mode, n, n', m.vote)
    else if !IsQuorum(cfg.configs, c.granters + {m.src}) then
      n' == n.(candidate := Some(c.(granters := c.granters + {m.src})))
    else
      n'.vote == Vote(c.leader, true) && n'.candidate.None?
      && n'.leader.Some? && n'.leader.value.leader == c.leader
      && n'.log == n.log + [ToCommitted(cfg.mode, c.leader)] && n'.committed == n.committed
  }

  lemma WinnerIs(cfg: Config, h: History, id: NodeId, n: Node)
    requires RolesOk(cfg, h, id, n) && n.candidate.Some?
    ensures var c := n.candidate.value;
            var n' := EstablishLeader(cfg, id, n, c);
            n'.vote == Vote(c.leader, true) && n'.candidate.None?
            && n'.leader.Some? && n'.leader.value.leader == c.leader
            && n'.log == n.log + [ToCommitted(cfg.mode, c.leader)] && n'.committed == n.committed
  {
    hide EstablishLeader, AcceptedOk;
    var c := n.candidate.value;
    if n.leader.Some? {
      CandidateOutranks(cfg, h, id, n);
    }
    EstablishShape(cfg, id, n, c);
    LeaderAppendShape(cfg, id, Crowned(n, c), Leader(c.leader, c.last), 1);
  }

  /** In every run, a reply to an earlier candidacy changes nothing; a grant of the present one is counted and makes
      the node the leader exactly if a quorum has granted; any other reply makes it follow the vote it is told, if
      that is greater, and changes nothing otherwise. */
  lemma VoteReplyIsHeard(cfg: Config, s0: Cluster, steps: seq<Step>, s: Cluster, id: NodeId, m: Msg)
    requires Reaches(cfg, s0, steps, s) && Enabled(cfg, s, VoteRespStep(id, m))
    ensures var n, n' := s.nodes[id], Next(cfg, s, VoteRespStep(id, m)).nodes[id];
            if n.candidate.None? || m.req != n.candidate.value.leader then n' == n
            else Counted(cfg, n, n', n.candidate.value, m)
  {
    hide Reaches, CoreOk, RolesOk, EstablishLeader, MsgOk, EstablishedOk, BasesOk, UpdateVote, Told;
    var n := s.nodes[id];
    ReachedOrdered(cfg, s0, steps, s);
    assert NodeOk(cfg, s.h, id, n) && RoleOk(cfg, s.h, id, n);
    if n.candidate.Some? && m.req == n.candidate.value.leader {
      if WinsElection(cfg, n, m.src, m.req, m.vote, m.granted) {
        WinnerIs(cfg, s.h, id, n);
      } else if !m.granted || m.vote != Vote(n.candidate.value.leader, false) {
        assert Carried(m) == Some(m.vote);
        ToldIs(cfg, s.h, id, n, m.vote);
      }
    }
  }

  /** In every run, a leader whose entries are refused for a greater vote follows that vote; for any other vote the
      refusal changes nothing. */
  lemma RefusalIsHeard(cfg: Config, s0: Cluster, steps: seq<Step>, s: Cluster, id: NodeId, m: Msg)
    requires Reaches(cfg, s0, steps, s) && Enabled(cfg, s, AppendRespStep(id, m))
    ensures Told(cfg.mode, s.nodes[id], Next(cfg, s, AppendRespStep(id, m)).nodes[id], m.res.vote)
  {
    hide Reaches, CoreOk, RolesOk, MsgOk, EstablishedOk, BasesOk, UpdateVote, Told;
    ReachedOrdered(cfg, s0, steps, s);
    assert NodeOk(cfg, s.h, id, s.nodes[id]) && RoleOk(cfg, s.h, id, s.nodes[id]);
    assert Carried(m) == Some(m.res.vote);
    ToldIs(cfg, s.h, id, s.nodes[id], m.res.vote);
  }

  // ---- leading ----

  /** In every run, a node whose vote is its own and committed leads under it, the last entry of its log is its own,
      and it has accepted its whole log. */
  lemma LeaderIsReady(cfg: Config, s0: Cluster, steps: seq<Step>, s: Cluster, id: NodeId)
    requires Reaches(cfg, s0, steps, s) && id in s.nodes
    requires s.nodes[id].vote.committed && s.nodes[id].vote.leader.node == Some(id)
    ensures var n := s.nodes[id];
            n.leader == Some(Leader(n.vote.leader, LastId(n.log))) && n.accepted == LastId(n.log)
            && |n.log| > 0 && n.log[|n.log| - 1] == VoteTerm(cfg.mode, n.vote)
  {
    hide Reaches, CoreOk, HistoryOk, CandidateOk, AcceptedOk;
    ReachedOrdered(cfg, s0, steps, s);
    assert NodeOk(cfg, s.h, id, s.nodes[id]) && RoleOk(cfg, s.h, id, s.nodes[id]);
  }

  /** In every run, the id that a leader takes to be its first is the first that it wrote: it follows the log that the
      leader was elected with, across restarts. */
  lemma NoopIsFirst(cfg: Config, s0: Cluster, steps: seq<Step>, s: Cluster, id: NodeId)
    requires Reaches(cfg, s0, steps, s) && id in s.nodes
    requires s.nodes[id].vote.committed && s.nodes[id].vote.leader.node == Some(id)
    ensures var n, v := s.nodes[id], VoteTerm(cfg.mode, s.nodes[id].vote);
            v in s.h.bases && NoopId(cfg, n) == LogId(v, |s.h.bases[v]|)
            && Contains(n.log, v, |s.h.bases[v]|) && forall j :: 0 <= j < |s.h.bases[v]| ==> n.log[j] != v
  {
    hide Reaches, CoreOk, CandidateOk, AcceptedOk, MsgOk, EstablishedOk;
    ReachedOrdered(cfg, s0, steps, s);
    var n, v := s.nodes[id], VoteTerm(cfg.mode, s.nodes[id].vote);
    assert NodeOk(cfg, s.h, id, n) && RoleOk(cfg, s.h, id, n);
    assert BaseOk(s.h.bases, v);
    var i, b := LastRun(n.log), |s.h.bases[v]|;
    assert n.log[b] == v && n.log[i] == v;
    assert b > 0 ==> n.log[b - 1] != v;
    assert i > 0 ==> n.log[i - 1] != v;
  }

  /** In every run, a leader that commits an index takes it as committed exactly if the entry is of its vote's term and
      the index is further than what it knows, and changes nothing otherwise. */
  lemma CommitTakesEffect(cfg: Config, s0: Cluster, steps: seq<Step>, s: Cluster, id: NodeId, index: nat,
                          acks: set<NodeId>)
    requires Reaches(cfg, s0, steps, s) && Enabled(cfg, s, CommitStep(id, index, acks))
    ensures var n, n' := s.nodes[id], Next(cfg, s, CommitStep(id, index, acks)).nodes[id];
            var c := LogId(n.log[index], index);
            if n.log[index] == VoteTerm(cfg.mode, n.vote) && NextIndex(n.committed) <= index
            then n' == Push(n.(committed := Some(c)), SaveCommitted(c))
            else n' == n
  {
    hide Reaches, Inv;
    ReachedOk(cfg, s0, steps, s);
    MemLogOk(cfg, s, id);
    InvHasBases(cfg, s);
    var n := s.nodes[id];
    if n.committed.Some? {
      LogOrder(s.h.bases, n.log, n.committed.value.index, index);
    }
  }

  /** In one log, ids are ordered as their indexes. */
  lemma LogOrder(bases: map<LeaderId, Log>, log: Log, i: nat, j: nat)
    requires BasesOk(bases) && LogOk(bases, log) && i < |log| && j < |log|
    ensures LogIdLt(LogId(log[i], i), LogId(log[j], j)) <==> i < j
  {
    hide BasesOk;
    var v := log[Max(i, j)];
    if i < j {
      AtMonotone(bases, v, i, j);
    } else {
      AtMonotone(bases, v, j, i);
    }
  }

  /** In every run, once a quorum has acknowledged the whole log of a leader, the leader can commit all of it. */
  lemma LeaderCommitsAll(cfg: Config, s0: Cluster, steps: seq<Step>, s: Cluster, id: NodeId, acks: set<NodeId>)
    requires Reaches(cfg, s0, steps, s) && id in s.nodes && |s.nodes[id].log| > 0
    requires s.nodes[id].vote.committed && s.nodes[id].vote.leader.node == Some(id)
    requires IsQuorum(cfg.configs, acks)
    requires forall a :: a in acks ==> Acked(s.h, a, s.nodes[id].vote.leader, |s.nodes[id].log| - 1)
    ensures var step := CommitStep(id, |s.nodes[id].log| - 1, acks);
            Enabled(cfg, s, step) && Next(cfg, s, step).nodes[id].committed == LastId(s.nodes[id].log)
  {
    hide Reaches, Inv, IsQuorum;
    var n := s.nodes[id];
    LeaderIsReady(cfg, s0, steps, s, id);
    CommitTakesEffect(cfg, s0, steps, s, id, |n.log| - 1, acks);
    ReachedOk(cfg, s0, steps, s);
    MemLogOk(cfg, s, id);
  }

  // ---- restarting ----

  /** In every run, a restarted node has its saved vote and log, and the saved committed id if its store keeps that. It
      leads exactly if that vote is its own and committed, and then adds an entry exactly if its last one is not its
      own; otherwise it holds no role and has nothing queued. */
  lemma RestartRecovers(cfg: Config, s0: Cluster, steps: seq<Step>, s: Cluster, id: NodeId, keep: bool)
    requires Reaches(cfg, s0, steps, s) && id in s.nodes
    ensures var d, n' := s.nodes[id].disk, Next(cfg, s, CrashStep(id, keep)).nodes[id];
            var own, v := d.vote.committed && d.vote.leader.node == Some(id), VoteTerm(cfg.mode, d.vote);
            n'.vote == d.vote && n'.committed == (if keep then d.committed else None) && n'.candidate.None?
            && n'.log == (if own && !(|d.log| > 0 && d.log[|d.log| - 1] == v) then d.log + [v] else d.log)
            && (if own then n'.leader == Some(Leader(d.vote.leader, LastId(n'.log)))
                else n'.leader.None? && n'.queue == [])
  {
    hide Reaches, CoreOk, HistoryOk, RolesOk, LeaderAppend, LastRun;
    ReachedOk(cfg, s0, steps, s);
    assert NodeOk(cfg, s.h, id, s.nodes[id]);
    var n := Crashed(s.nodes[id], keep);
    var last, v := LastId(n.log), VoteTerm(cfg.mode, n.vote);
    if n.vote.committed && n.vote.leader.node == Some(id) {
      CrashedOk(cfg, s.h, id, s.nodes[id], keep);
      CrashedHolds(cfg, s.h, id, n);
      var n1 := n.(leader := Some(Leader(n.vote.leader, last)), accepted := OptMax(n.accepted, last));
      LeaderAppendShape(cfg, id, Push(n1, Send(AppendResp(id, id, n.vote.leader, Success(last)))), n1.leader.value, 1);
    }
  }
}
