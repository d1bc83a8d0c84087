/** The engine as the mutable object it is. Its log is the compressed list of log ids, its votes are counted by a
    candidate's tracker, and what is accepted by its followers by a leader's tracker. Each handler updates these and
    pushes commands step by step, and is proved to be the function of the node that the protocol proof is about. */
module RaftEngine {
  import opened Basics
  import opened Votes
  import opened Quorums
  import opened RaftNode
  import opened RaftReplication
  import RaftElection
  import RaftTheorems
  import RaftTracked
  import opened LogIdList
  import Progress
  import ProgressRuns
  import opened ProgressVec

  // ---- the compressed list as the log ----

  /** The list stands for a log from index 0 on. */
  ghost predicate IsLog(list: KeyList)
    reads list
  {
    list.Valid() && list.Contents().start == 0
  }

  lemma LastIs(list: KeyList)
    requires IsLog(list)
    ensures list.LastKey() == LastId(list.Contents().leaders)
  {
    LastOf(list);
  }

  /** The ids of `leaders`, with indexes from `start` on. */
  function IdsFrom(leaders: Log, start: nat): seq<LogId> {
    seq(|leaders|, i requires 0 <= i < |leaders| => LogId(leaders[i], start + i))
  }

  lemma IdsAscend(log: Log, es: Log)
    ensures Ascending(Plain(0, log), IdsFrom(es, |log|))
  {
  }

  lemma {:induction false} AppendAllIs(log: Log, es: Log)
    ensures Ascending(Plain(0, log), IdsFrom(es, |log|))
    ensures AppendAll(Plain(0, log), IdsFrom(es, |log|)) == Plain(0, log + es)
    decreases |es|
  {
    hide Ascending, AppendPlain;
    var p, ids := Plain(0, log), IdsFrom(es, |log|);
    IdsAscend(log, es);
    if |es| == 0 {
      assert log + es == log;
    } else {
      var front, last := es[..|es| - 1], es[|es| - 1];
      AppendAllIs(log, front);
      assert ids[..|es| - 1] == IdsFrom(front, |log|);
      AppendOne(log + front, last);
      assert log + front + [last] == log + es;
      assert ids[|es| - 1] == LogId(last, |log + front|);
    }
  }

  /** Ids that a leader assigned after its log extend the log. */
  lemma AssignedExtend(log: Log, ids: seq<LogId>, t: LeaderId, es: Log)
    requires es == seq(|ids|, _ => t) && forall i :: 0 <= i < |ids| ==> ids[i] == LogId(t, |log| + i)
    ensures Ascending(Plain(0, log), ids) && OneLeader(ids) && AppendAll(Plain(0, log), ids) == Plain(0, log + es)
  {
    AppendAllIs(log, es);
    assert ids == IdsFrom(es, |log|);
  }

  lemma AppendOne(log: Log, t: LeaderId)
    ensures AppendPlain(Plain(0, log), LogId(t, |log|)) == Plain(0, log + [t])
  {
  }

  /** The run of the last leader begins at the only index that is in it and whose predecessor is not. */
  lemma {:induction false} LastRunIs(log: Log, i: nat)
    requires i < |log| && (forall j :: i <= j < |log| ==> log[j] == log[|log| - 1])
    requires i > 0 ==> log[i - 1] != log[i]
    ensures RaftNode.LastRun(log) == i
  {
  }

  // ---- the votes ----

  lemma SetOfPush(ids: seq<NodeId>, x: NodeId)
    ensures SetOf(ids + [x]) == SetOf(ids) + {x}
  {
    var all := ids + [x];
    assert all[|ids|] == x;
    forall y | y in SetOf(ids)
      ensures y in SetOf(all)
    {
      var i :| 0 <= i < |ids| && ids[i] == y;
      assert all[i] == y;
    }
  }

  /** One more grant, and who has won with it. */
  lemma GrantPush(configs: seq<set<NodeId>>, voters: seq<NodeId>, grants: seq<NodeId>, src: NodeId)
    requires NoDup(voters) && (forall g :: g in grants ==> g in voters) && src in voters
    ensures var t := ProgressRuns.RunOps(Progress.New(configs, voters, [], 0), Grants(grants));
            var t' := Progress.IncreaseTo(t, src, 1);
            Flags(t) && Progress.IndexOf(t.vector, src).Some?
            && t' == ProgressRuns.RunOps(Progress.New(configs, voters, [], 0), Grants(grants + [src]))
            && (t'.granted == 1 <==> IsQuorum(configs, SetOf(grants) + {src}))
  {
    hide IsQuorum, Progress.Sound, Flags, SetOf, Progress.IncreaseTo;
    var t0 := Progress.New(configs, voters, [], 0);
    var t, op := ProgressRuns.RunOps(t0, Grants(grants)), ProgressRuns.Op(src, 1);
    GrantRun(configs, voters, grants);
    assert Progress.Entry(src, if src in grants then 1 else 0) in t.vector;
    assert Grants(grants + [src]) == Grants(grants) + [op];
    ProgressRuns.RunAppend(t0, Grants(grants), [op]);
    assert [op][1..] == [];
    assert ProgressRuns.RunOps(t, [op]) == ProgressRuns.RunOps(Progress.IncreaseTo(t, src, 1), [op][1..]);
    ElectionIsExact(configs, voters, grants + [src]);
    SetOfPush(grants, src);
  }

  /** The candidate's tracker has taken in the grants. */
  ghost predicate Counted(configs: seq<set<NodeId>>, voters: seq<NodeId>, grants: seq<NodeId>, t: Progress.Tracker) {
    t == ProgressRuns.RunOps(Progress.New(configs, voters, [], 0), Grants(grants))
    && forall g :: g in grants ==> g in voters
  }

  /** Who has granted does not matter once the election is won. */
  lemma EstablishSame(cfg: Config, id: NodeId, n: Node, c: RaftNode.Candidate, c': RaftNode.Candidate)
    requires c'.leader == c.leader && c'.last == c.last
    ensures EstablishLeader(cfg, id, n.(candidate := Some(c')), c') == EstablishLeader(cfg, id, n, c)
  {
  }

  lemma RefusedVote(cfg: Config, id: NodeId, n: Node, v: Vote)
    ensures !UpdateVote(cfg, id, n, v).0 ==> UpdateVote(cfg, id, n, v).1 == n
  {
  }

  /** A leader that commits its own vote goes on leading. */
  lemma OwnVoteCommitted(cfg: Config, id: NodeId, n: Node, w: LeaderId)
    requires w.node == Some(id) && n.leader.Some? && n.leader.value.leader == w
    ensures UpdateVote(cfg, id, n, Vote(w, true)).1.leader == n.leader
  {
  }

  /** Whom a candidate asks votes for, and the end of its log then. */
  datatype Voting = Voting(leader: LeaderId, last: Option<LogId>)

  class Engine {
    const cfg: Config
    const id: NodeId
    const voters: seq<NodeId>
    const learners: seq<NodeId>
    const logIds: KeyList
    var vote: Vote
    var committed: Option<LogId>
    var accepted: Option<LogId>
    var voting: Option<Voting>
    var tally: ProgressVec.Candidate?
    var leader: Option<Leader>
    var progress: VecProgress?
    var seenGreaterLog: bool
    var output: seq<Command>
    /** The grants that the candidate has counted, in their order. */
    ghost var grants: seq<NodeId>
    /** What storage holds; the engine does not touch it. */
    ghost const disk: Store

    ghost function Trackers(): set<object>
      reads this
    {
      (if tally == null then {} else {tally.progress as object}) + if progress == null then {} else {progress as object}
    }

    ghost predicate Valid()
      reads this, logIds, Trackers()
    {
      IsLog(logIds) && NoDup(voters + learners) && NoDup(voters)
      && (tally != null && progress != null ==> tally.progress != progress)
      && (voting.Some? ==> tally != null && tally.progress.Valid()
                           && Counted(cfg.configs, voters, grants, tally.progress.View()))
      && (leader.Some? ==> progress != null && progress.Valid())
    }

    ghost function View(): Node
      requires logIds.Valid()
      reads this, logIds
    {
      Node(vote, logIds.Contents().leaders, committed, accepted,
           if voting.None? then None
           else Some(RaftNode.Candidate(voting.value.leader, voting.value.last, SetOf(grants))),
           leader, output, disk)
    }

    /** A candidate asks votes for its own node. */
    predicate OwnCandidate()
      reads this
    {
      voting.Some? ==> voting.value.leader.node == Some(id)
    }

    /** Start from what storage holds. A node whose saved vote is its own and committed leads at once. */
    constructor (cfg: Config, id: NodeId, voters: seq<NodeId>, learners: seq<NodeId>, keys: seq<LogId>, store: Store,
                 keepCommitted: bool, ghost before: Node)
      requires NoDup(voters + learners)
      requires WellFormed(keys) && Expand(keys) == Plain(0, store.log) && before.disk == store
      ensures Valid() && fresh(logIds) && fresh(Trackers())
      ensures this.cfg == cfg && this.id == id && this.voters == voters
      ensures View() == Restart(cfg, id, before, keepCommitted)
    {
      this.cfg, this.id, this.voters, this.learners := cfg, id, voters, learners;
      var list := new KeyList(keys);
      logIds := list;
      vote := store.vote;
      committed := if keepCommitted then store.committed else None;
      accepted, voting, tally, leader, progress, output := None, None, null, None, null, [];
      seenGreaterLog, grants := false, [];
      disk := store.(committed := if keepCommitted then store.committed else None);
      new;
      assert forall i :: 0 <= i < |voters| ==> (voters + learners)[i] == voters[i];
      if vote.leader.node == Some(id) && vote.committed {
        BecomeLeader();
      }
    }

    // ---- votes ----

    method UpdateVote(v: Vote) returns (ok: bool)
      requires Valid()
      modifies this, logIds
      ensures Valid() && tally == old(tally) && grants == old(grants) && (progress == old(progress) || fresh(progress))
      ensures seenGreaterLog == old(seenGreaterLog)
      ensures (ok, View()) == RaftNode.UpdateVote(cfg, id, old(View()), v)
      ensures progress != old(progress) ==> progress != null && progress.View() == RaftTracked.NewTracker(cfg, Rule())
    {
      hide RaftNode.BecomeLeader, Counted, Expand, WellFormed, NoDup;
      if !VoteLe(cfg.mode, vote, v) {
        return false;
      }
      if VoteLt(cfg.mode, vote, v) {
        vote := v;
        accepted := None;
        output := output + [SaveVote(v)];
        if !v.committed {
          // A saved vote that is not committed is answered to the local candidate.
          output := output + [Send(VoteResp(id, id, v.leader, v, None, true))];
        }
      } else {
        VoteOrderIsPartialOrder(cfg.mode, vote, v, v);
      }
      UpdateInternalServerState();
      return true;
    }

    method UpdateInternalServerState()
      requires Valid()
      modifies this, logIds
      ensures Valid() && tally == old(tally) && grants == old(grants) && (progress == old(progress) || fresh(progress))
      ensures seenGreaterLog == old(seenGreaterLog)
      ensures View() == UpdateServerState(cfg, id, old(View()))
      ensures progress != old(progress) ==> progress != null && progress.View() == RaftTracked.NewTracker(cfg, Rule())
    {
      if vote.leader.node == Some(id) && vote.committed {
        BecomeLeader();
      } else if vote.leader.node != Some(id) {
        leader, voting := None, None;
      }
    }

    method BecomeLeader()
      requires Valid()
      modifies this, logIds
      ensures Valid() && tally == old(tally) && grants == old(grants) && (progress == old(progress) || fresh(progress))
      ensures seenGreaterLog == old(seenGreaterLog)
      ensures View() == RaftNode.BecomeLeader(cfg, id, old(View()))
      ensures progress != old(progress) ==> progress != null && progress.View() == RaftTracked.NewTracker(cfg, Rule())
    {
      hide LeaderAppend, RaftNode.LastRun, Increasing, Progress.New, Counted, Expand, WellFormed, NoDup;
      if leader.Some? && leader.value.leader == vote.leader {
        return;
      }
      LastIs(logIds);
      var last := logIds.LastKey();
      var noop := FindNoop();
      leader := Some(Leader(vote.leader, last));
      progress := new VecProgress(cfg.configs, voters, learners, -1);
      if OptLt(accepted, last) {
        accepted := last;
      }
      // The restored log is acknowledged to the leader itself.
      output := output + [Send(AppendResp(id, id, vote.leader, Success(last)))];
      if OptLt(last, Some(noop)) {
        LeaderAppendEntries(1);
      }
    }

    ghost function Rule(): RaftTracked.Rule {
      RaftTracked.Rule(voters, learners, false)
    }

    /** The first log id of the leader under the vote, by the ids of the last leader. */
    method FindNoop() returns (noop: LogId)
      requires IsLog(logIds)
      ensures noop == NoopId(cfg, View())
    {
      var term := VoteTerm(cfg.mode, vote);
      var r := logIds.ByLastLeader();
      LastIs(logIds);
      ghost var log := logIds.Contents().leaders;
      if r.None? {
        return LogId(term, 0);
      }
      var (first, last) := r.value;
      assert Lookup(logIds.Contents(), last.index) == Some(last);
      if last.leader != term {
        return LogId(term, last.index + 1);
      }
      forall j | first.index <= j < |log|
        ensures log[j] == last.leader
      {
        assert Lookup(logIds.Contents(), j) == Some(LogId(last.leader, j));
      }
      if first.index > 0 {
        assert Lookup(logIds.Contents(), first.index - 1) == Some(LogId(log[first.index - 1], first.index - 1));
      }
      LastRunIs(log, first.index);
      return first;
    }

    // ---- leading ----

    /** Assign log ids after the leader's last one, one entry after another. */
    method AssignLogIds(l: Leader, count: nat) returns (ids: seq<LogId>, l': Leader)
      ensures |ids| == count && l'.leader == l.leader
      ensures forall i :: 0 <= i < count ==>
                ids[i] == LogId(ToCommitted(cfg.mode, l.leader), NextIndex(l.last) + i)
      ensures l'.last == if count == 0 then l.last else Some(ids[count - 1])
    {
      ids, l' := [], l;
      if count == 0 {
        return;
      }
      var term := ToCommitted(cfg.mode, l.leader);
      var index := NextIndex(l.last);
      for k := 0 to count
        invariant |ids| == k && index == NextIndex(l.last) + k
        invariant forall i :: 0 <= i < k ==> ids[i] == LogId(term, NextIndex(l.last) + i)
      {
        ids := ids + [LogId(term, index)];
        index := index + 1;
      }
      index := index - 1;
      l' := Leader(l.leader, Some(LogId(term, index)));
    }

    method LeaderAppendEntries(count: nat)
      requires Valid() && leader.Some?
      modifies this`leader, this`accepted, this`output, logIds
      ensures Valid() && View() == LeaderAppend(cfg, id, old(View()), old(leader.value), count)
    {
      hide Counted, Expand, WellFormed, NoDup, AppendAll, Ascending, OneLeader;
      if count == 0 {
        return;
      }
      LastIs(logIds);
      var l := leader.value;
      var ids, l' := AssignLogIds(l, count);
      leader := Some(l');
      var entries := seq(count, i requires 0 <= i < |ids| => ids[i].leader);
      assert entries == seq(count, _ => ToCommitted(cfg.mode, l.leader));
      if ids[0].index == NextIndex(logIds.LastKey()) {
        ghost var log := logIds.Contents().leaders;
        AssignedExtend(log, ids, ToCommitted(cfg.mode, l.leader), entries);
        logIds.ExtendFromSameLeader(ids);
      }
      if OptLt(accepted, l'.last) {
        accepted := l'.last;
      }
      output := output + [AppendEntries(entries)];
      output := output + [Send(AppendResp(id, id, l.leader, Success(l'.last)))];
    }

    /** A follower, or this node's own storage, has accepted the leader's log up to `index`. The tracker takes it in,
        and what it grants is committed. */
    method UpdateMatching(src: NodeId, index: nat)
      requires Valid() && leader.Some?
      modifies this`committed, this`output, progress
      ensures Valid() && progress.View() == Progress.IncreaseTo(old(progress.View()), src, index)
      ensures View() == RaftTracked.Granted(cfg, old(View()), progress.granted)
    {
      var _ := progress.Raise(src, index);
      if progress.granted >= 0 {
        var x := logIds.RefAt(progress.granted);
        if x.Some? {
          TryCommitQuorumAccepted(x.value);
        }
      }
    }

    /** A log id that a quorum accepted is committed if it is of the current leader. */
    method TryCommitQuorumAccepted(granted: LogId)
      requires IsLog(logIds) && Lookup(logIds.Contents(), granted.index) == Some(granted)
      modifies this`committed, this`output
      ensures View() == LeaderCommit(cfg, old(View()), granted.index)
    {
      if granted.leader != VoteTerm(cfg.mode, vote) {
        return;
      }
      if OptLt(committed, Some(granted)) {
        committed := Some(granted);
        output := output + [SaveCommitted(granted)];
      }
    }

    // ---- elections ----

    method ElectSelf()
      requires Valid()
      modifies this, logIds
      ensures Valid() && OwnCandidate() && fresh(tally) && fresh(tally.progress)
      ensures progress == old(progress) || fresh(progress)
      ensures View() == Elect(cfg, id, old(View()))
    {
      hide Expand, WellFormed, NoDup, RaftNode.UpdateVote;
      LastIs(logIds);
      RaftElection.ElectShape(cfg, id, View());
      var newLeader := LeaderId(vote.leader.term + 1, Some(id));
      var last := logIds.LastKey();
      tally := new ProgressVec.Candidate(cfg.configs, voters);
      voting, grants := Some(Voting(newLeader, last)), [];
      assert SetOf([]) == {};
      assert Grants([]) == [];
      var ok := UpdateVote(Vote(newLeader, false));
      output := output + [Send(VoteReq(newLeader, last))];
    }

    method HandleVoteReq(src: NodeId, from: LeaderId, last: Option<LogId>, leased: bool)
      requires Valid()
      modifies this, logIds
      ensures Valid() && tally == old(tally) && (progress == old(progress) || fresh(progress))
      ensures View() == RaftNode.HandleVoteReq(cfg, id, old(View()), src, from, last, leased)
    {
      hide Counted, Expand, WellFormed, NoDup, RaftNode.UpdateVote;
      LastIs(logIds);
      var ok := false;
      if vote.committed && leased {
        // The lease of the current leader has not expired.
      } else if !OptLe(logIds.LastKey(), last) {
        // The candidate has less log.
      } else {
        ok := UpdateVote(Vote(from, false));
        LastIs(logIds);
      }
      output := output + [Send(VoteResp(id, src, from, vote, logIds.LastKey(), ok))];
    }

    /** A vote that is granted is counted by the candidate's tracker, and the election is won when that grants it.
        Only voters are asked. A refusal with a greater log id is remembered, to put off the next election. */
    method HandleVoteResp(src: NodeId, req: LeaderId, replied: Vote, last: Option<LogId>, granted: bool)
      requires Valid() && OwnCandidate()
      requires voting.Some? && req == voting.value.leader && granted && replied == Vote(req, false) ==> src in voters
      modifies this, logIds, if tally == null then {} else {tally.progress}
      ensures Valid() && tally == old(tally) && (progress == old(progress) || fresh(progress))
      ensures View() == RaftNode.HandleVoteResp(cfg, id, old(View()), src, req, replied, granted)
      ensures seenGreaterLog
              == (old(seenGreaterLog)
                  || (old(voting.Some? && req == voting.value.leader) && !(granted && replied == Vote(req, false))
                      && OptLt(LastId(old(View()).log), last)))
    {
      hide Expand, WellFormed, RaftNode.UpdateVote, RaftNode.EstablishLeader, IsQuorum, Progress.IncreaseTo;
      LastIs(logIds);
      if voting.None? || req != voting.value.leader {
        return;
      }
      if granted && replied == Vote(req, false) {
        GrantPush(cfg.configs, voters, grants, src);
        var r := tally.GrantBy(src);
        grants := grants + [src];
        SetOfPush(old(grants), src);
        if r == Ok(true) {
          ghost var n := old(View());
          EstablishSame(cfg, id, n, n.candidate.value, n.candidate.value.(granters := SetOf(grants)));
          EstablishLeader();
        }
        return;
      }
      if OptLt(logIds.LastKey(), last) {
        seenGreaterLog := true;
      }
      var _ := UpdateVote(replied);
    }

    method EstablishLeader()
      requires Valid() && voting.Some? && OwnCandidate()
      modifies this, logIds
      ensures Valid() && tally == old(tally) && (progress == old(progress) || fresh(progress))
      ensures seenGreaterLog == old(seenGreaterLog)
      ensures View() == RaftNode.EstablishLeader(cfg, id, old(View()), old(View()).candidate.value)
      ensures progress != old(progress) ==> progress != null && progress.View() == RaftTracked.NewTracker(cfg, Rule())
    {
      hide Counted, Expand, WellFormed, NoDup, LeaderAppend, RaftNode.UpdateVote, Progress.New;
      var c := voting.value;
      voting := None;
      if leader.Some? && !VoteLt(cfg.mode, Vote(leader.value.leader, true), Vote(c.leader, false)) {
        // There is a leader with a higher vote already.
        return;
      }
      var l := Leader(c.leader, c.last);
      leader := Some(l);
      progress := new VecProgress(cfg.configs, voters, learners, -1);
      OwnVoteCommitted(cfg, id, View(), c.leader);
      var ok := UpdateVote(Vote(c.leader, true));
      if OptLt(accepted, c.last) {
        accepted := c.last;
      }
      // The new leader proposes a blank entry.
      LeaderAppendEntries(1);
    }

    // ---- following ----

    method HasLogId(x: LogId) returns (b: bool)
      requires IsLog(logIds)
      ensures b == RaftNode.HasLogId(View(), x)
    {
      if x.index < NextIndex(committed) {
        return true;
      }
      var r := logIds.RefAt(x.index);
      return r == Some(x);
    }

    method FirstConflictingIndex(start: nat, entries: Log) returns (k: nat)
      requires IsLog(logIds)
      ensures k == FirstConflict(View(), start, entries)
    {
      k := 0;
      while k < |entries|
        invariant 0 <= k <= |entries|
        invariant FirstConflict(View(), start, entries) == k + FirstConflict(View(), start + k, entries[k..])
      {
        assert entries[k..][0] == entries[k] && entries[k..][1..] == entries[k + 1..];
        var has := HasLogId(LogId(entries[k], start + k));
        if !has {
          return;
        }
        k := k + 1;
      }
    }

    method TruncateLogs(since: nat)
      requires IsLog(logIds)
      modifies this`output, logIds
      ensures IsLog(logIds) && View() == Truncate(old(View()), since)
    {
      LastIs(logIds);
      if since >= NextIndex(logIds.LastKey()) {
        return;
      }
      logIds.Truncate(since);
      output := output + [TruncateLog(since)];
    }

    /** The entries that are absent replace what the log has from the first of them on. What the request builds on is
        present, and so is what is committed. */
    method FollowerAppendEntries(prev: Option<LogId>, entries: Log)
      requires IsLog(logIds) && NextIndex(committed) <= |View().log|
      requires prev.Some? ==> RaftNode.HasLogId(View(), prev.value)
      modifies this`accepted, this`output, logIds
      ensures IsLog(logIds) && View() == FollowerAppend(old(View()), prev, entries)
    {
      hide Expand, WellFormed, AppendAll, Ascending, FirstConflict, FollowerAppend;
      ghost var n := View();
      FollowerAppendShape(n, prev, entries);
      FirstConflictIs(n, NextIndex(prev), entries);
      var since := FirstConflictingIndex(NextIndex(prev), entries);
      var sent := LastSent(prev, entries);
      if OptLt(accepted, sent) {
        accepted := sent;
      }
      if since < |entries| {
        var at := NextIndex(prev) + since;
        PresentFits(n, prev, entries, since);
        TruncateLogs(at);
        ghost var log := logIds.Contents().leaders;
        assert |log| == at;
        AppendAllIs(log, entries[since..]);
        logIds.Extend(IdsFrom(entries[since..], at));
        output := output + [AppendEntries(entries[since..])];
      }
    }

    method CommitUpTo(commit: Option<LogId>)
      requires logIds.Valid()
      modifies this`committed, this`output
      ensures View() == CommitEntries(old(View()), commit)
    {
      var c := OptMin(accepted, commit);
      if OptLt(committed, c) {
        committed := c;
        output := output + [SaveCommitted(c.value)];
      }
    }

    method HandleAppendEntries(src: NodeId, from: LeaderId, prev: Option<LogId>, entries: Log,
                               commit: Option<LogId>)
      requires Valid() && NextIndex(committed) <= |View().log|
      modifies this, logIds
      ensures Valid() && tally == old(tally) && (progress == old(progress) || fresh(progress))
      ensures View() == HandleAppendReq(cfg, id, old(View()), src, from, prev, entries, commit)
    {
      hide Counted, Expand, WellFormed, NoDup, RaftNode.UpdateVote, FollowerAppend, CommitEntries, LastSent;
      hide FirstConflict, RaftNode.HasLogId, Truncate;
      RefusedVote(cfg, id, View(), Vote(from, true));
      RaftTheorems.UpdateVoteGrows(cfg, id, View(), Vote(from, true));
      var ok := UpdateVote(Vote(from, true));
      if !ok {
        output := output + [Send(AppendResp(id, src, from, HigherVote(vote)))];
        return;
      }
      if prev.Some? {
        var has := HasLogId(prev.value);
        if !has {
          TruncateLogs(prev.value.index);
          output := output + [Send(AppendResp(id, src, from, Conflict))];
          return;
        }
      }
      FollowerAppendEntries(prev, entries);
      output := output + [Send(AppendResp(id, src, from, Success(LastSent(prev, entries))))];
      CommitUpTo(commit);
    }
  }

  /** What is present, or committed, is within the log. */
  lemma PresentFits(n: Node, prev: Option<LogId>, entries: Log, since: nat)
    requires NextIndex(n.committed) <= |n.log| && since <= |entries|
    requires prev.Some? ==> HasLogId(n, prev.value)
    requires forall j :: 0 <= j < since ==> HasLogId(n, LogId(entries[j], NextIndex(prev) + j))
    ensures NextIndex(prev) + since <= |n.log|
  {
    if since > 0 {
      assert HasLogId(n, LogId(entries[since - 1], NextIndex(prev) + (since - 1)));
    }
  }
}
