/** Replicating, repairing a follower's log and committing keep the invariant. */
module RaftReplication {
  import opened Basics
  import opened Votes
  import opened RaftNode
  import opened RaftCluster
  import opened RaftInvariant
  import opened RaftSafety
  import opened RaftCore
  import opened RaftVoting

  // ---- what a follower knows of its leader's log ----

  ghost predicate Following(cfg: Config, h: History, id: NodeId, n: Node) {
    HistoryOk(cfg, h) && NodeOk(cfg, h, id, n)
    && n.vote.committed && n.vote.leader in h.leaders && n.vote.leader.node != Some(id)
    && n.leader.None? && n.candidate.None?
  }

  /** The committed part of a follower's log is its leader's. */
  lemma CommittedFollows(cfg: Config, h: History, st: Store)
    requires HistoryOk(cfg, h) && Complete(cfg, h) && CommitOk(cfg, h, st)
    requires st.vote.committed && st.vote.leader in h.leaders
    ensures Follows(h.bases, st.log, VoteTerm(cfg.mode, st.vote), NextIndex(st.committed))
  {
    var v := VoteTerm(cfg.mode, st.vote);
    assert EstablishedOk(cfg, h, st.vote.leader);
    if st.committed.Some? {
      var c := st.committed.value;
      var x, j :| Covers(cfg, h, x, j, c.index) && Under(cfg.mode, x, st.vote)
                  && Follows(h.bases, st.log, x, c.index + 1);
      forall i | 0 <= i < c.index + 1
        ensures st.log[i] == At(h.bases, v, i)
      {
        ChosenAgrees(cfg, h, x, j, v, i);
      }
    }
  }

  /** Taking committed indexes on trust is sound: what `HasLogId` accepts is on the leader's log. */
  lemma HasFollows(cfg: Config, h: History, id: NodeId, n: Node, x: LogId)
    requires HistoryOk(cfg, h) && Complete(cfg, h) && StoreOk(cfg, h, id, Mem(n))
    requires n.vote.committed && n.vote.leader in h.leaders
    requires HasLogId(n, x) && x.leader == At(h.bases, VoteTerm(cfg.mode, n.vote), x.index)
    ensures Follows(h.bases, n.log, VoteTerm(cfg.mode, n.vote), x.index + 1)
  {
    var v := VoteTerm(cfg.mode, n.vote);
    assert EstablishedOk(cfg, h, n.vote.leader);
    if x.index < NextIndex(n.committed) {
      CommittedFollows(cfg, h, Mem(n));
    } else {
      FollowsFromMatch(h.bases, n.log, v, x.index);
    }
  }

  lemma {:induction false} FirstConflictIs(n: Node, start: nat, entries: Log)
    ensures var k := FirstConflict(n, start, entries);
            (forall j :: 0 <= j < k ==> HasLogId(n, LogId(entries[j], start + j)))
            && (k < |entries| ==> !HasLogId(n, LogId(entries[k], start + k)))
    decreases |entries|
  {
    if |entries| > 0 && HasLogId(n, LogId(entries[0], start)) {
      FirstConflictIs(n, start + 1, entries[1..]);
      var k := FirstConflict(n, start, entries);
      forall j | 0 <= j < k
        ensures HasLogId(n, LogId(entries[j], start + j))
      {
        if j > 0 {
          assert HasLogId(n, LogId(entries[1..][j - 1], start + 1 + (j - 1)));
        }
      }
    }
  }

  // ---- truncating ----

  /** Cutting where the log departs from the leader's removes an acknowledged entry only if the leader was
      elected without it. */
  lemma AckTruncated(cfg: Config, h: History, id: NodeId, n: Node, since: nat, m: Msg)
    requires Following(cfg, h, id, n) && Said(h, n, m) && m.AppendResp?
    requires since < |n.log| && n.log[since] != At(h.bases, VoteTerm(cfg.mode, n.vote), since)
    ensures Promise(cfg, h, id, m, Mem(n).(log := n.log[..since]))
  {
    MemHasPromises(cfg, h, id, n);
    assert Promise(cfg, h, id, m, Mem(n));
    if m.src == id && m.res.Success? && m.res.last.Some? {
      var u := VoteTerm(cfg.mode, n.vote);
      var v := ToCommitted(cfg.mode, m.req);
      assert EstablishedOk(cfg, h, n.vote.leader);
      forall i | |h.bases[v]| <= i <= m.res.last.value.index
        ensures Contains(n.log[..since], v, i) || Overwritten(cfg, h, v, i, n.vote)
      {
        if Contains(n.log, v, i) && since <= i {
          LostTo(cfg, h, n, since, m.req, i);
        }
      }
    }
  }

  lemma LostTo(cfg: Config, h: History, n: Node, since: nat, l: LeaderId, i: nat)
    requires BasesOk(h.bases) && LogOk(h.bases, n.log) && n.vote.committed
    requires VoteTerm(cfg.mode, n.vote) in h.bases && ToCommitted(cfg.mode, l) in h.bases
    requires VoteLe(cfg.mode, Vote(l, true), n.vote)
    requires since <= i < |n.log| && n.log[since] != At(h.bases, VoteTerm(cfg.mode, n.vote), since)
    requires n.log[i] == ToCommitted(cfg.mode, l)
    ensures Overwritten(cfg, h, ToCommitted(cfg.mode, l), i, n.vote)
  {
    var u := VoteTerm(cfg.mode, n.vote);
    var v := ToCommitted(cfg.mode, l);
    if At(h.bases, u, i) == v {
      FollowsFromMatch(h.bases, n.log, u, i);
    }
    assert v != u;
    assert Lacks(h, u, v, i);
  }

  lemma TruncatePromises(cfg: Config, h: History, id: NodeId, n: Node, since: nat)
    requires Following(cfg, h, id, n)
    requires since < |n.log| && n.log[since] != At(h.bases, VoteTerm(cfg.mode, n.vote), since)
    ensures PromisesHold(cfg, h, id, n, Mem(n).(log := n.log[..since]))
  {
    MemHasPromises(cfg, h, id, n);
    forall m | Said(h, n, m)
      ensures Promise(cfg, h, id, m, Mem(n).(log := n.log[..since]))
    {
      assert Promise(cfg, h, id, m, Mem(n));
      if m.AppendResp? {
        AckTruncated(cfg, h, id, n, since, m);
      }
    }
  }

  lemma CommitTruncate(cfg: Config, h: History, st: Store, since: nat)
    requires CommitOk(cfg, h, st) && NextIndex(st.committed) <= since <= |st.log|
    ensures CommitOk(cfg, h, st.(log := st.log[..since]))
  {
  }

  lemma TruncateOk(cfg: Config, h: History, id: NodeId, n: Node, since: nat)
    requires Following(cfg, h, id, n) && NextIndex(n.committed) <= since
    requires since < |n.log| ==> n.log[since] != At(h.bases, VoteTerm(cfg.mode, n.vote), since)
    ensures Following(cfg, h, id, Truncate(n, since))
  {
    hide HistoryOk, GrantsOk, SendsOk;
    if since < |n.log| {
      var n' := Truncate(n, since);
      MemHasPromises(cfg, h, id, n);
      CommitTruncate(cfg, h, Mem(n), since);
      TruncatePromises(cfg, h, id, n, since);
      assert StoreOk(cfg, h, id, Mem(n'));
      PushOk(cfg, h, id, n, n', TruncateLog(since));
      TruncateRoles(cfg, h, id, n, since);
    }
  }

  lemma TruncateRoles(cfg: Config, h: History, id: NodeId, n: Node, since: nat)
    requires RolesOk(cfg, h, id, n) && n.leader.None? && n.candidate.None?
    requires since < |n.log| && n.log[since] != At(h.bases, VoteTerm(cfg.mode, n.vote), since)
    ensures RolesOk(cfg, h, id, Truncate(n, since))
  {
  }

  // ---- appending ----

  /** The first entry that is absent is not committed, and the log departs from the leader's there. */
  lemma AbsentDeparts(cfg: Config, h: History, n: Node, m: Msg)
    requires m.AppendReq? && SegmentOk(cfg, h, m)
    ensures var k := FirstConflict(n, NextIndex(m.prev), m.entries);
            var t := NextIndex(m.prev) + k;
            k < |m.entries| ==>
              NextIndex(n.committed) <= t
              && (t < |n.log| ==> n.log[t] != At(h.bases, ToCommitted(cfg.mode, m.leader), t))
  {
    FirstConflictIs(n, NextIndex(m.prev), m.entries);
  }

  lemma LastPresent(cfg: Config, h: History, n: Node, m: Msg) returns (x: LogId)
    requires m.AppendReq? && SegmentOk(cfg, h, m)
    requires m.prev.Some? ==> HasLogId(n, m.prev.value)
    requires NextIndex(m.prev) + FirstConflict(n, NextIndex(m.prev), m.entries) > 0
    ensures x.index + 1 == NextIndex(m.prev) + FirstConflict(n, NextIndex(m.prev), m.entries)
    ensures HasLogId(n, x) && x.leader == At(h.bases, ToCommitted(cfg.mode, m.leader), x.index)
  {
    var start := NextIndex(m.prev);
    var k := FirstConflict(n, start, m.entries);
    FirstConflictIs(n, start, m.entries);
    x := if k > 0 then LogId(m.entries[k - 1], start + (k - 1)) else m.prev.value;
  }

  /** The log up to where the entries that are present end is the leader's. */
  lemma PresentFollows(cfg: Config, h: History, id: NodeId, n: Node, m: Msg)
    requires HistoryOk(cfg, h) && Complete(cfg, h) && StoreOk(cfg, h, id, Mem(n))
    requires n.vote.committed && n.vote.leader in h.leaders
    requires m.AppendReq? && m.leader == n.vote.leader && SegmentOk(cfg, h, m)
    requires m.prev.Some? ==> HasLogId(n, m.prev.value)
    ensures var t := NextIndex(m.prev) + FirstConflict(n, NextIndex(m.prev), m.entries);
            Follows(h.bases, n.log, VoteTerm(cfg.mode, n.vote), t)
  {
    if NextIndex(m.prev) + FirstConflict(n, NextIndex(m.prev), m.entries) > 0 {
      var x := LastPresent(cfg, h, n, m);
      HasFollows(cfg, h, id, n, x);
    }
  }

  lemma LastSentIs(cfg: Config, h: History, m: Msg)
    requires HistoryOk(cfg, h) && m.AppendReq? && SegmentOk(cfg, h, m)
    ensures var e := NextIndex(m.prev) + |m.entries|;
            var v := ToCommitted(cfg.mode, m.leader);
            LastSent(m.prev, m.entries) == (if e == 0 then None else Some(LogId(At(h.bases, v, e - 1), e - 1)))
  {
    hide LogOk, BasesOk, MsgOk, AskedOk;
    var v := ToCommitted(cfg.mode, m.leader);
    assert EstablishedOk(cfg, h, m.leader);
    if |m.entries| > 0 && m.prev.Some? {
      AtMonotone(h.bases, v, m.prev.value.index, NextIndex(m.prev) + |m.entries| - 1);
    }
  }

  /** The follower after it cut its log at `t` and queued the entries from there. */
  function Repaired(n: Node, t: nat, rest: Log): Node {
    var n1 := Truncate(n, t);
    Push(n1.(log := n1.log + rest), AppendEntries(rest))
  }

  lemma FollowerAppendShape(n: Node, prev: Option<LogId>, entries: Log)
    ensures var k := FirstConflict(n, NextIndex(prev), entries);
            var acc := OptMax(n.accepted, LastSent(prev, entries));
            FollowerAppend(n, prev, entries) ==
            if k < |entries| then Repaired(n, NextIndex(prev) + k, entries[k..]).(accepted := acc)
            else n.(accepted := acc)
  {
  }

  lemma RepairedOk(cfg: Config, h: History, id: NodeId, n: Node, t: nat, rest: Log)
    requires Following(cfg, h, id, n) && NextIndex(n.committed) <= t
    requires Follows(h.bases, n.log, VoteTerm(cfg.mode, n.vote), t)
    requires t < |n.log| ==> n.log[t] != At(h.bases, VoteTerm(cfg.mode, n.vote), t)
    requires forall j :: 0 <= j < |rest| ==> rest[j] == At(h.bases, VoteTerm(cfg.mode, n.vote), t + j)
    ensures CoreOk(cfg, h, id, Repaired(n, t, rest))
    ensures t <= |n.log| && Repaired(n, t, rest).log == n.log[..t] + rest
    ensures Repaired(n, t, rest).vote == n.vote
    ensures Follows(h.bases, n.log[..t] + rest, VoteTerm(cfg.mode, n.vote), t + |rest|)
  {
    hide HistoryOk, CoreOk, RolesOk, Follows;
    var n1 := Truncate(n, t);
    FollowsLong(h.bases, n.log, VoteTerm(cfg.mode, n.vote), t);
    TruncateOk(cfg, h, id, n, t);
    assert n1.log == n.log[..t];
    FollowsJoin(h.bases, n.log, VoteTerm(cfg.mode, n.vote), t, rest);
    AppendOk(cfg, h, id, n1, Repaired(n, t, rest), rest);
  }

  lemma FollowsLong(bases: map<LeaderId, Log>, log: Log, v: LeaderId, t: nat)
    requires Follows(bases, log, v, t)
    ensures t <= |log|
  {
  }

  lemma FollowsJoin(bases: map<LeaderId, Log>, log: Log, v: LeaderId, t: nat, rest: Log)
    requires Follows(bases, log, v, t)
    requires forall j :: 0 <= j < |rest| ==> rest[j] == At(bases, v, t + j)
    ensures t <= |log| && Follows(bases, log[..t] + rest, v, t + |rest|)
  {
    hide At;
    forall i | 0 <= i < t + |rest|
      ensures (log[..t] + rest)[i] == At(bases, v, i)
    {
      if i >= t {
        assert (log[..t] + rest)[i] == rest[i - t];
      }
    }
  }

  lemma AppendRepairs(cfg: Config, h: History, id: NodeId, n: Node, m: Msg)
    requires Following(cfg, h, id, n)
    requires m.AppendReq? && m.leader == n.vote.leader && SegmentOk(cfg, h, m)
    requires Follows(h.bases, n.log, VoteTerm(cfg.mode, n.vote),
                     NextIndex(m.prev) + FirstConflict(n, NextIndex(m.prev), m.entries))
    requires FirstConflict(n, NextIndex(m.prev), m.entries) < |m.entries|
    ensures var k := FirstConflict(n, NextIndex(m.prev), m.entries);
            var n' := Repaired(n, NextIndex(m.prev) + k, m.entries[k..]);
            CoreOk(cfg, h, id, n') && n'.vote == n.vote
            && NextIndex(m.prev) + k <= |n.log|
            && n'.log == n.log[..NextIndex(m.prev) + k] + m.entries[k..]
            && Follows(h.bases, n'.log, VoteTerm(cfg.mode, n.vote), NextIndex(m.prev) + |m.entries|)
  {
    hide CoreOk, HistoryOk, AcceptedOk, SegmentOk, Follows, Repaired, FirstConflict;
    var k := FirstConflict(n, NextIndex(m.prev), m.entries);
    AbsentDeparts(cfg, h, n, m);
    RestIs(cfg, h, m, k);
    RepairedOk(cfg, h, id, n, NextIndex(m.prev) + k, m.entries[k..]);
  }

  lemma RepairedRoles(cfg: Config, h: History, n: Node, n': Node, m: Msg, k: nat)
    requires HistoryOk(cfg, h) && m.AppendReq? && m.leader == n.vote.leader && SegmentOk(cfg, h, m)
    requires AcceptedOk(cfg, h, n) && n.vote.committed && n'.vote == n.vote
    requires k <= |m.entries| && NextIndex(m.prev) + k <= |n.log|
    requires n'.log == n.log[..NextIndex(m.prev) + k] + m.entries[k..]
    requires var t := NextIndex(m.prev) + k;
             t < |n.log| ==> n.log[t] != At(h.bases, VoteTerm(cfg.mode, n.vote), t)
    requires Follows(h.bases, n'.log, VoteTerm(cfg.mode, n.vote), NextIndex(m.prev) + |m.entries|)
    requires n'.accepted == OptMax(n.accepted, LastSent(m.prev, m.entries))
    ensures AcceptedOk(cfg, h, n')
  {
    var t := NextIndex(m.prev) + k;
    assert n'.log[..t] == n.log[..t];
    LastSentIs(cfg, h, m);
    RepairedAccepted(cfg, h, n, n', t, m);
  }

  lemma RepairedFollowing(cfg: Config, h: History, id: NodeId, n: Node, r: Node, m: Msg, k: nat)
    requires HistoryOk(cfg, h) && m.AppendReq? && m.leader == n.vote.leader && SegmentOk(cfg, h, m)
    requires AcceptedOk(cfg, h, n) && n.vote.committed && n.vote.leader.node != Some(id)
    requires CoreOk(cfg, h, id, r) && r.vote == n.vote && r.leader.None? && r.candidate.None?
    requires k <= |m.entries| && NextIndex(m.prev) + k <= |n.log|
    requires r.log == n.log[..NextIndex(m.prev) + k] + m.entries[k..]
    requires var t := NextIndex(m.prev) + k;
             t < |n.log| ==> n.log[t] != At(h.bases, VoteTerm(cfg.mode, n.vote), t)
    requires Follows(h.bases, r.log, VoteTerm(cfg.mode, n.vote), NextIndex(m.prev) + |m.entries|)
    ensures Following(cfg, h, id, r.(accepted := OptMax(n.accepted, LastSent(m.prev, m.entries))))
  {
    var n' := r.(accepted := OptMax(n.accepted, LastSent(m.prev, m.entries)));
    CoreSame(cfg, h, id, r, n');
    RepairedRoles(cfg, h, n, n', m, k);
  }

  lemma FollowerRepairs(cfg: Config, h: History, id: NodeId, n: Node, m: Msg)
    requires Following(cfg, h, id, n)
    requires m.AppendReq? && m.leader == n.vote.leader && SegmentOk(cfg, h, m)
    requires Follows(h.bases, n.log, VoteTerm(cfg.mode, n.vote),
                     NextIndex(m.prev) + FirstConflict(n, NextIndex(m.prev), m.entries))
    requires FirstConflict(n, NextIndex(m.prev), m.entries) < |m.entries|
    ensures Following(cfg, h, id, FollowerAppend(n, m.prev, m.entries))
    ensures var n' := FollowerAppend(n, m.prev, m.entries);
            n'.vote == n.vote
            && Follows(h.bases, n'.log, VoteTerm(cfg.mode, n.vote), NextIndex(m.prev) + |m.entries|)
  {
    hide CoreOk, HistoryOk, AcceptedOk, Follows, SegmentOk, FirstConflict, FollowerAppend, LastSent;
    var k := FirstConflict(n, NextIndex(m.prev), m.entries);
    FollowerAppendShape(n, m.prev, m.entries);
    AppendRepairs(cfg, h, id, n, m);
    AbsentDeparts(cfg, h, n, m);
    RepairedFollowing(cfg, h, id, n, Repaired(n, NextIndex(m.prev) + k, m.entries[k..]), m, k);
  }

  lemma FollowerKeeps(cfg: Config, h: History, id: NodeId, n: Node, m: Msg)
    requires Following(cfg, h, id, n)
    requires m.AppendReq? && m.leader == n.vote.leader && SegmentOk(cfg, h, m)
    requires Follows(h.bases, n.log, VoteTerm(cfg.mode, n.vote), NextIndex(m.prev) + |m.entries|)
    ensures Following(cfg, h, id, n.(accepted := OptMax(n.accepted, LastSent(m.prev, m.entries))))
  {
    var n' := n.(accepted := OptMax(n.accepted, LastSent(m.prev, m.entries)));
    LastSentIs(cfg, h, m);
    CoreSame(cfg, h, id, n, n');
    AcceptedMax(cfg, h, n, LastSent(m.prev, m.entries));
  }

  lemma FollowerAppendOk(cfg: Config, h: History, id: NodeId, n: Node, m: Msg)
    requires Following(cfg, h, id, n) && Complete(cfg, h)
    requires m.AppendReq? && m.leader == n.vote.leader && SegmentOk(cfg, h, m)
    requires m.prev.Some? ==> HasLogId(n, m.prev.value)
    ensures Following(cfg, h, id, FollowerAppend(n, m.prev, m.entries))
    ensures var n' := FollowerAppend(n, m.prev, m.entries);
            n'.vote == n.vote
            && Follows(h.bases, n'.log, VoteTerm(cfg.mode, n.vote), NextIndex(m.prev) + |m.entries|)
  {
    MemOk(cfg, h, id, n);
    PresentFollows(cfg, h, id, n, m);
    if FirstConflict(n, NextIndex(m.prev), m.entries) < |m.entries| {
      FollowerRepairs(cfg, h, id, n, m);
    } else {
      FollowerAppendShape(n, m.prev, m.entries);
      FollowerKeeps(cfg, h, id, n, m);
    }
  }

  lemma RestIs(cfg: Config, h: History, m: Msg, k: nat)
    requires m.AppendReq? && SegmentOk(cfg, h, m) && k <= |m.entries|
    ensures forall j :: 0 <= j < |m.entries| - k ==>
              m.entries[k..][j] == At(h.bases, ToCommitted(cfg.mode, m.leader), NextIndex(m.prev) + k + j)
  {
  }

  lemma RepairedAccepted(cfg: Config, h: History, n: Node, n': Node, t: nat, m: Msg)
    requires m.AppendReq? && AcceptedOk(cfg, h, n) && n.vote.committed
    requires t <= NextIndex(m.prev) + |m.entries| && t <= |n.log| && t <= |n'.log|
    requires n'.vote == n.vote && n'.log[..t] == n.log[..t]
    requires t < |n.log| ==> n.log[t] != At(h.bases, VoteTerm(cfg.mode, n.vote), t)
    requires Follows(h.bases, n'.log, VoteTerm(cfg.mode, n.vote), NextIndex(m.prev) + |m.entries|)
    requires var e := NextIndex(m.prev) + |m.entries|;
             LastSent(m.prev, m.entries) ==
             if e == 0 then None else Some(LogId(At(h.bases, VoteTerm(cfg.mode, n.vote), e - 1), e - 1))
    requires n'.accepted == OptMax(n.accepted, LastSent(m.prev, m.entries))
    ensures AcceptedOk(cfg, h, n')
  {
  }

  // ---- committing ----

  lemma SaveCommittedOk(cfg: Config, h: History, id: NodeId, n: Node, c: LogId)
    requires CoreOk(cfg, h, id, n) && CommitOk(cfg, h, Mem(n).(committed := Some(c)))
    ensures CoreOk(cfg, h, id, Push(n.(committed := Some(c)), SaveCommitted(c)))
  {
    MemHasPromises(cfg, h, id, n);
    var n' := Push(n.(committed := Some(c)), SaveCommitted(c));
    forall m | Said(h, n, m)
      ensures Promise(cfg, h, id, m, Mem(n'))
    {
      assert Promise(cfg, h, id, m, Mem(n));
    }
    PushOk(cfg, h, id, n, n', SaveCommitted(c));
  }

  /** What a follower commits is committed by its leader, and on its own log. */
  lemma MinIsCommitted(cfg: Config, h: History, id: NodeId, n: Node, commit: Option<LogId>)
    requires Following(cfg, h, id, n) && Complete(cfg, h)
    requires CommitKnown(cfg, h, commit, VoteTerm(cfg.mode, n.vote))
    requires OptMin(n.accepted, commit).Some?
    ensures CommitOk(cfg, h, Mem(n).(committed := OptMin(n.accepted, commit)))
  {
    hide CoreOk, LogOk, BasesOk, MsgOk, AskedOk, Complete, Chosen, LeaderOk;
    var v := VoteTerm(cfg.mode, n.vote);
    assert EstablishedOk(cfg, h, n.vote.leader);
    var c := OptMin(n.accepted, commit).value;
    var x, j :| Covers(cfg, h, x, j, commit.value.index) && LeaderLe(x, v)
                && commit.value.leader == At(h.bases, x, commit.value.index);
    ChosenAgrees(cfg, h, x, j, v, commit.value.index);
    var a := n.accepted.value;
    AtMonotone(h.bases, v, a.index, if a.index <= commit.value.index then commit.value.index else a.index);
    AtMonotone(h.bases, v, commit.value.index, if commit.value.index <= a.index then a.index else commit.value.index);
    assert c.index <= a.index && c.index <= commit.value.index && c.leader == At(h.bases, v, c.index);
    forall i | 0 <= i < c.index + 1
      ensures n.log[i] == At(h.bases, x, i)
    {
      ChosenAgrees(cfg, h, x, j, v, i);
    }
    assert Covers(cfg, h, x, j, c.index);
    assert Under(cfg.mode, x, n.vote);
  }

  lemma CommitEntriesOk(cfg: Config, h: History, id: NodeId, n: Node, commit: Option<LogId>)
    requires Following(cfg, h, id, n) && Complete(cfg, h)
    requires CommitKnown(cfg, h, commit, VoteTerm(cfg.mode, n.vote))
    ensures NodeOk(cfg, h, id, CommitEntries(n, commit))
  {
    var c := OptMin(n.accepted, commit);
    if OptLt(n.committed, c) {
      MinIsCommitted(cfg, h, id, n, commit);
      SaveCommittedOk(cfg, h, id, n, c.value);
    }
  }

  lemma HandleAppendReqOk(cfg: Config, h: History, id: NodeId, n: Node, m: Msg)
    requires HistoryOk(cfg, h) && Complete(cfg, h) && NodeOk(cfg, h, id, n)
    requires m in h.msgs && m.AppendReq? && m.leader.node.Some? && m.leader.node != Some(id)
    ensures NodeOk(cfg, h, id,
                   HandleAppendReq(cfg, id, n, m.leader.node.value, m.leader, m.prev, m.entries, m.commit))
  {
    var src := m.leader.node.value;
    var v := Vote(m.leader, true);
    assert MsgOk(cfg, h, Sender(m), m);
    LeaderIsSaved(cfg, h, m.leader);
    FollowVoteOk(cfg, h, id, n, v);
    FollowVoteShape(cfg, h, id, n, v);
    var (ok, n1) := UpdateVote(cfg, id, n, v);
    if !ok {
      SendPlainOk(cfg, h, id, n, AppendResp(id, src, m.leader, HigherVote(n.vote)));
    } else if m.prev.Some? && !HasLogId(n1, m.prev.value) {
      TruncateOk(cfg, h, id, n1, m.prev.value.index);
      SendPlainOk(cfg, h, id, Truncate(n1, m.prev.value.index), AppendResp(id, src, m.leader, Conflict));
    } else {
      AcceptAppendOk(cfg, h, id, n1, m);
    }
  }

  lemma AcceptAppendOk(cfg: Config, h: History, id: NodeId, n: Node, m: Msg)
    requires Following(cfg, h, id, n) && Complete(cfg, h)
    requires m.AppendReq? && m.leader == n.vote.leader && SegmentOk(cfg, h, m) && m.leader.node.Some?
    requires m.prev.Some? ==> HasLogId(n, m.prev.value)
    ensures var n2 := FollowerAppend(n, m.prev, m.entries);
            var n3 := Push(n2, Send(AppendResp(id, m.leader.node.value, m.leader,
                                               Success(LastSent(m.prev, m.entries)))));
            NodeOk(cfg, h, id, CommitEntries(n3, m.commit))
  {
    var src := m.leader.node.value;
    var n2 := FollowerAppend(n, m.prev, m.entries);
    FollowerAppendOk(cfg, h, id, n, m);
    LastSentIs(cfg, h, m);
    AckOk(cfg, h, id, n2, src, LastSent(m.prev, m.entries));
    CommitEntriesOk(cfg, h, id,
                    Push(n2, Send(AppendResp(id, src, m.leader, Success(LastSent(m.prev, m.entries))))), m.commit);
  }

  // ---- the leader ----

  /** An entry of the vote's term in a leader's log is the leader's own, and its vote is committed. */
  lemma OwnEntry(cfg: Config, h: History, id: NodeId, n: Node, index: nat)
    requires BasesOk(h.bases) && LeaderOk(cfg, h, id, n) && n.leader.Some?
    requires index < |n.log| && n.log[index] == VoteTerm(cfg.mode, n.vote)
    ensures n.vote == Vote(n.leader.value.leader, true)
    ensures |h.bases[VoteTerm(cfg.mode, n.vote)]| <= index
  {
  }

  lemma LeaderCommits(cfg: Config, h: History, id: NodeId, n: Node, index: nat, acks: set<NodeId>)
    requires BasesOk(h.bases) && LeaderOk(cfg, h, id, n) && n.leader.Some?
    requires index < |n.log| && n.log[index] == VoteTerm(cfg.mode, n.vote)
    requires AckedBy(cfg, h, n.leader.value.leader, index, acks)
    ensures CommitOk(cfg, h, Mem(n).(committed := Some(LogId(n.log[index], index))))
    ensures CommitKnown(cfg, h, Some(LogId(n.log[index], index)), VoteTerm(cfg.mode, n.vote))
  {
    var v := VoteTerm(cfg.mode, n.vote);
    OwnEntry(cfg, h, id, n, index);
    assert Chosen(cfg, h, v, index);
    assert Covers(cfg, h, v, index, index);
    assert Under(cfg.mode, v, n.vote);
    assert Follows(h.bases, n.log, v, index + 1);
  }

  lemma LeaderCommitOk(cfg: Config, h: History, id: NodeId, n: Node, index: nat, acks: set<NodeId>)
    requires HistoryOk(cfg, h) && NodeOk(cfg, h, id, n) && n.leader.Some? && index < |n.log|
    requires AckedBy(cfg, h, n.leader.value.leader, index, acks)
    ensures NodeOk(cfg, h, id, LeaderCommit(cfg, n, index))
  {
    var c := LogId(n.log[index], index);
    if c.leader == VoteTerm(cfg.mode, n.vote) && OptLt(n.committed, Some(c)) {
      OwnEntry(cfg, h, id, n, index);
      LeaderCommits(cfg, h, id, n, index, acks);
      SaveCommittedOk(cfg, h, id, n, c);
    }
  }

  lemma ReplicateMsgOk(cfg: Config, s: Cluster, id: NodeId, start: nat, count: nat)
    requires Inv(cfg, s) && Enabled(cfg, s, ReplicateStep(id, start, count))
    ensures MsgOk(cfg, s.h, id, ReplicateMsg(s.nodes[id], start, count))
  {
    hide CoreOk, HistoryOk, CommitKnown, LogOk;
    var n := s.nodes[id];
    assert NodeOk(cfg, s.h, id, n);
  }
}
