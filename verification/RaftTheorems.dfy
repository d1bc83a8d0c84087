/** What the protocol guarantees over every run. */
module RaftTheorems {
  import opened Basics
  import opened Votes
  import opened RaftNode
  import opened RaftCluster
  import opened RaftInvariant
  import opened RaftSafety
  import opened RaftCore
  import opened RaftGrowth
  import opened RaftElection
  import opened RaftReplication
  import opened RaftRun

  /** `s` is reached from a pristine cluster by `steps`. */
  ghost predicate Reaches(cfg: Config, s0: Cluster, steps: seq<Step>, s: Cluster) {
    Init(cfg, s0) && IsRun(cfg, s0, steps) && s == After(cfg, s0, steps)
  }

  lemma ReachedOk(cfg: Config, s0: Cluster, steps: seq<Step>, s: Cluster)
    requires Reaches(cfg, s0, steps, s)
    ensures Inv(cfg, s)
  {
    hide Inv, Init;
    InitOk(cfg, s0);
    RunKeeps(cfg, s0, steps);
  }

  // ---- elections ----

  /** The vote `v` is held by node `n`: in memory, on disk, by its leader, or queued to be saved. */
  predicate Held(n: Node, v: Vote) {
    n.vote == v || n.disk.vote == v || SaveVote(v) in n.queue
    || (n.leader.Some? && v == Vote(n.leader.value.leader, true))
  }

  /** The vote `v` is held by some node, or told by some message. */
  ghost predicate Seen(s: Cluster, v: Vote) {
    (exists id :: id in s.nodes && Held(s.nodes[id], v))
    || (exists m :: m in s.h.msgs && (Carried(m) == Some(v) || (m.AppendReq? && v == Vote(m.leader, true))))
  }

  lemma HeldIsKnown(cfg: Config, s: Cluster, id: NodeId, v: Vote)
    requires Inv(cfg, s) && id in s.nodes && Held(s.nodes[id], v) && v.committed
    ensures v.leader in s.h.leaders
  {
    hide HistoryOk, GrantsOk, PromisesOk, VotesRise, CandidateOk, AcceptedOk;
    var n := s.nodes[id];
    assert NodeOk(cfg, s.h, id, n);
    MemOk(cfg, s.h, id, n);
    if SaveVote(v) in n.queue {
      var j :| 0 <= j < |n.queue| && n.queue[j] == SaveVote(v);
      SavedNext(n, j);
      assert StoreOk(cfg, s.h, id, StoreAt(n, j + 1));
    }
  }

  lemma SavedNext(n: Node, j: nat)
    requires j < |n.queue| && n.queue[j].SaveVote?
    ensures StoreAt(n, j + 1).vote == n.queue[j].vote
  {
    assert n.queue[..j + 1][..j] == n.queue[..j];
  }

  lemma ToldIsKnown(cfg: Config, s: Cluster, m: Msg)
    requires Inv(cfg, s) && m in s.h.msgs
    ensures Carried(m).Some? && Carried(m).value.committed ==> Carried(m).value.leader in s.h.leaders
    ensures m.AppendReq? ==> m.leader in s.h.leaders
  {
    hide NodeOk;
    assert MsgOk(cfg, s.h, Sender(m), m);
  }

  lemma SeenIsKnown(cfg: Config, s: Cluster, v: Vote)
    requires Inv(cfg, s) && Seen(s, v) && v.committed
    ensures v.leader in s.h.leaders
  {
    hide Inv;
    if id :| id in s.nodes && Held(s.nodes[id], v) {
      HeldIsKnown(cfg, s, id, v);
    } else {
      var m :| m in s.h.msgs && (Carried(m) == Some(v) || (m.AppendReq? && v == Vote(m.leader, true)));
      ToldIsKnown(cfg, s, m);
    }
  }

  /** Election safety: in every run, two committed votes anywhere in the cluster are ordered, and if they
      are of one committed leader id they are the same vote. The comparison of votes never reaches the arm
      that the source calls unreachable. */
  lemma ElectionSafety(cfg: Config, s0: Cluster, steps: seq<Step>, s: Cluster, u: Vote, v: Vote)
    requires Reaches(cfg, s0, steps, s) && Seen(s, u) && Seen(s, v)
    ensures !CompareVotes(cfg.mode, u, v).Panic?
    ensures u.committed && v.committed ==>
              (VoteLe(cfg.mode, u, v) || VoteLe(cfg.mode, v, u))
              && (VoteTerm(cfg.mode, u) == VoteTerm(cfg.mode, v) ==> u == v)
  {
    hide Seen, Reaches, Inv;
    ReachedOk(cfg, s0, steps, s);
    if u.committed && v.committed {
      SeenIsKnown(cfg, s, u);
      SeenIsKnown(cfg, s, v);
      LeadersAreOrdered(cfg, s, u.leader, v.leader);
    }
  }

  lemma LeadersAreOrdered(cfg: Config, s: Cluster, l: LeaderId, l': LeaderId)
    requires Inv(cfg, s) && l in s.h.leaders && l' in s.h.leaders
    ensures l.node.Some? && l'.node.Some?
    ensures ToCommitted(cfg.mode, l) == ToCommitted(cfg.mode, l') ==> l == l'
  {
    hide NodeOk;
    assert EstablishedOk(cfg, s.h, l) && EstablishedOk(cfg, s.h, l');
    if ToCommitted(cfg.mode, l) == ToCommitted(cfg.mode, l') {
      OneLeader(cfg, s, l, l');
    }
  }

  /** At most one node leads under a committed leader id, and what it believes to be the end of its log is
      the end of its log: the ids it assigns next are the next free ones. */
  lemma OneLeaderPerTerm(cfg: Config, s0: Cluster, steps: seq<Step>, s: Cluster, a: NodeId, b: NodeId)
    requires Reaches(cfg, s0, steps, s) && a in s.nodes && b in s.nodes
    requires s.nodes[a].leader.Some? && s.nodes[b].leader.Some?
    requires ToCommitted(cfg.mode, s.nodes[a].leader.value.leader)
             == ToCommitted(cfg.mode, s.nodes[b].leader.value.leader)
    ensures a == b
    ensures NextIndex(s.nodes[a].leader.value.last) == |s.nodes[a].log|
  {
    hide Reaches, CoreOk, HistoryOk;
    ReachedOk(cfg, s0, steps, s);
    assert NodeOk(cfg, s.h, a, s.nodes[a]) && NodeOk(cfg, s.h, b, s.nodes[b]);
    OneLeader(cfg, s, s.nodes[a].leader.value.leader, s.nodes[b].leader.value.leader);
  }

  // ---- logs ----

  lemma MemLogOk(cfg: Config, s: Cluster, id: NodeId)
    requires Inv(cfg, s) && id in s.nodes
    ensures LogOk(s.h.bases, s.nodes[id].log) && CommitOk(cfg, s.h, Mem(s.nodes[id]))
    ensures CommitOk(cfg, s.h, s.nodes[id].disk)
  {
    hide HistoryOk, GrantsOk, PromisesOk, VotesRise, RolesOk;
    var n := s.nodes[id];
    assert NodeOk(cfg, s.h, id, n);
    MemOk(cfg, s.h, id, n);
    assert StoreAt(n, 0) == n.disk;
  }

  /** Log matching: logs that hold the same log id at an index hold the same log ids up to it. */
  lemma LogsMatch(cfg: Config, s0: Cluster, steps: seq<Step>, s: Cluster, a: NodeId, b: NodeId, k: nat)
    requires Reaches(cfg, s0, steps, s) && a in s.nodes && b in s.nodes
    requires k < |s.nodes[a].log| && k < |s.nodes[b].log| && s.nodes[a].log[k] == s.nodes[b].log[k]
    ensures s.nodes[a].log[..k + 1] == s.nodes[b].log[..k + 1]
  {
    hide Reaches, Inv;
    ReachedOk(cfg, s0, steps, s);
    MemLogOk(cfg, s, a);
    MemLogOk(cfg, s, b);
    forall j | 0 <= j <= k
      ensures s.nodes[a].log[j] == s.nodes[b].log[j]
    {
      LogMatching(s.h.bases, s.nodes[a].log, s.nodes[b].log, k, j);
    }
  }

  // ---- commitment ----

  lemma CommitsAgree(cfg: Config, h: History, st: Store, st': Store, i: nat)
    requires Complete(cfg, h) && BasesOk(h.bases) && CommitOk(cfg, h, st) && CommitOk(cfg, h, st')
    requires i < NextIndex(st.committed) && i < NextIndex(st'.committed)
    ensures i < |st.log| && i < |st'.log| && st.log[i] == st'.log[i]
  {
    hide BasesOk, Complete, Chosen;
    var c, c' := st.committed.value, st'.committed.value;
    var x, j :| Covers(cfg, h, x, j, c.index) && Under(cfg.mode, x, st.vote)
                && Follows(h.bases, st.log, x, c.index + 1);
    var x', j' :| Covers(cfg, h, x', j', c'.index) && Under(cfg.mode, x', st'.vote)
                  && Follows(h.bases, st'.log, x', c'.index + 1);
    ChosenHasBase(cfg, h, x, j);
    ChosenHasBase(cfg, h, x', j');
    if LeaderLe(x, x') {
      ChosenAgrees(cfg, h, x, j, x', i);
    } else {
      ChosenAgrees(cfg, h, x', j', x, i);
    }
  }

  lemma ChosenHasBase(cfg: Config, h: History, x: LeaderId, j: nat)
    requires Chosen(cfg, h, x, j)
    ensures x in h.bases
  {
  }

  lemma VoteRespExtends(cfg: Config, s: Cluster, id: NodeId, m: Msg)
    requires Inv(cfg, s) && Enabled(cfg, s, VoteRespStep(id, m))
    ensures Extends(s.h, Next(cfg, s, VoteRespStep(id, m)).h)
  {
    hide Inv, HandleVoteResp, WinsElection;
    if WinsElection(cfg, s.nodes[id], m.src, m.req, m.vote, m.granted) {
      WinnerElected(cfg, s, id, m);
    }
  }

  lemma NextExtends(cfg: Config, s: Cluster, step: Step)
    requires Inv(cfg, s) && Enabled(cfg, s, step)
    ensures Extends(s.h, Next(cfg, s, step).h)
  {
    hide Inv, Elect, HandleVoteReq, HandleVoteResp, HandleAppendReq, LeaderAppend;
    hide Restart, LeaderCommit, UpdateVote, Elected;
    match step {
      case VoteRespStep(id, m) => VoteRespExtends(cfg, s, id, m);
      case _ =>
    }
  }

  lemma {:induction false} RunExtends(cfg: Config, s: Cluster, steps: seq<Step>)
    requires Inv(cfg, s) && IsRun(cfg, s, steps)
    ensures Extends(s.h, After(cfg, s, steps).h)
    decreases |steps|
  {
    hide Inv;
    if |steps| > 0 {
      NextExtends(cfg, s, steps[0]);
      NextOk(cfg, s, steps[0]);
      RunExtends(cfg, Next(cfg, s, steps[0]), steps[1..]);
    }
  }

  /** What node `id` knows to be committed, in memory or on disk. */
  function Known(n: Node, disk: bool): Store {
    if disk then n.disk else Mem(n)
  }

  /** State machine safety, over nodes, over time and over crashes: whatever any node knew to be committed
      at one point of a run, and any node knows to be committed later, is the same log id at every index. */
  lemma StateMachineSafety(cfg: Config, s0: Cluster, steps: seq<Step>, s: Cluster, later: seq<Step>,
                           a: NodeId, onDisk: bool, b: NodeId, onDisk': bool, i: nat)
    requires Reaches(cfg, s0, steps, s) && IsRun(cfg, s, later)
    requires a in s.nodes && b in After(cfg, s, later).nodes
    requires i < NextIndex(Known(s.nodes[a], onDisk).committed)
    requires i < NextIndex(Known(After(cfg, s, later).nodes[b], onDisk').committed)
    ensures var st, st' := Known(s.nodes[a], onDisk), Known(After(cfg, s, later).nodes[b], onDisk');
            i < |st.log| && i < |st'.log| && st.log[i] == st'.log[i]
  {
    hide Reaches, Inv, IsRun;
    var s' := After(cfg, s, later);
    ReachedOk(cfg, s0, steps, s);
    RunKeeps(cfg, s, later);
    RunExtends(cfg, s, later);
    HistoryComplete(cfg, s');
    InvHasBases(cfg, s');
    MemLogOk(cfg, s, a);
    MemLogOk(cfg, s', b);
    var st, st' := Known(s.nodes[a], onDisk), Known(s'.nodes[b], onDisk');
    CommitGrows(cfg, s.h, s'.h, st);
    CommitsAgree(cfg, s'.h, st, st', i);
  }

  lemma InvHasBases(cfg: Config, s: Cluster)
    requires Inv(cfg, s)
    ensures BasesOk(s.h.bases)
  {
  }

  /** Leader completeness: once a quorum has acknowledged an entry of leader `v` to `v`, every node that leads
      then or later under a greater committed leader id has it, and everything before it. */
  lemma LeaderCompleteness(cfg: Config, s0: Cluster, steps: seq<Step>, s: Cluster, later: seq<Step>,
                           v: LeaderId, i: nat, b: NodeId)
    requires Reaches(cfg, s0, steps, s) && IsRun(cfg, s, later) && Chosen(cfg, s.h, v, i)
    requires b in After(cfg, s, later).nodes && After(cfg, s, later).nodes[b].leader.Some?
    requires LeaderLt(v, ToCommitted(cfg.mode, After(cfg, s, later).nodes[b].leader.value.leader))
    ensures var log := After(cfg, s, later).nodes[b].log;
            Contains(log, v, i) && forall j :: 0 <= j <= i ==> log[j] == At(s.h.bases, v, j)
  {
    hide Reaches, Inv, IsRun, Chosen;
    var s' := After(cfg, s, later);
    ReachedOk(cfg, s0, steps, s);
    RunKeeps(cfg, s, later);
    RunExtends(cfg, s, later);
    ChosenGrows(cfg, s.h, s'.h, v, i);
    ChosenHasBase(cfg, s.h, v, i);
    HistoryComplete(cfg, s');
    InvHasBases(cfg, s');
    LeaderHolds(cfg, s', b);
    var u := ToCommitted(cfg.mode, s'.nodes[b].leader.value.leader);
    forall j | 0 <= j <= i
      ensures s'.nodes[b].log[j] == At(s.h.bases, v, j)
    {
      ChosenAgrees(cfg, s'.h, v, i, u, j);
    }
  }

  /** So whatever a node knew to be committed, in memory or on disk, is in the log of every node that leads,
      then or later, under a greater committed leader id than that of the vote it was known under. A leader
      of that same id has it exactly if its log is long enough: having replicated entries before it flushed
      them, it may have restarted without them. */
  lemma LeadersHaveCommitted(cfg: Config, s0: Cluster, steps: seq<Step>, s: Cluster, later: seq<Step>,
                             a: NodeId, onDisk: bool, b: NodeId, i: nat)
    requires Reaches(cfg, s0, steps, s) && IsRun(cfg, s, later)
    requires a in s.nodes && i < NextIndex(Known(s.nodes[a], onDisk).committed)
    requires b in After(cfg, s, later).nodes && After(cfg, s, later).nodes[b].leader.Some?
    requires LeaderLe(VoteTerm(cfg.mode, Known(s.nodes[a], onDisk).vote),
                      ToCommitted(cfg.mode, After(cfg, s, later).nodes[b].leader.value.leader))
    ensures var v := ToCommitted(cfg.mode, After(cfg, s, later).nodes[b].leader.value.leader);
            var st, log := Known(s.nodes[a], onDisk), After(cfg, s, later).nodes[b].log;
            i < |st.log|
            && (Contains(log, st.log[i], i) <==> i < |log|)
            && (LeaderLt(VoteTerm(cfg.mode, st.vote), v) ==> i < |log|)
  {
    hide Reaches, Inv, IsRun;
    var s', st := After(cfg, s, later), Known(s.nodes[a], onDisk);
    ReachedOk(cfg, s0, steps, s);
    RunKeeps(cfg, s, later);
    RunExtends(cfg, s, later);
    HistoryComplete(cfg, s');
    InvHasBases(cfg, s');
    MemLogOk(cfg, s, a);
    CommitGrows(cfg, s.h, s'.h, st);
    LeaderHolds(cfg, s', b);
    CommitInLeader(cfg, s'.h, st, s'.nodes[b], i);
  }

  /** The log of a leader is its base followed by its own entries. */
  ghost predicate Leads(cfg: Config, h: History, n: Node) {
    n.leader.Some? && var v := ToCommitted(cfg.mode, n.leader.value.leader);
    v in h.bases && |h.bases[v]| <= |n.log| && Follows(h.bases, n.log, v, |n.log|)
  }

  lemma LeaderHolds(cfg: Config, s: Cluster, b: NodeId)
    requires Inv(cfg, s) && b in s.nodes && s.nodes[b].leader.Some?
    ensures Leads(cfg, s.h, s.nodes[b])
  {
  }

  lemma CommitInLeader(cfg: Config, h: History, st: Store, n: Node, i: nat)
    requires Complete(cfg, h) && BasesOk(h.bases) && CommitOk(cfg, h, st) && Leads(cfg, h, n)
    requires LeaderLe(VoteTerm(cfg.mode, st.vote), ToCommitted(cfg.mode, n.leader.value.leader))
    requires i < NextIndex(st.committed)
    ensures i < |st.log|
    ensures LeaderLt(VoteTerm(cfg.mode, st.vote), ToCommitted(cfg.mode, n.leader.value.leader)) ==>
              Contains(n.log, st.log[i], i)
    ensures i < |n.log| ==> n.log[i] == st.log[i]
  {
  }

  /** Acknowledged entries are durable: a node that acknowledged an entry to its leader has the entry on its disk,
      and in its memory, at every later point of every run, whatever crashes or takes over, once a quorum has
      acknowledged the entry. */
  lemma AckedIsDurable(cfg: Config, s0: Cluster, steps: seq<Step>, s: Cluster, later: seq<Step>,
                       id: NodeId, l: LeaderId, i: nat, onDisk: bool)
    requires Reaches(cfg, s0, steps, s) && IsRun(cfg, s, later)
    requires Acked(s.h, id, l, i) && Chosen(cfg, s.h, ToCommitted(cfg.mode, l), i)
    requires id in After(cfg, s, later).nodes
    ensures Contains(Known(After(cfg, s, later).nodes[id], onDisk).log, ToCommitted(cfg.mode, l), i)
  {
    hide Reaches, Inv, IsRun, Chosen;
    var s' := After(cfg, s, later);
    ReachedOk(cfg, s0, steps, s);
    RunKeeps(cfg, s, later);
    RunExtends(cfg, s, later);
    ChosenGrows(cfg, s.h, s'.h, ToCommitted(cfg.mode, l), i);
    HistoryComplete(cfg, s');
    var m :| m in s.h.msgs && IsAck(m, id, l) && i <= m.res.last.value.index;
    ChosenIsHeld(cfg, s', id, m, i, onDisk);
  }

  lemma ChosenIsHeld(cfg: Config, s: Cluster, id: NodeId, m: Msg, i: nat, onDisk: bool)
    requires Inv(cfg, s) && Complete(cfg, s.h) && id in s.nodes
    requires m in s.h.msgs && m.AppendResp? && IsAck(m, id, m.req) && i <= m.res.last.value.index
    requires Chosen(cfg, s.h, ToCommitted(cfg.mode, m.req), i)
    ensures Contains(Known(s.nodes[id], onDisk).log, ToCommitted(cfg.mode, m.req), i)
  {
    hide HistoryOk, GrantsOk, StoresOk, VotesRise, SendsOk, RolesOk;
    var n, v := s.nodes[id], ToCommitted(cfg.mode, m.req);
    assert NodeOk(cfg, s.h, id, n);
    StoreAtEnd(n);
    assert StoreAt(n, 0) == n.disk;
    var k := if onDisk then 0 else |n.queue|;
    assert Promise(cfg, s.h, id, m, StoreAt(n, k));
    assert |s.h.bases[v]| <= i;
  }

  // ---- what a step keeps ----

  /** The committed part of the log stays, and the committed id does not fall. */
  predicate Keeps(n: Node, n': Node) {
    OptLe(n.committed, n'.committed)
    && (NextIndex(n.committed) <= |n.log| ==> n.log[..NextIndex(n.committed)] <= n'.log)
  }

  /** The log is only extended and the committed id stays. */
  predicate Grown(n: Node, n': Node) {
    n.committed == n'.committed && n.log <= n'.log
  }

  lemma UpdateVoteGrows(cfg: Config, id: NodeId, n: Node, v: Vote)
    ensures Grown(n, UpdateVote(cfg, id, n, v).1)
  {
  }

  lemma EstablishKeepsLog(cfg: Config, id: NodeId, n: Node, c: Candidate)
    ensures Grown(n, EstablishLeader(cfg, id, n, c))
  {
  }

  lemma TruncateKeeps(n: Node, since: nat)
    requires NextIndex(n.committed) <= since
    ensures Keeps(n, Truncate(n, since)) && Truncate(n, since).committed == n.committed
  {
  }

  lemma FollowerAppendKeeps(n: Node, prev: Option<LogId>, entries: Log)
    ensures Keeps(n, FollowerAppend(n, prev, entries))
    ensures FollowerAppend(n, prev, entries).committed == n.committed
  {
    var start := NextIndex(prev);
    var k := FirstConflict(n, start, entries);
    FirstConflictIs(n, start, entries);
    FollowerAppendShape(n, prev, entries);
    if k < |entries| {
      TruncateKeeps(n, start + k);
    }
  }

  lemma AppendReqKeeps(cfg: Config, id: NodeId, n: Node, src: NodeId, leader: LeaderId,
                       prev: Option<LogId>, entries: Log, commit: Option<LogId>)
    ensures Keeps(n, HandleAppendReq(cfg, id, n, src, leader, prev, entries, commit))
  {
    hide UpdateVote, FollowerAppend, FirstConflict;
    UpdateVoteGrows(cfg, id, n, Vote(leader, true));
    var (ok, n1) := UpdateVote(cfg, id, n, Vote(leader, true));
    if ok {
      if prev.Some? && !HasLogId(n1, prev.value) {
        TruncateKeeps(n1, prev.value.index);
      } else {
        FollowerAppendKeeps(n1, prev, entries);
      }
    }
  }

  lemma StepKeeps(cfg: Config, s: Cluster, step: Step, id: NodeId)
    requires Enabled(cfg, s, step) && id in s.nodes && step != CrashStep(id, true) && step != CrashStep(id, false)
    ensures id in Next(cfg, s, step).nodes && Keeps(s.nodes[id], Next(cfg, s, step).nodes[id])
  {
    if step.id == id {
      var n := s.nodes[id];
      match step {
        case ElectStep(_) =>
          var leader := LeaderId(n.vote.leader.term + 1, Some(id));
          UpdateVoteGrows(cfg, id, n.(candidate := Some(Candidate(leader, LastId(n.log), {}))), Vote(leader, false));
        case VoteReqStep(_, m, leased) => UpdateVoteGrows(cfg, id, n, Vote(m.leader, false));
        case VoteRespStep(_, m) =>
          UpdateVoteGrows(cfg, id, n, m.vote);
          if n.candidate.Some? {
            EstablishKeepsLog(cfg, id, n, n.candidate.value);
          }
        case AppendReqStep(_, m) =>
          AppendReqKeeps(cfg, id, n, m.leader.node.value, m.leader, m.prev, m.entries, m.commit);
        case AppendRespStep(_, m) => UpdateVoteGrows(cfg, id, n, m.res.vote);
        case _ =>
      }
    }
  }

  /** In one log, a greater committed id is at a greater index. */
  lemma CommittedIndexRises(bases: map<LeaderId, Log>, log: Log, c: LogId, c': LogId)
    requires BasesOk(bases) && LogOk(bases, log)
    requires Contains(log, c.leader, c.index) && Contains(log, c'.leader, c'.index)
    requires LogIdLt(c, c')
    ensures c.index < c'.index
  {
  }

  /** No step but its own crash makes a node forget or replace what it knows to be committed: a follower
      never truncates a committed entry, and the committed index never falls. */
  lemma CommittedStays(cfg: Config, s0: Cluster, steps: seq<Step>, s: Cluster, step: Step, id: NodeId)
    requires Reaches(cfg, s0, steps, s) && Enabled(cfg, s, step) && id in s.nodes
    requires step != CrashStep(id, true) && step != CrashStep(id, false)
    ensures id in Next(cfg, s, step).nodes
    ensures var n, n' := s.nodes[id], Next(cfg, s, step).nodes[id];
            NextIndex(n.committed) <= |n.log|
            && NextIndex(n.committed) <= NextIndex(n'.committed) <= |n'.log|
            && n'.log[..NextIndex(n.committed)] == n.log[..NextIndex(n.committed)]
  {
    hide Reaches, Inv, Enabled, Next;
    var s' := Next(cfg, s, step);
    ReachedOk(cfg, s0, steps, s);
    NextOk(cfg, s, step);
    StepKeeps(cfg, s, step, id);
    MemLogOk(cfg, s, id);
    MemLogOk(cfg, s', id);
    InvHasBases(cfg, s');
    var n, n' := s.nodes[id], s'.nodes[id];
    if n.committed.Some? && n'.committed != n.committed {
      assert n'.log[n.committed.value.index] == n.log[..NextIndex(n.committed)][n.committed.value.index];
      CommittedIndexRises(s'.h.bases, n'.log, n.committed.value, n'.committed.value);
    }
  }
}
