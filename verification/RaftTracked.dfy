/** The cluster in which commitment is decided by the leaders' progress trackers. A leader keeps one tracker, raises it
    by every acknowledgement it hears, its own flushes included, and commits what the tracker then grants. */
module RaftTracked {
  import opened Basics
  import opened Quorums
  import opened RaftNode
  import opened RaftCluster
  import opened RaftInvariant
  import opened RaftElection
  import opened RaftRun
  import opened RaftTheorems
  import opened RaftPushes
  import opened RaftQueues
  import Progress
  import ProgressRuns
  import ProgressExact

  type Tracker = Progress.Tracker

  /** The voters and learners in the order a tracker starts with, and whether an update sorts a voter in whenever it
      goes above the granted value (`sorted`), which the code does only if the voter was not above it before. */
  datatype Rule = Rule(voters: seq<NodeId>, learners: seq<NodeId>, sorted: bool)

  datatype Tracked = Tracked(s: Cluster, trackers: map<NodeId, Tracker>)

  /** A step of the cluster other than a commit, or a leader hearing an acknowledgement. */
  datatype TrackedStep = Do(step: Step) | Hear(id: NodeId, msg: Msg)

  ghost predicate RuleOk(cfg: Config, r: Rule) {
    |cfg.configs| > 0 && NoDup(r.voters + r.learners)
  }

  /** The tracker of a new leader. */
  function NewTracker(cfg: Config, r: Rule): (t: Tracker)
    ensures t.voters <= |t.vector| && t.configs == cfg.configs
  {
    Progress.New(cfg.configs, r.voters, r.learners, -1)
  }

  function Raise(r: Rule, t: Tracker, op: ProgressRuns.Op): (t': Tracker)
    requires t.voters <= |t.vector|
    ensures t'.configs == t.configs && t'.voters == t.voters && |t'.vector| == |t.vector|
  {
    if r.sorted then ProgressRuns.RaiseSorted(t, op) else Progress.IncreaseTo(t, op.id, op.value)
  }

  predicate HasTracker(t: Tracked, id: NodeId) {
    id in t.trackers && t.trackers[id].voters <= |t.trackers[id].vector|
  }

  predicate CanTake(cfg: Config, t: Tracked, x: TrackedStep) {
    match x
    case Do(step) => !step.CommitStep? && Enabled(cfg, t.s, step)
    case Hear(id, m) =>
      id in t.s.nodes && HasTracker(t, id) && m in t.s.h.msgs
      && t.s.nodes[id].leader.Some? && m.AppendResp? && m.dst == id
      && IsAck(m, m.src, t.s.nodes[id].leader.value.leader)
  }

  /** The step makes node `id` a leader, or makes it lead anew. */
  predicate Starts(n: Node, n': Node, step: Step) {
    n'.leader.Some?
    && (step.CrashStep? || n.leader.None? || n.leader.value.leader != n'.leader.value.leader)
  }

  function HeardOp(m: Msg): ProgressRuns.Op
    requires m.AppendResp? && m.res.Success? && m.res.last.Some?
  {
    ProgressRuns.Op(m.src, m.res.last.value.index)
  }

  /** What the tracker grants is committed, if it is an entry of the leader's own. */
  function Granted(cfg: Config, n: Node, granted: int): Node {
    if 0 <= granted < |n.log| then LeaderCommit(cfg, n, granted) else n
  }

  function Take(cfg: Config, r: Rule, t: Tracked, x: TrackedStep): Tracked
    requires CanTake(cfg, t, x)
  {
    match x
    case Do(step) =>
      var s' := Next(cfg, t.s, step);
      Tracked(s', if Starts(t.s.nodes[step.id], s'.nodes[step.id], step) then t.trackers[step.id := NewTracker(cfg, r)]
                  else t.trackers)
    case Hear(id, m) =>
      var p := Raise(r, t.trackers[id], HeardOp(m));
      Tracked(With(t.s, id, Granted(cfg, t.s.nodes[id], p.granted)), t.trackers[id := p])
  }

  predicate CanTakeAll(cfg: Config, r: Rule, t: Tracked, xs: seq<TrackedStep>)
    decreases |xs|
  {
    |xs| == 0 || (CanTake(cfg, t, xs[0]) && CanTakeAll(cfg, r, Take(cfg, r, t, xs[0]), xs[1..]))
  }

  function TakeAll(cfg: Config, r: Rule, t: Tracked, xs: seq<TrackedStep>): Tracked
    requires CanTakeAll(cfg, r, t, xs)
    decreases |xs|
  {
    if |xs| == 0 then t else TakeAll(cfg, r, Take(cfg, r, t, xs[0]), xs[1..])
  }

  predicate Starting(cfg: Config, t: Tracked) {
    Init(cfg, t.s) && t.trackers == map[]
  }

  // ---- the invariant ----

  /** Every value in the tracker was acknowledged to leader `l`. */
  ghost predicate Tracks(cfg: Config, h: History, l: LeaderId, t: Tracker) {
    t.voters <= |t.vector| && t.configs == cfg.configs
    && forall e :: e in t.vector && e.value >= 0 ==> Acked(h, e.id, l, e.value)
  }

  ghost predicate TrackerOk(cfg: Config, h: History, n: Node, t: Tracked, id: NodeId) {
    n.leader.Some? ==>
      id in t.trackers && Tracks(cfg, h, n.leader.value.leader, t.trackers[id]) && Progress.Sound(t.trackers[id], -1)
  }

  ghost predicate TrackedInv(cfg: Config, t: Tracked) {
    Inv(cfg, t.s) && forall id :: id in t.s.nodes ==> TrackerOk(cfg, t.s.h, t.s.nodes[id], t, id)
  }

  /** A node that wins an election or leads again after a restart tracks anew: it takes no acknowledgement as heard. */
  lemma TracksAnew(cfg: Config, r: Rule, t: Tracked, step: Step)
    requires Inv(cfg, t.s) && CanTake(cfg, t, Do(step)) && (step.CrashStep? || Wins(cfg, t.s, step))
    requires Stepped(cfg, t.s, step).leader.Some?
    ensures var t' := Take(cfg, r, t, Do(step));
            step.id in t'.trackers && t'.trackers[step.id].granted == -1
            && forall e :: e in t'.trackers[step.id].vector ==> e.value == -1
  {
    hide CoreOk, RolesOk, HistoryOk, EstablishLeader, UpdateVote, Restart, Elected;
    if !step.CrashStep? {
      var n := t.s.nodes[step.id];
      assert NodeOk(cfg, t.s.h, step.id, n);
      WinsAnew(cfg, t.s.h, step.id, n);
    }
  }

  /** A winner leads under another vote than before. */
  lemma WinsAnew(cfg: Config, h: History, id: NodeId, n: Node)
    requires RolesOk(cfg, h, id, n) && n.candidate.Some?
    ensures var n' := EstablishLeader(cfg, id, n, n.candidate.value);
            n'.leader.Some? && (n.leader.Some? ==> n'.leader.value.leader != n.leader.value.leader)
  {
    hide EstablishLeader, AcceptedOk;
    if n.leader.Some? {
      CandidateOutranks(cfg, h, id, n);
    }
    EstablishShape(cfg, id, n, n.candidate.value);
  }

  // ---- the condition ----

  /** The update that an acknowledgement causes leaves the tracker in order. */
  ghost predicate StepGuarded(r: Rule, t: Tracked, x: TrackedStep) {
    x.Hear? && HasTracker(t, x.id) && x.msg.AppendResp? && x.msg.res.Success? && x.msg.res.last.Some? ==>
      r.sorted || ProgressRuns.OpGuard(t.trackers[x.id], HeardOp(x.msg))
  }

  ghost predicate AllGuarded(cfg: Config, r: Rule, t: Tracked, xs: seq<TrackedStep>)
    requires CanTakeAll(cfg, r, t, xs)
    decreases |xs|
  {
    |xs| == 0 || (StepGuarded(r, t, xs[0]) && AllGuarded(cfg, r, Take(cfg, r, t, xs[0]), xs[1..]))
  }

  // ---- the tracker ----

  /** A raise brings in nothing but the raised value. */
  lemma MovedEntries(v: seq<Progress.Entry>, i: nat, w: seq<Progress.Entry>, k: nat, e: Progress.Entry)
    requires Progress.Moved(v, i, w, k) && e in w
    ensures e in v
  {
    var j :| 0 <= j < |w| && w[j] == e;
    var j' := if j < k || j > i then j else if j == k then i else j - 1;
    assert w[j] == v[j'];
  }

  lemma RaisedEntries(r: Rule, t: Tracker, op: ProgressRuns.Op, e: Progress.Entry)
    requires t.voters <= |t.vector| && e in Raise(r, t, op).vector
    ensures e in t.vector || e == Progress.Entry(op.id, op.value)
  {
    match Progress.IndexOf(t.vector, op.id)
    case None =>
    case Some(i) =>
      var x := if op.value > t.vector[i].value then op.value else t.vector[i].value;
      var v := t.vector[i := Progress.Entry(t.vector[i].id, x)];
      Progress.MoveUpIs(v, i);
      var (w, k) := Progress.MoveUp(v, i);
      if e in w {
        MovedEntries(v, i, w, k, e);
      }
      assert e in v;
      var j :| 0 <= j < |v| && v[j] == e;
      assert j != i ==> e == t.vector[j];
      assert t.vector[i] in t.vector;
  }

  lemma RaisedTracks(cfg: Config, r: Rule, h: History, l: LeaderId, t: Tracker, m: Msg)
    requires Tracks(cfg, h, l, t) && m in h.msgs && m.AppendResp? && IsAck(m, m.src, l)
    ensures Tracks(cfg, h, l, Raise(r, t, HeardOp(m)))
  {
    hide Raise;
    var t' := Raise(r, t, HeardOp(m));
    forall e | e in t'.vector && e.value >= 0
      ensures Acked(h, e.id, l, e.value)
    {
      RaisedEntries(r, t, HeardOp(m), e);
    }
  }

  lemma RaisedSound(r: Rule, t: Tracker, op: ProgressRuns.Op)
    requires Progress.Sound(t, -1) && (r.sorted || ProgressRuns.OpGuard(t, op))
    ensures Progress.Sound(Raise(r, t, op), -1)
  {
    if r.sorted {
      ProgressRuns.RaiseSortedKeeps(t, -1, op);
    } else {
      ProgressRuns.IncreaseKeeps(t, -1, op);
    }
  }

  /** What a sound tracker grants may be committed: a quorum has acknowledged it. */
  lemma GrantedIsAcked(cfg: Config, h: History, l: LeaderId, t: Tracker)
    requires Tracks(cfg, h, l, t) && Progress.Sound(t, -1) && t.granted >= 0
    ensures IsQuorum(cfg.configs, Progress.Holders(t, t.granted))
    ensures forall a :: a in Progress.Holders(t, t.granted) ==> Acked(h, a, l, t.granted)
  {
    forall a | a in Progress.Holders(t, t.granted)
      ensures Acked(h, a, l, t.granted)
    {
      var i :| 0 <= i < t.voters && t.vector[i].value >= t.granted && t.vector[i].id == a;
      assert t.vector[i] in t.vector;
      assert Acked(h, a, l, t.vector[i].value);
    }
  }

  // ---- every step ----

  lemma TracksGrows(cfg: Config, h: History, h': History, l: LeaderId, t: Tracker)
    requires Tracks(cfg, h, l, t) && h.msgs <= h'.msgs
    ensures Tracks(cfg, h', l, t)
  {
  }

  lemma FreshOk(cfg: Config, r: Rule, h: History, l: LeaderId)
    requires RuleOk(cfg, r)
    ensures Tracks(cfg, h, l, NewTracker(cfg, r)) && Progress.Sound(NewTracker(cfg, r), -1)
  {
    ProgressRuns.NewIsOk(cfg.configs, r.voters, r.learners, -1);
  }

  lemma DoKeeps(cfg: Config, r: Rule, t: Tracked, step: Step)
    requires TrackedInv(cfg, t) && RuleOk(cfg, r) && CanTake(cfg, t, Do(step))
    ensures TrackedInv(cfg, Take(cfg, r, t, Do(step)))
  {
    hide Inv, Next, Enabled, Progress.Sound, Tracks, NewTracker, RuleOk;
    var t' := Take(cfg, r, t, Do(step));
    NextOk(cfg, t.s, step);
    OthersStay(cfg, t.s, step);
    NextExtends(cfg, t.s, step);
    forall y | y in t'.s.nodes
      ensures TrackerOk(cfg, t'.s.h, t'.s.nodes[y], t', y)
    {
      assert TrackerOk(cfg, t.s.h, t.s.nodes[y], t, y);
      if t'.s.nodes[y].leader.Some? {
        var l := t'.s.nodes[y].leader.value.leader;
        if y == step.id && Starts(t.s.nodes[y], t'.s.nodes[y], step) {
          FreshOk(cfg, r, t'.s.h, l);
        } else {
          TracksGrows(cfg, t.s.h, t'.s.h, l, t.trackers[y]);
        }
      }
    }
  }

  /** An acknowledgement that a guarded tracker takes in leads to nothing but an enabled commit. */
  lemma HearCommits(cfg: Config, r: Rule, t: Tracked, id: NodeId, m: Msg) returns (steps: seq<Step>)
    requires TrackedInv(cfg, t) && CanTake(cfg, t, Hear(id, m)) && StepGuarded(r, t, Hear(id, m))
    ensures IsRun(cfg, t.s, steps) && After(cfg, t.s, steps) == Take(cfg, r, t, Hear(id, m)).s
    ensures var p := Raise(r, t.trackers[id], HeardOp(m));
            Tracks(cfg, t.s.h, t.s.nodes[id].leader.value.leader, p) && Progress.Sound(p, -1)
  {
    hide Inv, Raise, Progress.Sound, Tracks, LeaderCommit, ProgressRuns.OpGuard;
    var n, l := t.s.nodes[id], t.s.nodes[id].leader.value.leader;
    assert TrackerOk(cfg, t.s.h, n, t, id);
    var p := Raise(r, t.trackers[id], HeardOp(m));
    RaisedTracks(cfg, r, t.s.h, l, t.trackers[id], m);
    RaisedSound(r, t.trackers[id], HeardOp(m));
    if 0 <= p.granted < |n.log| {
      GrantedIsAcked(cfg, t.s.h, l, p);
      var step := CommitStep(id, p.granted, Progress.Holders(p, p.granted));
      steps := [step];
      assert Enabled(cfg, t.s, step);
      OneStep(cfg, t.s, step);
    } else {
      steps := [];
      assert With(t.s, id, n) == t.s by { assert t.s.nodes[id := n] == t.s.nodes; }
    }
  }

  lemma OneStep(cfg: Config, s: Cluster, step: Step)
    requires Enabled(cfg, s, step)
    ensures IsRun(cfg, s, [step]) && After(cfg, s, [step]) == Next(cfg, s, step)
  {
    hide Enabled, Next;
    var s' := Next(cfg, s, step);
    assert [step][1..] == [];
    assert IsRun(cfg, s', []) && After(cfg, s', []) == s';
  }

  lemma LeaderCommitKeeps(cfg: Config, n: Node, index: nat)
    requires index < |n.log|
    ensures LeaderCommit(cfg, n, index).leader == n.leader
  {
  }

  lemma TakeRefines(cfg: Config, r: Rule, t: Tracked, x: TrackedStep) returns (steps: seq<Step>)
    requires TrackedInv(cfg, t) && RuleOk(cfg, r) && CanTake(cfg, t, x) && StepGuarded(r, t, x)
    ensures TrackedInv(cfg, Take(cfg, r, t, x))
    ensures IsRun(cfg, t.s, steps) && After(cfg, t.s, steps) == Take(cfg, r, t, x).s
  {
    hide Inv, Raise, Progress.Sound, Tracks, LeaderCommit, RuleOk, Next, Enabled, IsRun, After;
    match x {
      case Do(step) =>
        DoKeeps(cfg, r, t, step);
        OneStep(cfg, t.s, step);
        steps := [step];
      case Hear(id, m) =>
        steps := HearCommits(cfg, r, t, id, m);
        RunKeeps(cfg, t.s, steps);
        HearKeeps(cfg, r, t, id, m);
    }
  }

  lemma HearKeeps(cfg: Config, r: Rule, t: Tracked, id: NodeId, m: Msg)
    requires TrackedInv(cfg, t) && CanTake(cfg, t, Hear(id, m)) && Inv(cfg, Take(cfg, r, t, Hear(id, m)).s)
    requires var p := Raise(r, t.trackers[id], HeardOp(m));
             Tracks(cfg, t.s.h, t.s.nodes[id].leader.value.leader, p) && Progress.Sound(p, -1)
    ensures TrackedInv(cfg, Take(cfg, r, t, Hear(id, m)))
  {
    hide Inv, Raise, Progress.Sound, Tracks, LeaderCommit;
    var t', n := Take(cfg, r, t, Hear(id, m)), t.s.nodes[id];
    var g := Raise(r, t.trackers[id], HeardOp(m)).granted;
    if 0 <= g < |n.log| {
      LeaderCommitKeeps(cfg, n, g);
    }
    forall y | y in t'.s.nodes
      ensures TrackerOk(cfg, t'.s.h, t'.s.nodes[y], t', y)
    {
      assert TrackerOk(cfg, t.s.h, t.s.nodes[y], t, y);
    }
  }

  lemma {:induction false} RunJoin(cfg: Config, s: Cluster, a: seq<Step>, b: seq<Step>)
    requires IsRun(cfg, s, a) && IsRun(cfg, After(cfg, s, a), b)
    ensures IsRun(cfg, s, a + b) && After(cfg, s, a + b) == After(cfg, After(cfg, s, a), b)
    decreases |a|
  {
    hide Enabled, Next;
    if |a| == 0 {
      assert a + b == b;
    } else {
      assert (a + b)[0] == a[0] && (a + b)[1..] == a[1..] + b;
      RunJoin(cfg, Next(cfg, s, a[0]), a[1..], b);
    }
  }

  lemma {:induction false} GuardedRefines(cfg: Config, r: Rule, t: Tracked, xs: seq<TrackedStep>)
    returns (steps: seq<Step>)
    requires TrackedInv(cfg, t) && RuleOk(cfg, r) && CanTakeAll(cfg, r, t, xs) && AllGuarded(cfg, r, t, xs)
    ensures TrackedInv(cfg, TakeAll(cfg, r, t, xs))
    ensures IsRun(cfg, t.s, steps) && After(cfg, t.s, steps) == TakeAll(cfg, r, t, xs).s
    decreases |xs|
  {
    hide TrackedInv, RuleOk, CanTake, Take, StepGuarded;
    if |xs| == 0 {
      steps := [];
    } else {
      var a := TakeRefines(cfg, r, t, xs[0]);
      var b := GuardedRefines(cfg, r, Take(cfg, r, t, xs[0]), xs[1..]);
      RunJoin(cfg, t.s, a, b);
      steps := a + b;
    }
  }

  // ---- when every run is guarded ----

  /** Every tracker tracks the voters of the rule. */
  ghost predicate SameVoters(cfg: Config, r: Rule, t: Tracked) {
    forall id :: id in t.trackers ==> ProgressRuns.VotersAre(t.trackers[id], cfg.configs, SetOf(r.voters))
  }

  lemma SameVotersNext(cfg: Config, r: Rule, t: Tracked, x: TrackedStep)
    requires SameVoters(cfg, r, t) && CanTake(cfg, t, x) && !r.sorted
    ensures SameVoters(cfg, r, Take(cfg, r, t, x))
  {
    hide Next, Enabled;
    match x {
      case Do(_) => ProgressRuns.NewVoters(cfg.configs, r.voters, r.learners, -1);
      case Hear(id, m) => ProgressRuns.VotersStay(t.trackers[id], cfg.configs, SetOf(r.voters), HeardOp(m));
    }
  }

  /** Where every two voters are a quorum, every tracker stays in order, whatever is heard. */
  lemma {:induction false} PairsAreGuarded(cfg: Config, r: Rule, t: Tracked, xs: seq<TrackedStep>)
    requires TrackedInv(cfg, t) && SameVoters(cfg, r, t) && RuleOk(cfg, r) && CanTakeAll(cfg, r, t, xs) && !r.sorted
    requires ProgressExact.PairsAreQuorums(cfg.configs, SetOf(r.voters))
    ensures AllGuarded(cfg, r, t, xs)
    decreases |xs|
  {
    hide Inv, RuleOk, Take, Tracks, Progress.Sound, ProgressRuns.VotersAre, ProgressRuns.OpGuard;
    hide ProgressExact.PairsAreQuorums;
    if |xs| > 0 {
      if xs[0].Hear? {
        assert TrackerOk(cfg, t.s.h, t.s.nodes[xs[0].id], t, xs[0].id);
        ProgressExact.PairsAreGuarded(t.trackers[xs[0].id], -1, cfg.configs, SetOf(r.voters), HeardOp(xs[0].msg));
      }
      var steps := TakeRefines(cfg, r, t, xs[0]);
      SameVotersNext(cfg, r, t, xs[0]);
      PairsAreGuarded(cfg, r, Take(cfg, r, t, xs[0]), xs[1..]);
    }
  }

  lemma {:induction false} SortedIsGuarded(cfg: Config, r: Rule, t: Tracked, xs: seq<TrackedStep>)
    requires CanTakeAll(cfg, r, t, xs) && r.sorted
    ensures AllGuarded(cfg, r, t, xs)
    decreases |xs|
  {
    hide CanTake, Take;
    if |xs| > 0 {
      SortedIsGuarded(cfg, r, Take(cfg, r, t, xs[0]), xs[1..]);
    }
  }

  /** The commitment of the run is trustworthy: every update left its tracker in order, or the updates sort, or every
      two voters are a quorum, as for a membership of at most two voters, or of three without a change under way. */
  ghost predicate Trusted(cfg: Config, r: Rule, t0: Tracked, xs: seq<TrackedStep>)
    requires CanTakeAll(cfg, r, t0, xs)
  {
    AllGuarded(cfg, r, t0, xs) || r.sorted || ProgressExact.PairsAreQuorums(cfg.configs, SetOf(r.voters))
  }

  lemma TrustedIsGuarded(cfg: Config, r: Rule, t0: Tracked, xs: seq<TrackedStep>)
    requires Starting(cfg, t0) && RuleOk(cfg, r) && CanTakeAll(cfg, r, t0, xs) && Trusted(cfg, r, t0, xs)
    ensures TrackedInv(cfg, t0) && AllGuarded(cfg, r, t0, xs)
  {
    hide RuleOk, CanTakeAll, AllGuarded, Inv;
    InitOk(cfg, t0.s);
    if r.sorted {
      SortedIsGuarded(cfg, r, t0, xs);
    } else if !AllGuarded(cfg, r, t0, xs) {
      PairsAreGuarded(cfg, r, t0, xs);
    }
  }

  /** Refinement: under these conditions a run that commits what its trackers grant is a run of the protocol, so
      whatever holds of every reachable cluster holds of the cluster it reaches. */
  lemma TrackedRefines(cfg: Config, r: Rule, t0: Tracked, xs: seq<TrackedStep>) returns (steps: seq<Step>)
    requires Starting(cfg, t0) && RuleOk(cfg, r) && CanTakeAll(cfg, r, t0, xs) && Trusted(cfg, r, t0, xs)
    ensures Reaches(cfg, t0.s, steps, TakeAll(cfg, r, t0, xs).s)
  {
    hide RuleOk, CanTakeAll, TakeAll, AllGuarded, TrackedInv, IsRun, After;
    TrustedIsGuarded(cfg, r, t0, xs);
    steps := GuardedRefines(cfg, r, t0, xs);
  }

  lemma {:induction false} TakeJoin(cfg: Config, r: Rule, t: Tracked, a: seq<TrackedStep>, b: seq<TrackedStep>)
    requires CanTakeAll(cfg, r, t, a + b)
    ensures CanTakeAll(cfg, r, t, a) && CanTakeAll(cfg, r, TakeAll(cfg, r, t, a), b)
    ensures TakeAll(cfg, r, t, a + b) == TakeAll(cfg, r, TakeAll(cfg, r, t, a), b)
    ensures AllGuarded(cfg, r, t, a + b) ==> AllGuarded(cfg, r, t, a) && AllGuarded(cfg, r, TakeAll(cfg, r, t, a), b)
    decreases |a|
  {
    hide CanTake, Take, StepGuarded;
    if |a| == 0 {
      assert a + b == b;
    } else {
      assert (a + b)[0] == a[0] && (a + b)[1..] == a[1..] + b;
      TakeJoin(cfg, r, Take(cfg, r, t, a[0]), a[1..], b);
    }
  }

  /** State machine safety with the trackers' commitment: what a node knows to be committed at one point of a trusted
      run, and any node at a later point, is the same log id at every index. */
  lemma TrackedIsSafe(cfg: Config, r: Rule, t0: Tracked, xs: seq<TrackedStep>, later: seq<TrackedStep>,
                      a: NodeId, onDisk: bool, b: NodeId, onDisk': bool, i: nat)
    requires Starting(cfg, t0) && RuleOk(cfg, r) && CanTakeAll(cfg, r, t0, xs + later)
    requires Trusted(cfg, r, t0, xs + later) && CanTakeAll(cfg, r, t0, xs)
    requires a in TakeAll(cfg, r, t0, xs).s.nodes && b in TakeAll(cfg, r, t0, xs + later).s.nodes
    requires i < NextIndex(Known(TakeAll(cfg, r, t0, xs).s.nodes[a], onDisk).committed)
    requires i < NextIndex(Known(TakeAll(cfg, r, t0, xs + later).s.nodes[b], onDisk').committed)
    ensures var st := Known(TakeAll(cfg, r, t0, xs).s.nodes[a], onDisk);
            var st' := Known(TakeAll(cfg, r, t0, xs + later).s.nodes[b], onDisk');
            i < |st.log| && i < |st'.log| && st.log[i] == st'.log[i]
  {
    hide RuleOk, CanTakeAll, TakeAll, AllGuarded, TrackedInv, IsRun, After, Init, Trusted;
    var t := TakeAll(cfg, r, t0, xs);
    TrustedIsGuarded(cfg, r, t0, xs + later);
    TakeJoin(cfg, r, t0, xs, later);
    var steps := GuardedRefines(cfg, r, t0, xs);
    var more := GuardedRefines(cfg, r, t, later);
    StateMachineSafety(cfg, t0.s, steps, t.s, more, a, onDisk, b, onDisk', i);
  }
}
