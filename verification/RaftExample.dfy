/** A run of three nodes: one is elected, replicates two entries before it flushes them, commits them on the
    word of the other two, crashes, and leads again under the same vote without the second entry. */
module RaftExample {
  import opened Basics
  import opened Votes
  import opened Quorums
  import opened RaftNode
  import opened RaftCluster
  import opened RaftStorage
  import opened RaftTheorems

  const W := LeaderId(1, Some(1))
  const V0 := Vote(W, false)
  const V1 := Vote(W, true)

  function T(mode: Mode): LeaderId {
    ToCommitted(mode, W)
  }

  function Id(mode: Mode, i: nat): Option<LogId> {
    Some(LogId(T(mode), i))
  }

  function Three(mode: Mode): Config {
    Config(mode, [{1, 2, 3}])
  }

  /** A cluster of nodes 1, 2 and 3. */
  function Of(a: Node, b: Node, c: Node, h: History): Cluster {
    Cluster(map[1 := a, 2 := b, 3 := c], h)
  }

  function Fresh(mode: Mode): Node {
    Node(DefaultVote(mode), [], None, None, None, None, [], Store(DefaultVote(mode), [], None))
  }

  function Start(mode: Mode): Cluster {
    Of(Fresh(mode), Fresh(mode), Fresh(mode),
       History({}, {}, map[], {}, map[Genesis(Three(mode)) := []]))
  }

  // ---- reaching states ----

  ghost predicate Reachable(cfg: Config, s0: Cluster, s: Cluster) {
    exists steps :: Reaches(cfg, s0, steps, s)
  }

  lemma {:induction false} RunOneMore(cfg: Config, s: Cluster, steps: seq<Step>, step: Step)
    requires IsRun(cfg, s, steps) && Enabled(cfg, After(cfg, s, steps), step)
    ensures IsRun(cfg, s, steps + [step])
            && After(cfg, s, steps + [step]) == Next(cfg, After(cfg, s, steps), step)
    decreases |steps|
  {
    hide Enabled, Next;
    if |steps| == 0 {
      var s' := Next(cfg, s, step);
      assert [] + [step] == [step] && [step][1..] == [];
      assert IsRun(cfg, s', []) && After(cfg, s', []) == s';
    } else {
      assert (steps + [step])[1..] == steps[1..] + [step];
      RunOneMore(cfg, Next(cfg, s, steps[0]), steps[1..], step);
    }
  }

  lemma Took(cfg: Config, s0: Cluster, s: Cluster, step: Step)
    requires Reachable(cfg, s0, s) && Enabled(cfg, s, step)
    ensures Reachable(cfg, s0, Next(cfg, s, step))
  {
    hide Enabled, Next, Init, IsRun, After;
    var steps :| Reaches(cfg, s0, steps, s);
    RunOneMore(cfg, s0, steps, step);
    assert Reaches(cfg, s0, steps + [step], Next(cfg, s, step));
  }

  /** The cluster after a step that gives node `id` the state `n` and leaves the history. */
  lemma TookTo(cfg: Config, s0: Cluster, s: Cluster, step: Step, n: Node)
    requires Reachable(cfg, s0, s) && Enabled(cfg, s, step)
    requires Next(cfg, s, step) == With(s, step.id, n)
    ensures Reachable(cfg, s0, With(s, step.id, n))
  {
    hide Enabled, Next;
    Took(cfg, s0, s, step);
  }

  lemma Puts(a: Node, b: Node, c: Node, h: History, n: Node)
    ensures With(Of(a, b, c, h), 1, n) == Of(n, b, c, h)
    ensures With(Of(a, b, c, h), 2, n) == Of(a, n, c, h)
    ensures With(Of(a, b, c, h), 3, n) == Of(a, b, n, h)
  {
  }

  /** A node runs its first queued command. */
  lemma Runs(cfg: Config, s0: Cluster, s: Cluster, id: NodeId)
    requires Reachable(cfg, s0, s) && id in s.nodes && |s.nodes[id].queue| > 0
    ensures var n := s.nodes[id];
            Reachable(cfg, s0, With(s, id, Ran(n)).(h := RanHistory(s.h, n.queue[0])))
  {
    Took(cfg, s0, s, RunStep(id));
    RunNext(cfg, s, id);
  }

  /** The node and the history after all queued commands are run. */
  function Drained(n: Node): Node
    decreases |n.queue|
  {
    if |n.queue| == 0 then n else Drained(Ran(n))
  }

  function DrainedOn(h: History, queue: seq<Command>): History
    decreases |queue|
  {
    if |queue| == 0 then h else DrainedOn(RanHistory(h, queue[0]), queue[1..])
  }

  lemma {:induction false} Drains(cfg: Config, s0: Cluster, s: Cluster, id: NodeId)
    requires Reachable(cfg, s0, s) && id in s.nodes
    ensures Reachable(cfg, s0, With(s, id, Drained(s.nodes[id])).(h := DrainedOn(s.h, s.nodes[id].queue)))
    decreases |s.nodes[id].queue|
  {
    hide Reachable;
    var n := s.nodes[id];
    if |n.queue| == 0 {
      assert With(s, id, n).(h := s.h) == s;
    } else {
      Runs(cfg, s0, s, id);
      var s1 := With(s, id, Ran(n)).(h := RanHistory(s.h, n.queue[0]));
      Drains(cfg, s0, s1, id);
      assert With(s1, id, Drained(Ran(n))).nodes == With(s, id, Drained(n)).nodes;
    }
  }

  /** Three queued commands, run one after another. */
  lemma DrainedThree(n: Node, h: History)
    requires |n.queue| == 3
    ensures Drained(n) == n.(queue := [], disk := Run(Run(Run(n.disk, n.queue[0]), n.queue[1]), n.queue[2]))
    ensures DrainedOn(h, n.queue) == RanHistory(RanHistory(RanHistory(h, n.queue[0]), n.queue[1]), n.queue[2])
  {
    hide RanHistory;
    var q := n.queue;
    var n1 := Ran(n);
    var n2 := Ran(n1);
    assert n1.queue == q[1..] && n2.queue == q[2..] && Ran(n2).queue == [];
    assert Drained(n) == Drained(n1) == Drained(n2) == Drained(Ran(n2));
    assert q[1..][1..] == q[2..] && q[2..][1..] == [];
    assert DrainedOn(h, q) == DrainedOn(RanHistory(h, q[0]), q[1..]);
    assert DrainedOn(RanHistory(h, q[0]), q[1..]) == DrainedOn(RanHistory(RanHistory(h, q[0]), q[1]), q[2..]);
    assert DrainedOn(RanHistory(RanHistory(h, q[0]), q[1]), q[2..])
           == DrainedOn(RanHistory(RanHistory(RanHistory(h, q[0]), q[1]), q[2]), []);
  }

  // ---- the messages ----

  const R1 := VoteResp(1, 1, W, V0, None, true)
  const ASK := VoteReq(W, None)
  const R22 := VoteResp(2, 2, W, V0, None, true)
  const R2 := VoteResp(2, 1, W, V0, None, true)

  function Ack(mode: Mode, src: NodeId, i: nat): Msg {
    AppendResp(src, 1, W, Success(Id(mode, i)))
  }

  function Entries(mode: Mode): Msg {
    AppendReq(W, None, [T(mode), T(mode)], None)
  }

  function Commit(mode: Mode): Msg {
    AppendReq(W, Id(mode, 1), [], Id(mode, 1))
  }

  // ---- the history ----

  function H(mode: Mode, msgs: set<Msg>, saved: set<LeaderId>): History {
    History(msgs, saved, map[W := None], {}, map[Genesis(Three(mode)) := []])
  }

  /** After node 1 is established. */
  function L(mode: Mode, msgs: set<Msg>): History {
    History(msgs, {W}, map[W := None], {W}, map[Genesis(Three(mode)) := [], T(mode) := []])
  }

  // ---- the election ----

  function Disk(v: Vote, log: Log): Store {
    Store(v, log, None)
  }

  function Asking(queue: seq<Command>, disk: Store, granters: set<NodeId>): Node {
    Node(V0, [], None, None, Some(Candidate(W, None, granters)), None, queue, disk)
  }

  function Voted(queue: seq<Command>, disk: Store): Node {
    Node(V0, [], None, None, None, None, queue, disk)
  }

  lemma ElectIs(mode: Mode)
    ensures Elect(Three(mode), 1, Fresh(mode))
            == Asking([SaveVote(V0), Send(R1), Send(ASK)], Disk(DefaultVote(mode), []), {})
  {
  }

  lemma FirstAsks(mode: Mode)
    ensures var f := Fresh(mode);
            Reachable(Three(mode), Start(mode), Of(Asking([], Disk(V0, []), {}), f, f, H(mode, {R1, ASK}, {W})))
  {
    hide Elect, Reachable;
    var cfg, s0, f := Three(mode), Start(mode), Fresh(mode);
    var a := Asking([SaveVote(V0), Send(R1), Send(ASK)], Disk(DefaultVote(mode), []), {});
    StartReachable(mode);
    ElectIs(mode);
    assert IsVoter(cfg, 1) by { assert 1 in cfg.configs[0]; }
    Took(cfg, s0, s0, ElectStep(1));
    Puts(f, f, f, s0.h, a);
    assert s0.h.asked[W := None] == map[W := None];
    var s1 := Of(a, f, f, H(mode, {}, {}));
    assert Next(cfg, s0, ElectStep(1)) == s1;
    Drains(cfg, s0, s1, 1);
    DrainedThree(a, s1.h);
    Puts(a, f, f, s1.h, Asking([], Disk(V0, []), {}));
    assert DrainedOn(s1.h, a.queue) == H(mode, {R1, ASK}, {W});
  }

  lemma StartReachable(mode: Mode)
    ensures Reachable(Three(mode), Start(mode), Start(mode))
  {
    assert Reaches(Three(mode), Start(mode), [], Start(mode));
  }

  lemma VoteReqIs(mode: Mode)
    ensures HandleVoteReq(Three(mode), 2, Fresh(mode), 1, W, None, false)
            == Voted([SaveVote(V0), Send(R22), Send(R2)], Disk(DefaultVote(mode), []))
  {
  }

  const VOTING := {R1, ASK, R22, R2}

  lemma SecondVotes(mode: Mode)
    ensures Reachable(Three(mode), Start(mode),
                      Of(Asking([], Disk(V0, []), {}), Voted([], Disk(V0, [])), Fresh(mode), H(mode, VOTING, {W})))
  {
    hide HandleVoteReq, Reachable;
    var cfg, s0, f, a := Three(mode), Start(mode), Fresh(mode), Asking([], Disk(V0, []), {});
    var b := Voted([SaveVote(V0), Send(R22), Send(R2)], Disk(DefaultVote(mode), []));
    var s1 := Of(a, f, f, H(mode, {R1, ASK}, {W}));
    FirstAsks(mode);
    VoteReqIs(mode);
    assert IsVoter(cfg, 2) by { assert 2 in cfg.configs[0]; }
    assert ASK in s1.h.msgs;
    TookTo(cfg, s0, s1, VoteReqStep(2, ASK, false), b);
    Puts(a, f, f, s1.h, b);
    Drains(cfg, s0, Of(a, b, f, s1.h), 2);
    DrainedThree(b, s1.h);
    Puts(a, b, f, s1.h, Voted([], Disk(V0, [])));
    assert DrainedOn(s1.h, b.queue) == H(mode, VOTING, {W});
  }

  lemma Quorate()
    ensures !IsQuorum([{1, 2, 3}], {1}) && IsQuorum([{1, 2, 3}], {1, 2}) && IsQuorum([{1, 2, 3}], {2, 3})
  {
    var c: set<NodeId> := {1, 2, 3};
    assert c * {1} == {1} && c * {1, 2} == {1, 2} && c * {2, 3} == {2, 3};
    assert [c][0] == c;
    assert !IsMajority([c][0], {1});
  }

  /** Node 1 leading with `n` entries. */
  function Leading(mode: Mode, n: nat, committed: Option<LogId>, queue: seq<Command>, disk: Store): Node
    requires n > 0
  {
    Node(V1, seq(n, _ => T(mode)), committed, Id(mode, n - 1), None, Some(Leader(W, Id(mode, n - 1))), queue, disk)
  }

  function FirstWrite(mode: Mode): seq<Command> {
    [AppendEntries([T(mode)]), Send(Ack(mode, 1, 0))]
  }

  lemma CountedIs(mode: Mode)
    ensures HandleVoteResp(Three(mode), 1, Asking([], Disk(V0, []), {}), 1, W, V0, true)
            == Asking([], Disk(V0, []), {1})
    ensures !WinsElection(Three(mode), Asking([], Disk(V0, []), {}), 1, W, V0, true)
  {
    Quorate();
    assert {} + {1 as NodeId} == {1};
  }

  lemma WonIs(mode: Mode)
    ensures WinsElection(Three(mode), Asking([], Disk(V0, []), {1}), 2, W, V0, true)
    ensures HandleVoteResp(Three(mode), 1, Asking([], Disk(V0, []), {1}), 2, W, V0, true)
            == Leading(mode, 1, None, [SaveVote(V1)] + FirstWrite(mode), Disk(V0, []))
  {
    Quorate();
    assert {1 as NodeId} + {2} == {1, 2};
    assert seq(1, _ => T(mode)) == [T(mode)];
  }

  lemma FirstLeads(mode: Mode)
    ensures Reachable(Three(mode), Start(mode),
                      Of(Leading(mode, 1, None, [SaveVote(V1)] + FirstWrite(mode), Disk(V0, [])),
                         Voted([], Disk(V0, [])), Fresh(mode), L(mode, VOTING)))
  {
    hide HandleVoteResp, WinsElection, Reachable;
    var cfg, s0, f, b := Three(mode), Start(mode), Fresh(mode), Voted([], Disk(V0, []));
    var h, a0, a1 := H(mode, VOTING, {W}), Asking([], Disk(V0, []), {}), Asking([], Disk(V0, []), {1});
    var a2 := Leading(mode, 1, None, [SaveVote(V1)] + FirstWrite(mode), Disk(V0, []));
    SecondVotes(mode);
    CountedIs(mode);
    WonIs(mode);
    assert R1 in h.msgs && R2 in h.msgs;
    TookTo(cfg, s0, Of(a0, b, f, h), VoteRespStep(1, R1), a1);
    Puts(a0, b, f, h, a1);
    Took(cfg, s0, Of(a1, b, f, h), VoteRespStep(1, R2));
    Puts(a1, b, f, h, a2);
    assert Elected(cfg, h, a1, R2) == L(mode, VOTING);
  }

  // ---- replication before the flush ----

  /** Node 1 has saved its vote, and flushed nothing of its two entries. */
  function Ahead(mode: Mode, committed: Option<LogId>, more: seq<Command>): Node {
    Leading(mode, 2, committed,
            FirstWrite(mode) + [AppendEntries([T(mode)]), Send(Ack(mode, 1, 1))] + more, Disk(V1, []))
  }

  lemma WriteIs(mode: Mode)
    ensures LeaderAppend(Three(mode), 1, Leading(mode, 1, None, FirstWrite(mode), Disk(V1, [])),
                         Leader(W, Id(mode, 0)), 1)
            == Ahead(mode, None, [])
  {
    assert seq(1, _ => T(mode)) == [T(mode)] && seq(2, _ => T(mode)) == [T(mode), T(mode)];
    assert [T(mode)] + [T(mode)] == [T(mode), T(mode)];
  }

  lemma FirstWrites(mode: Mode)
    ensures Reachable(Three(mode), Start(mode),
                      Of(Ahead(mode, None, []), Voted([], Disk(V0, [])), Fresh(mode), L(mode, VOTING)))
  {
    hide LeaderAppend, Reachable;
    var cfg, s0, f, b, h := Three(mode), Start(mode), Fresh(mode), Voted([], Disk(V0, [])), L(mode, VOTING);
    var a0 := Leading(mode, 1, None, [SaveVote(V1)] + FirstWrite(mode), Disk(V0, []));
    var a1 := Leading(mode, 1, None, FirstWrite(mode), Disk(V1, []));
    FirstLeads(mode);
    Runs(cfg, s0, Of(a0, b, f, h), 1);
    assert a0.queue[1..] == FirstWrite(mode);
    assert RanHistory(h, SaveVote(V1)) == h;
    Puts(a0, b, f, h, a1);
    WriteIs(mode);
    TookTo(cfg, s0, Of(a1, b, f, h), WriteStep(1, 1), Ahead(mode, None, []));
    Puts(a1, b, f, h, Ahead(mode, None, []));
  }

  /** A follower that has taken over both entries. */
  function Followed(mode: Mode, committed: Option<LogId>, queue: seq<Command>, disk: Store): Node {
    Node(V1, [T(mode), T(mode)], committed, Id(mode, 1), None, None, queue, disk)
  }

  function Taking(mode: Mode, id: NodeId): seq<Command> {
    [SaveVote(V1), AppendEntries([T(mode), T(mode)]), Send(Ack(mode, id, 1))]
  }

  lemma TakeIs(mode: Mode, id: NodeId, v: Vote)
    requires (id == 2 && v == V0) || (id == 3 && v == DefaultVote(mode))
    ensures HandleAppendReq(Three(mode), id, Node(v, [], None, None, None, None, [], Disk(v, [])), 1, W,
                            None, [T(mode), T(mode)], None)
            == Followed(mode, None, Taking(mode, id), Disk(v, []))
  {
    var n := Node(v, [], None, None, None, None, [], Disk(v, []));
    var es := [T(mode), T(mode)];
    var n1 := Push(n.(vote := V1), SaveVote(V1));
    assert UpdateVote(Three(mode), id, n, V1) == (true, n1);
    assert FirstConflict(n1, 0, es) == 0;
    assert es[0..] == es && [] + es == es;
  }

  lemma FirstReplicates(mode: Mode)
    ensures Reachable(Three(mode), Start(mode),
                      Of(Ahead(mode, None, []), Voted([], Disk(V0, [])), Fresh(mode),
                         L(mode, VOTING + {Entries(mode)})))
  {
    hide Reachable;
    var cfg, s0, f, b := Three(mode), Start(mode), Fresh(mode), Voted([], Disk(V0, []));
    var a, h := Ahead(mode, None, []), L(mode, VOTING);
    FirstWrites(mode);
    Took(cfg, s0, Of(a, b, f, h), ReplicateStep(1, 0, 2));
    assert a.log[0..2] == [T(mode), T(mode)];
    assert ReplicateMsg(a, 0, 2) == Entries(mode);
  }

  function Acked3(mode: Mode): set<Msg> {
    VOTING + {Entries(mode)} + {Ack(mode, 2, 1)} + {Ack(mode, 3, 1)}
  }

  lemma OthersTake(mode: Mode)
    ensures var d := Disk(V1, [T(mode), T(mode)]);
            Reachable(Three(mode), Start(mode),
                      Of(Ahead(mode, None, []), Followed(mode, None, [], d), Followed(mode, None, [], d),
                         L(mode, Acked3(mode))))
  {
    hide HandleAppendReq, Reachable;
    var cfg, s0, f, b := Three(mode), Start(mode), Fresh(mode), Voted([], Disk(V0, []));
    var a, d := Ahead(mode, None, []), Disk(V1, [T(mode), T(mode)]);
    var h0 := L(mode, VOTING + {Entries(mode)});
    var h1 := L(mode, VOTING + {Entries(mode)} + {Ack(mode, 2, 1)});
    var b1, b2 := Followed(mode, None, Taking(mode, 2), Disk(V0, [])), Followed(mode, None, [], d);
    var c1 := Followed(mode, None, Taking(mode, 3), Disk(DefaultVote(mode), []));
    FirstReplicates(mode);
    TakeIs(mode, 2, V0);
    TakeIs(mode, 3, DefaultVote(mode));
    assert Entries(mode) in h0.msgs && Entries(mode) in h1.msgs;
    assert [] + [T(mode), T(mode)] == [T(mode), T(mode)];
    TookTo(cfg, s0, Of(a, b, f, h0), AppendReqStep(2, Entries(mode)), b1);
    Puts(a, b, f, h0, b1);
    Drains(cfg, s0, Of(a, b1, f, h0), 2);
    DrainedThree(b1, h0);
    assert DrainedOn(h0, b1.queue) == h1;
    Puts(a, b1, f, h0, b2);
    TookTo(cfg, s0, Of(a, b2, f, h1), AppendReqStep(3, Entries(mode)), c1);
    Puts(a, b2, f, h1, c1);
    Drains(cfg, s0, Of(a, b2, c1, h1), 3);
    DrainedThree(c1, h1);
    assert DrainedOn(h1, c1.queue) == L(mode, Acked3(mode));
    Puts(a, b2, c1, h1, b2);
  }

  // ---- the commit, and the crash ----

  function Committing(mode: Mode): Node {
    Ahead(mode, Id(mode, 1), [SaveCommitted(Id(mode, 1).value)])
  }

  lemma CommitIs(mode: Mode)
    ensures LeaderCommit(Three(mode), Ahead(mode, None, []), 1) == Committing(mode)
  {
    var a := Ahead(mode, None, []);
    assert a.queue + [SaveCommitted(Id(mode, 1).value)] == Committing(mode).queue;
  }

  lemma FirstCommits(mode: Mode)
    ensures var b := Followed(mode, None, [], Disk(V1, [T(mode), T(mode)]));
            Reachable(Three(mode), Start(mode), Of(Committing(mode), b, b, L(mode, Acked3(mode))))
  {
    hide LeaderCommit, Reachable;
    var cfg, s0, h := Three(mode), Start(mode), L(mode, Acked3(mode));
    var a, b := Ahead(mode, None, []), Followed(mode, None, [], Disk(V1, [T(mode), T(mode)]));
    OthersTake(mode);
    Quorate();
    CommitIs(mode);
    BothAcked(mode);
    TookTo(cfg, s0, Of(a, b, b, h), CommitStep(1, 1, {2, 3}), Committing(mode));
    Puts(a, b, b, h, Committing(mode));
  }

  lemma BothAcked(mode: Mode)
    ensures forall x :: x in {2 as NodeId, 3} ==> Acked(L(mode, Acked3(mode)), x, W, 1)
  {
    var h := L(mode, Acked3(mode));
    assert Ack(mode, 2, 1) in h.msgs && Ack(mode, 3, 1) in h.msgs;
  }

  lemma FirstTells(mode: Mode)
    ensures var b := Followed(mode, None, [], Disk(V1, [T(mode), T(mode)]));
            Reachable(Three(mode), Start(mode),
                      Of(Committing(mode), b, b, L(mode, Acked3(mode) + {Commit(mode)})))
  {
    hide Reachable;
    var b, h := Followed(mode, None, [], Disk(V1, [T(mode), T(mode)])), L(mode, Acked3(mode));
    FirstCommits(mode);
    Took(Three(mode), Start(mode), Of(Committing(mode), b, b, h), ReplicateStep(1, 2, 0));
    assert Committing(mode).log[2..2] == [];
    assert ReplicateMsg(Committing(mode), 2, 0) == Commit(mode);
  }

  lemma LearnIs(mode: Mode)
    ensures var d := Disk(V1, [T(mode), T(mode)]);
            HandleAppendReq(Three(mode), 2, Followed(mode, None, [], d), 1, W, Id(mode, 1), [], Id(mode, 1))
            == Followed(mode, Id(mode, 1), [Send(Ack(mode, 2, 1)), SaveCommitted(Id(mode, 1).value)], d)
  {
  }

  /** The second node knows that both entries are committed. */
  lemma SecondLearns(mode: Mode)
    ensures var d := Disk(V1, [T(mode), T(mode)]);
            Reachable(Three(mode), Start(mode),
                      Of(Committing(mode),
                         Followed(mode, Id(mode, 1), [Send(Ack(mode, 2, 1)), SaveCommitted(Id(mode, 1).value)], d),
                         Followed(mode, None, [], d), L(mode, Acked3(mode) + {Commit(mode)})))
  {
    hide HandleAppendReq, Reachable;
    var cfg, s0, h := Three(mode), Start(mode), L(mode, Acked3(mode) + {Commit(mode)});
    var a, d := Committing(mode), Disk(V1, [T(mode), T(mode)]);
    var b := Followed(mode, None, [], d);
    var b' := Followed(mode, Id(mode, 1), [Send(Ack(mode, 2, 1)), SaveCommitted(Id(mode, 1).value)], d);
    FirstTells(mode);
    LearnIs(mode);
    assert Commit(mode) in h.msgs;
    TookTo(cfg, s0, Of(a, b, b, h), AppendReqStep(2, Commit(mode)), b');
    Puts(a, b, b, h, b');
  }

  lemma RestartIs(mode: Mode)
    ensures Restart(Three(mode), 1, Committing(mode), false)
            == Leading(mode, 1, None, [Send(AppendResp(1, 1, W, Success(None)))] + FirstWrite(mode), Disk(V1, []))
  {
    assert seq(1, _ => T(mode)) == [T(mode)] && [] + [T(mode)] == [T(mode)];
  }

  /** A leader can lack an entry that is committed under its own vote: a state is reachable, in both leader-id
      modes, in which node 1 leads with one entry, and node 2, under the same vote, knows two to be committed. */
  lemma RestartedLeaderLacksCommitted(mode: Mode) returns (s0: Cluster, steps: seq<Step>, s: Cluster)
    ensures Reaches(Three(mode), s0, steps, s) && 1 in s.nodes && 2 in s.nodes
    ensures s.nodes[1].leader.Some? && s.nodes[1].vote == s.nodes[2].vote
            && s.nodes[1].vote == Vote(s.nodes[1].leader.value.leader, true)
    ensures |s.nodes[1].log| < NextIndex(s.nodes[2].committed)
  {
    hide Restart;
    var cfg, d := Three(mode), Disk(V1, [T(mode), T(mode)]);
    var a' := Leading(mode, 1, None, [Send(AppendResp(1, 1, W, Success(None)))] + FirstWrite(mode), Disk(V1, []));
    var b := Followed(mode, Id(mode, 1), [Send(Ack(mode, 2, 1)), SaveCommitted(Id(mode, 1).value)], d);
    var c, h := Followed(mode, None, [], d), L(mode, Acked3(mode) + {Commit(mode)});
    SecondLearns(mode);
    RestartIs(mode);
    s0 := Start(mode);
    TookTo(cfg, s0, Of(Committing(mode), b, c, h), CrashStep(1, false), a');
    Puts(Committing(mode), b, c, h, a');
    s := Of(a', b, c, h);
    steps :| Reaches(cfg, s0, steps, s);
  }
}
