/** A run of five nodes in which the trackers break the protocol: a leader commits an index that its tracker grants and
    two other nodes hold, crashes before it flushed the entry, leads again without it, and votes for a node that does
    not have it either; that one is elected and commits its own entry at the index. */
module RaftTrackedExample {
  import opened Basics
  import opened Votes
  import opened Quorums
  import opened RaftNode
  import opened RaftCluster
  import opened RaftStorage
  import RaftElection
  import opened RaftTheorems
  import opened RaftTracked
  import Progress
  import ProgressRuns
  import ProgressExact
  import Ex = RaftExample

  // ---- reaching states ----

  /** Cluster `s` is reached with the given trackers, and possibly others. */
  ghost predicate Attained(cfg: Config, r: Rule, t0: Tracked, s: Cluster, known: map<NodeId, Tracker>) {
    exists xs :: CanTakeAll(cfg, r, t0, xs) && Shows(TakeAll(cfg, r, t0, xs), s, known)
  }

  predicate Shows(t: Tracked, s: Cluster, known: map<NodeId, Tracker>) {
    t.s == s && forall id :: id in known ==> id in t.trackers && t.trackers[id] == known[id]
  }

  lemma {:induction false} TakeOneMore(cfg: Config, r: Rule, t: Tracked, xs: seq<TrackedStep>, x: TrackedStep)
    requires CanTakeAll(cfg, r, t, xs) && CanTake(cfg, TakeAll(cfg, r, t, xs), x)
    ensures CanTakeAll(cfg, r, t, xs + [x])
            && TakeAll(cfg, r, t, xs + [x]) == Take(cfg, r, TakeAll(cfg, r, t, xs), x)
    decreases |xs|
  {
    hide CanTake, Take;
    if |xs| == 0 {
      assert [] + [x] == [x] && [x][1..] == [];
      assert CanTakeAll(cfg, r, Take(cfg, r, t, x), []);
      assert TakeAll(cfg, r, Take(cfg, r, t, x), []) == Take(cfg, r, t, x);
    } else {
      assert (xs + [x])[1..] == xs[1..] + [x];
      TakeOneMore(cfg, r, Take(cfg, r, t, xs[0]), xs[1..], x);
    }
  }

  /** A step that leaves the trackers that are known. */
  lemma Does(cfg: Config, r: Rule, t0: Tracked, s: Cluster, known: map<NodeId, Tracker>, step: Step)
    requires Attained(cfg, r, t0, s, known) && Enabled(cfg, s, step) && !step.CommitStep? && step.id !in known
    ensures Attained(cfg, r, t0, Next(cfg, s, step), known)
  {
    hide Enabled, Next, CanTakeAll, TakeAll, NewTracker;
    var xs :| CanTakeAll(cfg, r, t0, xs) && Shows(TakeAll(cfg, r, t0, xs), s, known);
    TakeOneMore(cfg, r, t0, xs, Do(step));
    assert Shows(TakeAll(cfg, r, t0, xs + [Do(step)]), Next(cfg, s, step), known);
  }

  /** A step of a leader that goes on leading. */
  lemma DoesOn(cfg: Config, r: Rule, t0: Tracked, s: Cluster, known: map<NodeId, Tracker>, step: Step)
    requires Attained(cfg, r, t0, s, known) && Enabled(cfg, s, step) && !step.CommitStep?
    requires !Starts(s.nodes[step.id], Next(cfg, s, step).nodes[step.id], step)
    ensures Attained(cfg, r, t0, Next(cfg, s, step), known)
  {
    hide Enabled, Next, CanTakeAll, TakeAll, NewTracker, Starts;
    var xs :| CanTakeAll(cfg, r, t0, xs) && Shows(TakeAll(cfg, r, t0, xs), s, known);
    TakeOneMore(cfg, r, t0, xs, Do(step));
    assert Shows(TakeAll(cfg, r, t0, xs + [Do(step)]), Next(cfg, s, step), known);
  }

  /** A step that makes a node lead. */
  lemma DoesLead(cfg: Config, r: Rule, t0: Tracked, s: Cluster, known: map<NodeId, Tracker>, step: Step)
    requires Attained(cfg, r, t0, s, known) && Enabled(cfg, s, step) && !step.CommitStep?
    requires Starts(s.nodes[step.id], Next(cfg, s, step).nodes[step.id], step)
    ensures Attained(cfg, r, t0, Next(cfg, s, step), map[step.id := NewTracker(cfg, r)])
  {
    hide Enabled, Next, CanTakeAll, TakeAll, NewTracker, Starts;
    var xs :| CanTakeAll(cfg, r, t0, xs) && Shows(TakeAll(cfg, r, t0, xs), s, known);
    TakeOneMore(cfg, r, t0, xs, Do(step));
    assert Shows(TakeAll(cfg, r, t0, xs + [Do(step)]), Next(cfg, s, step), map[step.id := NewTracker(cfg, r)]);
  }

  /** A leader hears an acknowledgement. */
  lemma Hears(cfg: Config, r: Rule, t0: Tracked, s: Cluster, id: NodeId, p: Tracker, m: Msg)
    requires Attained(cfg, r, t0, s, map[id := p]) && p.voters <= |p.vector|
    requires id in s.nodes && m in s.h.msgs && s.nodes[id].leader.Some?
    requires m.AppendResp? && m.dst == id && IsAck(m, m.src, s.nodes[id].leader.value.leader)
    ensures var p' := Raise(r, p, HeardOp(m));
            Attained(cfg, r, t0, With(s, id, Granted(cfg, s.nodes[id], p'.granted)), map[id := p'])
  {
    hide CanTakeAll, TakeAll, Raise, Granted;
    var xs :| CanTakeAll(cfg, r, t0, xs) && Shows(TakeAll(cfg, r, t0, xs), s, map[id := p]);
    assert id in map[id := p];
    TakeOneMore(cfg, r, t0, xs, Hear(id, m));
    var p' := Raise(r, p, HeardOp(m));
    assert Shows(TakeAll(cfg, r, t0, xs + [Hear(id, m)]), With(s, id, Granted(cfg, s.nodes[id], p'.granted)),
                 map[id := p']);
  }

  lemma Forgets(cfg: Config, r: Rule, t0: Tracked, s: Cluster, known: map<NodeId, Tracker>)
    requires Attained(cfg, r, t0, s, known)
    ensures Attained(cfg, r, t0, s, map[])
  {
    hide CanTakeAll, TakeAll;
    var xs :| CanTakeAll(cfg, r, t0, xs) && Shows(TakeAll(cfg, r, t0, xs), s, known);
    assert Shows(TakeAll(cfg, r, t0, xs), s, map[]);
  }

  /** A node runs all that it has queued. */
  lemma {:induction false} DrainsAll(cfg: Config, r: Rule, t0: Tracked, s: Cluster, known: map<NodeId, Tracker>,
                                     id: NodeId)
    requires Attained(cfg, r, t0, s, known) && id in s.nodes
    ensures Attained(cfg, r, t0, With(s, id, Ex.Drained(s.nodes[id])).(h := Ex.DrainedOn(s.h, s.nodes[id].queue)),
                     known)
    decreases |s.nodes[id].queue|
  {
    hide Attained, RanHistory;
    var n := s.nodes[id];
    if |n.queue| == 0 {
      assert With(s, id, n).(h := s.h) == s by { assert s.nodes[id := n] == s.nodes; }
    } else {
      RunNext(cfg, s, id);
      DoesOn(cfg, r, t0, s, known, RunStep(id));
      var s1 := With(s, id, Ran(n)).(h := RanHistory(s.h, n.queue[0]));
      DrainsAll(cfg, r, t0, s1, known, id);
      assert With(s1, id, Ex.Drained(Ran(n))).nodes == With(s, id, Ex.Drained(n)).nodes;
    }
  }

  /** A node hears a vote reply that does not make it win. */
  lemma HearsVote(cfg: Config, r: Rule, t0: Tracked, s: Cluster, known: map<NodeId, Tracker>, id: NodeId, m: Msg,
                  n': Node)
    requires Attained(cfg, r, t0, s, known) && id in s.nodes && id !in known
    requires m in s.h.msgs && m.VoteResp? && m.dst == id
    requires HandleVoteResp(cfg, id, s.nodes[id], m.src, m.req, m.vote, m.granted) == n'
    requires !WinsElection(cfg, s.nodes[id], m.src, m.req, m.vote, m.granted)
    ensures Attained(cfg, r, t0, With(s, id, n'), known)
  {
    hide HandleVoteResp, WinsElection, Attained;
    Does(cfg, r, t0, s, known, VoteRespStep(id, m));
  }

  /** A node wins its election. */
  lemma HearsLast(cfg: Config, r: Rule, t0: Tracked, s: Cluster, known: map<NodeId, Tracker>, id: NodeId, m: Msg,
                  n': Node)
    requires Attained(cfg, r, t0, s, known) && id in s.nodes && s.nodes[id].leader.None? && n'.leader.Some?
    requires m in s.h.msgs && m.VoteResp? && m.dst == id
    requires HandleVoteResp(cfg, id, s.nodes[id], m.src, m.req, m.vote, m.granted) == n'
    requires WinsElection(cfg, s.nodes[id], m.src, m.req, m.vote, m.granted) && s.nodes[id].candidate.Some?
    ensures var n := s.nodes[id];
            var h' := RaftElection.Establishes(cfg, s.h, n.candidate.value.leader, n.log);
            Attained(cfg, r, t0, With(s, id, n').(h := h'), map[id := NewTracker(cfg, r)])
  {
    hide HandleVoteResp, WinsElection, Attained, NewTracker;
    DoesLead(cfg, r, t0, s, known, VoteRespStep(id, m));
  }

  /** A node hears a request for entries. */
  lemma HearsAppend(cfg: Config, r: Rule, t0: Tracked, s: Cluster, known: map<NodeId, Tracker>, id: NodeId, m: Msg,
                    n': Node)
    requires Attained(cfg, r, t0, s, known) && id in s.nodes && id !in known
    requires m in s.h.msgs && m.AppendReq? && m.leader.node.Some? && m.leader.node != Some(id)
    requires HandleAppendReq(cfg, id, s.nodes[id], m.leader.node.value, m.leader, m.prev, m.entries, m.commit) == n'
    ensures Attained(cfg, r, t0, With(s, id, n'), known)
  {
    hide HandleAppendReq, Attained;
    Does(cfg, r, t0, s, known, AppendReqStep(id, m));
  }

  /** A leader sends a request. */
  lemma Sends(cfg: Config, r: Rule, t0: Tracked, s: Cluster, known: map<NodeId, Tracker>, id: NodeId, start: nat,
              count: nat)
    requires Attained(cfg, r, t0, s, known) && id in s.nodes && s.nodes[id].leader.Some?
    requires start + count <= |s.nodes[id].log|
    ensures Attained(cfg, r, t0, Say(s, ReplicateMsg(s.nodes[id], start, count)), known)
  {
    hide Attained;
    DoesOn(cfg, r, t0, s, known, ReplicateStep(id, start, count));
  }

  // ---- the cast ----

  const W := LeaderId(1, Some(5))
  const W2 := LeaderId(2, Some(1))
  const RULE := Rule([1, 2, 3, 4, 5], [], false)
  const ALL: set<NodeId> := {1, 2, 3, 4, 5}

  function Five(mode: Mode): Config {
    Config(mode, [ALL])
  }

  function T(mode: Mode): LeaderId {
    ToCommitted(mode, W)
  }

  function T2(mode: Mode): LeaderId {
    ToCommitted(mode, W2)
  }

  function Of(a: Node, b: Node, c: Node, d: Node, e: Node, h: History): Cluster {
    Cluster(map[1 := a, 2 := b, 3 := c, 4 := d, 5 := e], h)
  }

  lemma Puts1(a: Node, b: Node, c: Node, d: Node, e: Node, h: History, n: Node)
    ensures With(Of(a, b, c, d, e, h), 1, n) == Of(n, b, c, d, e, h)
  {
  }

  lemma Puts2(a: Node, b: Node, c: Node, d: Node, e: Node, h: History, n: Node)
    ensures With(Of(a, b, c, d, e, h), 2, n) == Of(a, n, c, d, e, h)
  {
  }

  lemma Puts3(a: Node, b: Node, c: Node, d: Node, e: Node, h: History, n: Node)
    ensures With(Of(a, b, c, d, e, h), 3, n) == Of(a, b, n, d, e, h)
  {
  }

  lemma Puts4(a: Node, b: Node, c: Node, d: Node, e: Node, h: History, n: Node)
    ensures With(Of(a, b, c, d, e, h), 4, n) == Of(a, b, c, n, e, h)
  {
  }

  lemma Puts5(a: Node, b: Node, c: Node, d: Node, e: Node, h: History, n: Node)
    ensures With(Of(a, b, c, d, e, h), 5, n) == Of(a, b, c, d, n, h)
  {
  }

  lemma Quorate()
    ensures !IsQuorum([ALL], {5}) && !IsQuorum([ALL], {5, 1}) && IsQuorum([ALL], {5, 1, 2})
    ensures !IsQuorum([ALL], {1}) && !IsQuorum([ALL], {1, 4}) && IsQuorum([ALL], {1, 4, 5})
    ensures !IsQuorum([ALL], {1, 2}) && IsQuorum([ALL], {1, 2, 3})
  {
    assert ALL * {5} == {5} && ALL * {5, 1} == {5, 1} && ALL * {5, 1, 2} == {5, 1, 2};
    assert ALL * {1} == {1} && ALL * {1, 4} == {1, 4} && ALL * {1, 4, 5} == {1, 4, 5};
    assert ALL * {1, 2} == {1, 2} && ALL * {1, 2, 3} == {1, 2, 3};
    assert [ALL][0] == ALL;
    assert !IsMajority([ALL][0], {5}) && !IsMajority([ALL][0], {5, 1});
    assert !IsMajority([ALL][0], {1}) && !IsMajority([ALL][0], {1, 4}) && !IsMajority([ALL][0], {1, 2});
  }

  function Disk(v: Vote, log: Log): Store {
    Store(v, log, None)
  }

  /** A node that neither leads nor stands for election. */
  function Plain(v: Vote, log: Log, accepted: Option<LogId>, queue: seq<Command>, disk: Store): Node {
    Node(v, log, None, accepted, None, None, queue, disk)
  }

  function Empty(v: Vote): Node {
    Plain(v, [], None, [], Disk(v, []))
  }

  function Ack(src: NodeId, w: LeaderId, x: LogId): Msg
    requires w.node.Some?
  {
    AppendResp(src, w.node.value, w, Success(Some(x)))
  }

  // ---- what the handlers do here ----

  function Asks(id: NodeId, w: LeaderId, last: Option<LogId>): seq<Command> {
    [SaveVote(Vote(w, false)), Send(VoteResp(id, id, w, Vote(w, false), None, true)), Send(VoteReq(w, last))]
  }

  function Standing(w: LeaderId, log: Log, granters: set<NodeId>, queue: seq<Command>, disk: Store): Node {
    Node(Vote(w, false), log, None, None, Some(Candidate(w, LastId(log), granters)), None, queue, disk)
  }

  lemma ElectIs(cfg: Config, id: NodeId, n: Node, w: LeaderId)
    requires w == LeaderId(n.vote.leader.term + 1, Some(id)) && n.queue == [] && n.leader.None? && n.committed.None?
    ensures Elect(cfg, id, n) == Standing(w, n.log, {}, Asks(id, w, LastId(n.log)), n.disk)
  {
  }

  function Grants(id: NodeId, w: LeaderId): seq<Command>
    requires w.node.Some?
  {
    [SaveVote(Vote(w, false)), Send(VoteResp(id, id, w, Vote(w, false), None, true)),
     Send(VoteResp(id, w.node.value, w, Vote(w, false), None, true))]
  }

  lemma GrantIs(cfg: Config, id: NodeId, v: Vote, w: LeaderId, last: Option<LogId>)
    requires w.node.Some? && w.node != Some(id) && VoteLt(cfg.mode, v, Vote(w, false)) && v != Vote(w, false)
    ensures HandleVoteReq(cfg, id, Empty(v), w.node.value, w, last, false)
            == Plain(Vote(w, false), [], None, Grants(id, w), Disk(v, []))
  {
  }

  lemma CountIs(cfg: Config, id: NodeId, w: LeaderId, log: Log, granters: set<NodeId>, disk: Store, src: NodeId)
    requires !IsQuorum(cfg.configs, granters + {src})
    ensures HandleVoteResp(cfg, id, Standing(w, log, granters, [], disk), src, w, Vote(w, false), true)
            == Standing(w, log, granters + {src}, [], disk)
    ensures !WinsElection(cfg, Standing(w, log, granters, [], disk), src, w, Vote(w, false), true)
  {
  }

  function Leading(mode: Mode, w: LeaderId, log: Log, committed: Option<LogId>, queue: seq<Command>,
                   disk: Store): Node {
    Node(Vote(w, true), log, committed, LastId(log), None, Some(Leader(w, LastId(log))), queue, disk)
  }

  function FirstEntry(mode: Mode, id: NodeId, w: LeaderId, log: Log): seq<Command> {
    var t := ToCommitted(mode, w);
    [SaveVote(Vote(w, true)), AppendEntries([t]), Send(AppendResp(id, id, w, Success(Some(LogId(t, |log|)))))]
  }

  lemma WinIs(cfg: Config, id: NodeId, w: LeaderId, log: Log, granters: set<NodeId>, disk: Store, src: NodeId)
    requires IsQuorum(cfg.configs, granters + {src}) && w.node == Some(id)
    requires |log| > 0 ==> LeaderLt(log[|log| - 1], ToCommitted(cfg.mode, w))
    ensures WinsElection(cfg, Standing(w, log, granters, [], disk), src, w, Vote(w, false), true)
    ensures HandleVoteResp(cfg, id, Standing(w, log, granters, [], disk), src, w, Vote(w, false), true)
            == Leading(cfg.mode, w, log + [ToCommitted(cfg.mode, w)], None, FirstEntry(cfg.mode, id, w, log), disk)
  {
    assert seq(1, _ => ToCommitted(cfg.mode, w)) == [ToCommitted(cfg.mode, w)];
  }

  function Copies(id: NodeId, w: LeaderId, es: Log): seq<Command>
    requires w.node.Some? && |es| > 0
  {
    [SaveVote(Vote(w, true)), AppendEntries(es), Send(Ack(id, w, LogId(es[|es| - 1], |es| - 1)))]
  }

  lemma CopyIs(cfg: Config, id: NodeId, v: Vote, w: LeaderId, es: Log)
    requires w.node.Some? && w.node != Some(id) && VoteLt(cfg.mode, v, Vote(w, true)) && |es| > 0
    ensures HandleAppendReq(cfg, id, Empty(v), w.node.value, w, None, es, None)
            == Plain(Vote(w, true), es, LastId(es), Copies(id, w, es), Disk(v, []))
  {
    var n1 := Push(Empty(v).(vote := Vote(w, true)), SaveVote(Vote(w, true)));
    assert UpdateVote(cfg, id, Empty(v), Vote(w, true)) == (true, n1);
    assert FirstConflict(n1, 0, es) == 0;
    assert es[0..] == es && [] + es == es;
  }

  /** Three commands run: a vote saved and two messages sent, or a vote saved, entries flushed and a message sent. */
  lemma DrainVote(n: Node, h: History, v: Vote, a: Msg, b: Msg)
    requires n.queue == [SaveVote(v), Send(a), Send(b)]
    ensures Ex.Drained(n) == n.(queue := [], disk := n.disk.(vote := v))
    ensures Ex.DrainedOn(h, n.queue) == h.(saved := h.saved + {v.leader}, msgs := h.msgs + {a} + {b})
  {
    Ex.DrainedThree(n, h);
  }

  lemma DrainEntries(n: Node, h: History, v: Vote, es: Log, a: Msg)
    requires n.queue == [SaveVote(v), AppendEntries(es), Send(a)]
    ensures Ex.Drained(n) == n.(queue := [], disk := n.disk.(vote := v, log := n.disk.log + es))
    ensures Ex.DrainedOn(h, n.queue) == h.(saved := h.saved + {v.leader}, msgs := h.msgs + {a})
  {
    Ex.DrainedThree(n, h);
  }

  // ---- the first election ----

  function Self(id: NodeId, w: LeaderId): Msg {
    VoteResp(id, id, w, Vote(w, false), None, true)
  }

  function Grant(id: NodeId, w: LeaderId): Msg
    requires w.node.Some?
  {
    VoteResp(id, w.node.value, w, Vote(w, false), None, true)
  }

  const V0 := Vote(W, false)
  const V1 := Vote(W, true)

  function New(mode: Mode): Node {
    Empty(DefaultVote(mode))
  }

  function Origin(mode: Mode): History {
    History({}, {}, map[], {}, map[Genesis(Five(mode)) := []])
  }

  function Start(mode: Mode): Tracked {
    var f := New(mode);
    Tracked(Of(f, f, f, f, f, Origin(mode)), map[])
  }

  /** While node 5 stands for election. */
  function Electing(mode: Mode, msgs: set<Msg>, saved: set<LeaderId>): History {
    History(msgs, saved, map[W := None], {}, map[Genesis(Five(mode)) := []])
  }

  const ASKED: set<Msg> := {} + {Self(5, W)} + {VoteReq(W, None)}
  const FIRST: set<Msg> := ASKED + {Self(1, W)} + {Grant(1, W)}
  const BOTH: set<Msg> := FIRST + {Self(2, W)} + {Grant(2, W)}

  function Stands(granters: set<NodeId>): Node {
    Standing(W, [], granters, [], Disk(V0, []))
  }

  function Gave(): Node {
    Plain(V0, [], None, [], Disk(V0, []))
  }

  lemma StartAttained(mode: Mode)
    ensures Starting(Five(mode), Start(mode)) && RuleOk(Five(mode), RULE)
    ensures Attained(Five(mode), RULE, Start(mode), Start(mode).s, map[])
  {
    assert CanTakeAll(Five(mode), RULE, Start(mode), []);
    assert Shows(TakeAll(Five(mode), RULE, Start(mode), []), Start(mode).s, map[]);
  }

  lemma FifthAsks(mode: Mode)
    ensures var f := New(mode);
            Attained(Five(mode), RULE, Start(mode), Of(f, f, f, f, Stands({}), Electing(mode, ASKED, {W})), map[])
  {
    hide Elect, Attained;
    var cfg, t0, f := Five(mode), Start(mode), New(mode);
    var e := Standing(W, [], {}, Asks(5, W, None), f.disk);
    StartAttained(mode);
    ElectIs(cfg, 5, f, W);
    assert IsVoter(cfg, 5) by { assert 5 in cfg.configs[0]; }
    Does(cfg, RULE, t0, t0.s, map[], ElectStep(5));
    Puts5(f, f, f, f, f, t0.s.h, e);
    assert t0.s.h.asked[W := None] == map[W := None];
    var s1 := Of(f, f, f, f, e, Electing(mode, {}, {}));
    assert Next(cfg, t0.s, ElectStep(5)) == s1;
    DrainsAll(cfg, RULE, t0, s1, map[], 5);
    DrainVote(e, s1.h, V0, Self(5, W), VoteReq(W, None));
    Puts5(f, f, f, f, e, s1.h, Stands({}));
    assert Ex.DrainedOn(s1.h, e.queue) == Electing(mode, ASKED, {W});
  }

  lemma FirstGrants(mode: Mode)
    ensures var f := New(mode);
            Attained(Five(mode), RULE, Start(mode), Of(Gave(), f, f, f, Stands({}), Electing(mode, FIRST, {W})), map[])
  {
    hide HandleVoteReq, Attained;
    var cfg, t0, f, h := Five(mode), Start(mode), New(mode), Electing(mode, ASKED, {W});
    var a := Plain(V0, [], None, Grants(1, W), Disk(DefaultVote(mode), []));
    FifthAsks(mode);
    GrantIs(cfg, 1, DefaultVote(mode), W, None);
    assert IsVoter(cfg, 1) by { assert 1 in cfg.configs[0]; }
    var s := Of(f, f, f, f, Stands({}), h);
    Does(cfg, RULE, t0, s, map[], VoteReqStep(1, VoteReq(W, None), false));
    Puts1(f, f, f, f, Stands({}), h, a);
    DrainsAll(cfg, RULE, t0, Of(a, f, f, f, Stands({}), h), map[], 1);
    DrainVote(a, h, V0, Self(1, W), Grant(1, W));
    Puts1(a, f, f, f, Stands({}), h, Gave());
    assert Ex.DrainedOn(h, a.queue) == Electing(mode, FIRST, {W});
  }

  lemma SecondGrants(mode: Mode)
    ensures var f := New(mode);
            Attained(Five(mode), RULE, Start(mode), Of(Gave(), Gave(), f, f, Stands({}), Electing(mode, BOTH, {W})),
                     map[])
  {
    hide HandleVoteReq, Attained;
    var cfg, t0, f, h := Five(mode), Start(mode), New(mode), Electing(mode, FIRST, {W});
    var b := Plain(V0, [], None, Grants(2, W), Disk(DefaultVote(mode), []));
    FirstGrants(mode);
    GrantIs(cfg, 2, DefaultVote(mode), W, None);
    assert IsVoter(cfg, 2) by { assert 2 in cfg.configs[0]; }
    var s := Of(Gave(), f, f, f, Stands({}), h);
    Does(cfg, RULE, t0, s, map[], VoteReqStep(2, VoteReq(W, None), false));
    Puts2(Gave(), f, f, f, Stands({}), h, b);
    DrainsAll(cfg, RULE, t0, Of(Gave(), b, f, f, Stands({}), h), map[], 2);
    DrainVote(b, h, V0, Self(2, W), Grant(2, W));
    Puts2(Gave(), b, f, f, Stands({}), h, Gave());
    assert Ex.DrainedOn(h, b.queue) == Electing(mode, BOTH, {W});
  }

  /** While node 5 leads. */
  function Led(mode: Mode, msgs: set<Msg>): History {
    History(msgs, {W}, map[W := None], {W}, map[Genesis(Five(mode)) := [], T(mode) := []])
  }

  /** Node 5 leads with `log`, and has flushed nothing but its vote. */
  function Leads5(mode: Mode, log: Log, committed: Option<LogId>, queue: seq<Command>): Node {
    Leading(mode, W, log, committed, queue, Disk(V1, []))
  }

  lemma FifthCounts(mode: Mode)
    ensures var f := New(mode);
            Attained(Five(mode), RULE, Start(mode),
                     Of(Gave(), Gave(), f, f, Stands({5, 1}), Electing(mode, BOTH, {W})), map[])
  {
    hide HandleVoteResp, WinsElection, Attained;
    var cfg, t0, f, h := Five(mode), Start(mode), New(mode), Electing(mode, BOTH, {W});
    SecondGrants(mode);
    Quorate();
    assert {} + {5 as NodeId} == {5} && {5 as NodeId} + {1} == {5, 1};
    CountIs(cfg, 5, W, [], {}, Disk(V0, []), 5);
    CountIs(cfg, 5, W, [], {5}, Disk(V0, []), 1);
    var s := Of(Gave(), Gave(), f, f, Stands({}), h);
    HearsVote(cfg, RULE, t0, s, map[], 5, Self(5, W), Stands({5}));
    Puts5(Gave(), Gave(), f, f, Stands({}), h, Stands({5}));
    var s1 := Of(Gave(), Gave(), f, f, Stands({5}), h);
    HearsVote(cfg, RULE, t0, s1, map[], 5, Grant(1, W), Stands({5, 1}));
    Puts5(Gave(), Gave(), f, f, Stands({5}), h, Stands({5, 1}));
  }

  lemma EstablishedIs(mode: Mode)
    ensures RaftElection.Establishes(Five(mode), Electing(mode, BOTH, {W}), W, []) == Led(mode, BOTH)
  {
  }

  /** Node 5 as it wins. */
  function Won5(mode: Mode): Node {
    Leading(mode, W, [T(mode)], None, FirstEntry(mode, 5, W, []), Disk(V0, []))
  }

  function Tracker0(mode: Mode): map<NodeId, Tracker> {
    map[5 := NewTracker(Five(mode), RULE)]
  }

  lemma FifthLeads(mode: Mode)
    ensures var f := New(mode);
            Attained(Five(mode), RULE, Start(mode),
                     Of(Gave(), Gave(), f, f, Won5(mode), Led(mode, BOTH)), Tracker0(mode))
  {
    hide HandleVoteResp, WinsElection, Attained, NewTracker, IsQuorum, FirstEntry, Genesis;
    var cfg, t0, f, h := Five(mode), Start(mode), New(mode), Electing(mode, BOTH, {W});
    FifthCounts(mode);
    Quorate();
    assert {5 as NodeId, 1} + {2} == {5, 1, 2};
    WinIs(cfg, 5, W, [], {5, 1}, Disk(V0, []), 2);
    var s, e := Of(Gave(), Gave(), f, f, Stands({5, 1}), h), Won5(mode);
    assert [] + [T(mode)] == [T(mode)];
    HearsLast(cfg, RULE, t0, s, map[], 5, Grant(2, W), e);
    EstablishedIs(mode);
    Puts5(Gave(), Gave(), f, f, Stands({5, 1}), h, e);
  }

  function FirstWrite(mode: Mode): seq<Command> {
    [AppendEntries([T(mode)]), Send(Ack(5, W, LogId(T(mode), 0)))]
  }

  /** The vote is saved before anything is sent. */
  lemma FifthSaves(mode: Mode)
    ensures var f := New(mode);
            Attained(Five(mode), RULE, Start(mode),
                     Of(Gave(), Gave(), f, f, Leads5(mode, [T(mode)], None, FirstWrite(mode)), Led(mode, BOTH)),
                     Tracker0(mode))
  {
    hide Attained, NewTracker, Genesis;
    var cfg, t0, f, h := Five(mode), Start(mode), New(mode), Led(mode, BOTH);
    var e, e' := Won5(mode), Leads5(mode, [T(mode)], None, FirstWrite(mode));
    FifthLeads(mode);
    var s := Of(Gave(), Gave(), f, f, e, h);
    assert s.nodes[5] == e && e.queue[1..] == FirstWrite(mode);
    RunNext(cfg, s, 5);
    assert RanHistory(h, SaveVote(V1)) == h by { assert {W} + {W} == {W}; }
    Puts5(Gave(), Gave(), f, f, e, h, e');
    DoesOn(cfg, RULE, t0, s, Tracker0(mode), RunStep(5));
  }

  // ---- replication before the flush ----

  /** A log of `k` entries of the first leader. */
  function Ts(mode: Mode, k: nat): Log {
    seq(k, _ => T(mode))
  }

  function Id(mode: Mode, i: nat): LogId {
    LogId(T(mode), i)
  }

  function Written(mode: Mode): seq<Command> {
    FirstWrite(mode) + [AppendEntries(Ts(mode, 3)), Send(Ack(5, W, Id(mode, 3)))]
  }

  lemma WriteIs(mode: Mode)
    ensures LeaderAppend(Five(mode), 5, Leads5(mode, [T(mode)], None, FirstWrite(mode)),
                         Leader(W, LastId([T(mode)])), 3)
            == Leads5(mode, Ts(mode, 4), None, Written(mode))
  {
    assert [T(mode)] + Ts(mode, 3) == Ts(mode, 4);
  }

  function Request(mode: Mode, k: nat): Msg {
    AppendReq(W, None, Ts(mode, k), None)
  }

  /** The entries after the first. */
  function Others(mode: Mode): Msg {
    AppendReq(W, Some(Id(mode, 0)), Ts(mode, 3), None)
  }

  function Sent(mode: Mode): set<Msg> {
    BOTH + {Request(mode, 2)} + {Request(mode, 1)} + {Others(mode)} + {Request(mode, 3)}
  }

  lemma FifthWrites(mode: Mode)
    ensures var f := New(mode);
            Attained(Five(mode), RULE, Start(mode),
                     Of(Gave(), Gave(), f, f, Leads5(mode, Ts(mode, 4), None, Written(mode)),
                        Led(mode, BOTH)), Tracker0(mode))
  {
    hide LeaderAppend, Attained, NewTracker, FirstWrite;
    var cfg, t0, f, h := Five(mode), Start(mode), New(mode), Led(mode, BOTH);
    var e := Leads5(mode, [T(mode)], None, FirstWrite(mode));
    var e' := Leads5(mode, Ts(mode, 4), None, Written(mode));
    FifthSaves(mode);
    WriteIs(mode);
    var s := Of(Gave(), Gave(), f, f, e, h);
    assert s.nodes[5] == e;
    assert Next(cfg, s, WriteStep(5, 3)) == With(s, 5, e');
    DoesOn(cfg, RULE, t0, s, Tracker0(mode), WriteStep(5, 3));
    Puts5(Gave(), Gave(), f, f, e, h, e');
  }

  function Leader5(mode: Mode): Node {
    Leads5(mode, Ts(mode, 4), None, Written(mode))
  }

  lemma RequestIs(mode: Mode, k: nat)
    requires k <= 4
    ensures var e := Leads5(mode, Ts(mode, 4), None, Written(mode));
            ReplicateMsg(e, 0, k) == Request(mode, k) && ReplicateMsg(e, 1, 3) == Others(mode)
  {
    assert Ts(mode, 4)[0..k] == Ts(mode, k) && Ts(mode, 4)[1..1 + 3] == Ts(mode, 3);
  }

  lemma SaysOf(a: Node, b: Node, c: Node, d: Node, e: Node, mode: Mode, msgs: set<Msg>, m: Msg)
    ensures Say(Of(a, b, c, d, e, Led(mode, msgs)), m) == Of(a, b, c, d, e, Led(mode, msgs + {m}))
  {
  }

  lemma FifthSendsOne(mode: Mode, msgs: set<Msg>, start: nat, count: nat, m: Msg)
    requires start + count <= 4 && ReplicateMsg(Leader5(mode), start, count) == m
    requires var f := New(mode);
             Attained(Five(mode), RULE, Start(mode), Of(Gave(), Gave(), f, f, Leader5(mode), Led(mode, msgs)),
                      Tracker0(mode))
    ensures var f := New(mode);
            Attained(Five(mode), RULE, Start(mode), Of(Gave(), Gave(), f, f, Leader5(mode), Led(mode, msgs + {m})),
                     Tracker0(mode))
  {
    hide Attained, NewTracker, Written, ReplicateMsg;
    var f, e := New(mode), Leader5(mode);
    var s := Of(Gave(), Gave(), f, f, e, Led(mode, msgs));
    assert s.nodes[5] == e;
    Sends(Five(mode), RULE, Start(mode), s, Tracker0(mode), 5, start, count);
    SaysOf(Gave(), Gave(), f, f, e, mode, msgs, m);
  }

  lemma FifthSends(mode: Mode)
    ensures var f := New(mode);
            Attained(Five(mode), RULE, Start(mode),
                     Of(Gave(), Gave(), f, f, Leader5(mode), Led(mode, Sent(mode))), Tracker0(mode))
  {
    hide Attained, NewTracker, Written, Request, Others, Led, Of, ReplicateMsg;
    FifthWrites(mode);
    RequestIs(mode, 2);
    RequestIs(mode, 1);
    RequestIs(mode, 3);
    FifthSendsOne(mode, BOTH, 0, 2, Request(mode, 2));
    FifthSendsOne(mode, BOTH + {Request(mode, 2)}, 0, 1, Request(mode, 1));
    FifthSendsOne(mode, BOTH + {Request(mode, 2)} + {Request(mode, 1)}, 1, 3, Others(mode));
    FifthSendsOne(mode, BOTH + {Request(mode, 2)} + {Request(mode, 1)} + {Others(mode)}, 0, 3, Request(mode, 3));
  }

  // ---- the copies ----

  /** A follower that has flushed the log `es` of leader `w`. */
  function Took(w: LeaderId, es: Log): Node {
    Plain(Vote(w, true), es, LastId(es), [], Disk(Vote(w, true), es))
  }

  lemma DrainCopy(mode: Mode, id: NodeId, v: Vote, es: Log, msgs: set<Msg>)
    requires |es| > 0
    ensures var n := Plain(V1, es, LastId(es), Copies(id, W, es), Disk(v, []));
            Ex.Drained(n) == Took(W, es)
            && Ex.DrainedOn(Led(mode, msgs), n.queue)
               == Led(mode, msgs + {Ack(id, W, LogId(es[|es| - 1], |es| - 1))})
  {
    var n := Plain(V1, es, LastId(es), Copies(id, W, es), Disk(v, []));
    DrainEntries(n, Led(mode, msgs), V1, es, Ack(id, W, LogId(es[|es| - 1], |es| - 1)));
    assert [] + es == es;
  }

  function Acks1(mode: Mode): set<Msg> {
    Sent(mode) + {Ack(1, W, Id(mode, 1))}
  }

  function Acks2(mode: Mode): set<Msg> {
    Acks1(mode) + {Ack(2, W, Id(mode, 0))}
  }

  function Acks3(mode: Mode): set<Msg> {
    Acks2(mode) + {Ack(2, W, Id(mode, 3))}
  }

  function Acks4(mode: Mode): set<Msg> {
    Acks3(mode) + {Ack(3, W, Id(mode, 2))}
  }

  lemma FirstCopies(mode: Mode)
    ensures var f := New(mode);
            Attained(Five(mode), RULE, Start(mode),
                     Of(Took(W, Ts(mode, 2)), Gave(), f, f, Leader5(mode), Led(mode, Acks1(mode))), Tracker0(mode))
  {
    hide Attained, NewTracker, Written, HandleAppendReq;
    var cfg, t0, f, e := Five(mode), Start(mode), New(mode), Leader5(mode);
    var es, h := Ts(mode, 2), Led(mode, Sent(mode));
    var a := Plain(V1, es, LastId(es), Copies(1, W, es), Disk(V0, []));
    FifthSends(mode);
    CopyIs(cfg, 1, V0, W, es);
    var s := Of(Gave(), Gave(), f, f, e, h);
    HearsAppend(cfg, RULE, t0, s, Tracker0(mode), 1, Request(mode, 2), a);
    Puts1(Gave(), Gave(), f, f, e, h, a);
    DrainsAll(cfg, RULE, t0, Of(a, Gave(), f, f, e, h), Tracker0(mode), 1);
    DrainCopy(mode, 1, V0, es, Sent(mode));
    Puts1(a, Gave(), f, f, e, h, Took(W, es));
  }

  lemma SecondCopies(mode: Mode)
    ensures var f := New(mode);
            Attained(Five(mode), RULE, Start(mode),
                     Of(Took(W, Ts(mode, 2)), Took(W, Ts(mode, 1)), f, f, Leader5(mode),
                        Led(mode, Acks2(mode))), Tracker0(mode))
  {
    hide Attained, NewTracker, Written, HandleAppendReq;
    var cfg, t0, f, e := Five(mode), Start(mode), New(mode), Leader5(mode);
    var es, h, a := Ts(mode, 1), Led(mode, Acks1(mode)), Took(W, Ts(mode, 2));
    var b := Plain(V1, es, LastId(es), Copies(2, W, es), Disk(V0, []));
    FirstCopies(mode);
    CopyIs(cfg, 2, V0, W, es);
    var s := Of(a, Gave(), f, f, e, h);
    HearsAppend(cfg, RULE, t0, s, Tracker0(mode), 2, Request(mode, 1), b);
    Puts2(a, Gave(), f, f, e, h, b);
    DrainsAll(cfg, RULE, t0, Of(a, b, f, f, e, h), Tracker0(mode), 2);
    DrainCopy(mode, 2, V0, es, Acks1(mode));
    Puts2(a, b, f, f, e, h, Took(W, es));
  }

  function More(mode: Mode): Node {
    Plain(V1, Ts(mode, 4), Some(Id(mode, 3)), [AppendEntries(Ts(mode, 3)), Send(Ack(2, W, Id(mode, 3)))],
          Disk(V1, Ts(mode, 1)))
  }

  lemma MoreIs(mode: Mode)
    ensures HandleAppendReq(Five(mode), 2, Took(W, Ts(mode, 1)), 5, W, Some(Id(mode, 0)), Ts(mode, 3), None)
            == More(mode)
  {
    var n := Took(W, Ts(mode, 1));
    var es := Ts(mode, 3);
    assert UpdateVote(Five(mode), 2, n, V1) == (true, n);
    assert HasLogId(n, Id(mode, 0)) && !HasLogId(n, LogId(es[0], 1));
    assert FirstConflict(n, 1, es) == 0 && es[0..] == es;
    assert Ts(mode, 1) + es == Ts(mode, 4);
  }

  lemma DrainMore(mode: Mode)
    ensures Ex.Drained(More(mode)) == Took(W, Ts(mode, 4))
    ensures Ex.DrainedOn(Led(mode, Acks2(mode)), More(mode).queue) == Led(mode, Acks3(mode))
  {
    hide RanHistory;
    var n, h := More(mode), Led(mode, Acks2(mode));
    var n1 := Ran(n);
    var q := n.queue;
    assert Ts(mode, 1) + Ts(mode, 3) == Ts(mode, 4);
    assert n1.queue == q[1..] && Ran(n1).queue == [] && q[1..][1..] == [];
    assert Ex.Drained(n) == Ex.Drained(n1) == Ex.Drained(Ran(n1)) == Ran(n1);
    assert Ex.DrainedOn(h, q) == Ex.DrainedOn(RanHistory(h, q[0]), q[1..]);
    assert Ex.DrainedOn(RanHistory(h, q[0]), q[1..]) == Ex.DrainedOn(RanHistory(RanHistory(h, q[0]), q[1]), []);
    RanIs(h, q[0], q[1]);
  }

  lemma RanIs(h: History, a: Command, b: Command)
    requires a.AppendEntries? && b.Send?
    ensures RanHistory(RanHistory(h, a), b) == h.(msgs := h.msgs + {b.msg})
  {
  }

  lemma SecondCopiesMore(mode: Mode)
    ensures var f := New(mode);
            Attained(Five(mode), RULE, Start(mode),
                     Of(Took(W, Ts(mode, 2)), Took(W, Ts(mode, 4)), f, f, Leader5(mode),
                        Led(mode, Acks3(mode))), Tracker0(mode))
  {
    hide Attained, NewTracker, Written, HandleAppendReq;
    var cfg, t0, f, e := Five(mode), Start(mode), New(mode), Leader5(mode);
    var h, a, b := Led(mode, Acks2(mode)), Took(W, Ts(mode, 2)), Took(W, Ts(mode, 1));
    SecondCopies(mode);
    MoreIs(mode);
    var s := Of(a, b, f, f, e, h);
    HearsAppend(cfg, RULE, t0, s, Tracker0(mode), 2, Others(mode), More(mode));
    Puts2(a, b, f, f, e, h, More(mode));
    DrainsAll(cfg, RULE, t0, Of(a, More(mode), f, f, e, h), Tracker0(mode), 2);
    DrainMore(mode);
    Puts2(a, More(mode), f, f, e, h, Took(W, Ts(mode, 4)));
  }

  lemma ThirdCopies(mode: Mode)
    ensures var f := New(mode);
            Attained(Five(mode), RULE, Start(mode),
                     Of(Took(W, Ts(mode, 2)), Took(W, Ts(mode, 4)), Took(W, Ts(mode, 3)), f, Leader5(mode),
                        Led(mode, Acks4(mode))),
                     Tracker0(mode))
  {
    hide Attained, NewTracker, Written, HandleAppendReq;
    var cfg, t0, f, e := Five(mode), Start(mode), New(mode), Leader5(mode);
    var es, h, a, b := Ts(mode, 3), Led(mode, Acks3(mode)), Took(W, Ts(mode, 2)), Took(W, Ts(mode, 4));
    var c := Plain(V1, es, LastId(es), Copies(3, W, es), Disk(DefaultVote(mode), []));
    SecondCopiesMore(mode);
    CopyIs(cfg, 3, DefaultVote(mode), W, es);
    var s := Of(a, b, f, f, e, h);
    HearsAppend(cfg, RULE, t0, s, Tracker0(mode), 3, Request(mode, 3), c);
    Puts3(a, b, f, f, e, h, c);
    DrainsAll(cfg, RULE, t0, Of(a, b, c, f, e, h), Tracker0(mode), 3);
    DrainCopy(mode, 3, DefaultVote(mode), es, Acks3(mode));
    Puts3(a, b, c, f, e, h, Took(W, es));
  }

  // ---- the trackers ----

  /** The tracker has taken in `front` and grants nothing. */
  ghost predicate HeardFrom(p: Tracker, front: seq<Progress.Entry>) {
    ProgressExact.Fronted(p, -1, front) && ProgressRuns.VotersAre(p, [ALL], ALL)
  }

  lemma NewTook(mode: Mode)
    ensures HeardFrom(NewTracker(Five(mode), RULE), [])
  {
    var ids := RULE.voters;
    assert ids + RULE.learners == ids;
    assert ids[0] == 1 && ids[1] == 2 && ids[2] == 3 && ids[3] == 4 && ids[4] == 5;
    assert SetOf(ids) == ALL;
    ProgressExact.NewFronted([ALL], ids, [], -1);
    ProgressRuns.NewVoters([ALL], ids, [], -1);
  }

  /** A leader hears from a voter it has not heard from: the voter goes behind those it has heard from. */
  lemma HearsNew(mode: Mode, s: Cluster, id: NodeId, p: Tracker, front: seq<Progress.Entry>, m: Msg)
    returns (p': Tracker)
    requires Attained(Five(mode), RULE, Start(mode), s, map[id := p]) && HeardFrom(p, front)
    requires id in s.nodes && m in s.h.msgs && s.nodes[id].leader.Some?
    requires m.AppendResp? && m.dst == id && IsAck(m, m.src, s.nodes[id].leader.value.leader) && m.src in ALL
    requires m.src !in Progress.Ids(front, |front|)
    requires |front| > 0 ==> front[|front| - 1].value >= m.res.last.value.index
    ensures var i := m.res.last.value.index;
            p'.granted == if IsQuorum([ALL], Progress.Ids(front, |front|) + {m.src}) then i else -1
    ensures Attained(Five(mode), RULE, Start(mode), With(s, id, Granted(Five(mode), s.nodes[id], p'.granted)),
                     map[id := p'])
    ensures p'.granted == -1 ==> HeardFrom(p', front + [Progress.Entry(m.src, m.res.last.value.index)])
  {
    hide Attained, IsQuorum, Granted, Progress.IncreaseTo;
    var i := m.res.last.value.index;
    ProgressExact.PushFront(p, -1, front, m.src, i);
    ProgressExact.IdsPush(front, Progress.Entry(m.src, i));
    ProgressRuns.VotersStay(p, [ALL], ALL, ProgressRuns.Op(m.src, i));
    Hears(Five(mode), RULE, Start(mode), s, id, p, m);
    p' := Raise(RULE, p, HeardOp(m));
  }

  // ---- the commit ----

  function Copied(mode: Mode, e: Node, msgs: set<Msg>): Cluster {
    Of(Took(W, Ts(mode, 2)), Took(W, Ts(mode, 4)), Took(W, Ts(mode, 3)), New(mode), e, Led(mode, msgs))
  }

  function Committing5(mode: Mode): Node {
    Leads5(mode, Ts(mode, 4), Some(Id(mode, 2)), Written(mode) + [SaveCommitted(Id(mode, 2))])
  }

  lemma GrantedIs(mode: Mode)
    ensures Granted(Five(mode), Leader5(mode), 2) == Committing5(mode)
    ensures Granted(Five(mode), Leader5(mode), -1) == Leader5(mode)
  {
  }

  lemma AcksAre(mode: Mode)
    ensures Ack(1, W, Id(mode, 1)) in Acks4(mode) && Ack(2, W, Id(mode, 0)) in Acks4(mode)
    ensures Ack(2, W, Id(mode, 3)) in Acks4(mode) && Ack(3, W, Id(mode, 2)) in Acks4(mode)
  {
  }

  lemma CopiedIs(mode: Mode)
    ensures Attained(Five(mode), RULE, Start(mode), Copied(mode, Leader5(mode), Acks4(mode)),
                     map[5 := NewTracker(Five(mode), RULE)])
  {
    hide Attained, NewTracker, Written;
    ThirdCopies(mode);
  }

  lemma PutsSame(mode: Mode)
    ensures var s := Copied(mode, Leader5(mode), Acks4(mode));
            s.nodes[5] == Leader5(mode) && With(s, 5, Leader5(mode)) == s
            && With(s, 5, Committing5(mode)) == Copied(mode, Committing5(mode), Acks4(mode))
  {
    hide Took, Written, Acks4;
    var s := Copied(mode, Leader5(mode), Acks4(mode));
    var a, b, c, f := Took(W, Ts(mode, 2)), Took(W, Ts(mode, 4)), Took(W, Ts(mode, 3)), New(mode);
    Puts5(a, b, c, f, Leader5(mode), s.h, Leader5(mode));
    Puts5(a, b, c, f, Leader5(mode), s.h, Committing5(mode));
  }

  /** Node 1 acknowledges index 1 and node 2 index 0, and then 3, which leaves it behind node 1. */
  lemma FifthHears(mode: Mode) returns (p: Tracker)
    ensures Attained(Five(mode), RULE, Start(mode), Copied(mode, Leader5(mode), Acks4(mode)), map[5 := p])
    ensures HeardFrom(p, [Progress.Entry(1, 1), Progress.Entry(2, 3)])
  {
    hide Attained, Granted, HeardFrom, Copied, Acks4, IsQuorum, With, NewTracker, Leads5;
    var s := Copied(mode, Leader5(mode), Acks4(mode));
    CopiedIs(mode);
    NewTook(mode);
    AcksAre(mode);
    GrantedIs(mode);
    PutsSame(mode);
    Quorate();
    CopiedMsgs(mode);
    assert Progress.Ids([], 0) == {} && {} + {1 as NodeId} == {1} && {1 as NodeId} + {2} == {1, 2};
    var p1 := HearsNew(mode, s, 5, NewTracker(Five(mode), RULE), [], Ack(1, W, Id(mode, 1)));
    var e1, e2 := Progress.Entry(1, 1), Progress.Entry(2, 0);
    assert [] + [e1] == [e1];
    ProgressExact.IdsPush([], e1);
    var p2 := HearsNew(mode, s, 5, p1, [e1], Ack(2, W, Id(mode, 0)));
    assert [e1] + [e2] == [e1, e2];
    p := HearsMore(mode, s, p2, e1, e2, Ack(2, W, Id(mode, 3)));
  }

  lemma CopiedMsgs(mode: Mode)
    ensures var s := Copied(mode, Leader5(mode), Acks4(mode));
            5 in s.nodes && s.h.msgs == Acks4(mode) && Leader5(mode).leader == Some(Leader(W, Some(Id(mode, 3))))
  {
  }

  lemma HearsMore(mode: Mode, s: Cluster, p: Tracker, e1: Progress.Entry, e2: Progress.Entry, m: Msg)
    returns (p': Tracker)
    requires Attained(Five(mode), RULE, Start(mode), s, map[5 := p]) && HeardFrom(p, [e1, e2]) && 5 in s.nodes
    requires With(s, 5, s.nodes[5]) == s && m in s.h.msgs && s.nodes[5].leader.Some? && m.AppendResp? && m.dst == 5
    requires IsAck(m, m.src, s.nodes[5].leader.value.leader) && m.src == e2.id
    requires -1 < e2.value < m.res.last.value.index
    ensures Attained(Five(mode), RULE, Start(mode), s, map[5 := p'])
    ensures HeardFrom(p', [e1, Progress.Entry(e2.id, m.res.last.value.index)])
  {
    hide Attained, IsQuorum;
    var i := m.res.last.value.index;
    ProgressExact.RaiseFront(p, -1, [e1, e2], 1, i);
    ProgressRuns.VotersStay(p, [ALL], ALL, ProgressRuns.Op(m.src, i));
    Hears(Five(mode), RULE, Start(mode), s, 5, p, m);
    p' := Raise(RULE, p, HeardOp(m));
    assert [e1, e2][1 := Progress.Entry(e2.id, i)] == [e1, Progress.Entry(e2.id, i)];
  }

  /** Node 3 acknowledges index 2, which is granted, though only nodes 2 and 3 have it. */
  lemma FifthCommits(mode: Mode)
    ensures Attained(Five(mode), RULE, Start(mode), Copied(mode, Committing5(mode), Acks4(mode)), map[])
  {
    hide Attained, Granted, HeardFrom, Copied, Acks4, IsQuorum, With, Leads5;
    var s, e1, e2 := Copied(mode, Leader5(mode), Acks4(mode)), Progress.Entry(1, 1), Progress.Entry(2, 3);
    var p := FifthHears(mode);
    AcksAre(mode);
    GrantedIs(mode);
    PutsSame(mode);
    CopiedMsgs(mode);
    Quorate();
    ProgressExact.IdsPush([], e1);
    ProgressExact.IdsPush([e1], e2);
    assert [] + [e1] == [e1] && [e1] + [e2] == [e1, e2];
    assert Progress.Ids([], 0) == {} && {} + {1 as NodeId} + {2} == {1, 2} && {1 as NodeId, 2} + {3} == {1, 2, 3};
    var p' := HearsNew(mode, s, 5, p, [e1, e2], Ack(3, W, Id(mode, 2)));
    Forgets(Five(mode), RULE, Start(mode), Copied(mode, Committing5(mode), Acks4(mode)), map[5 := p']);
  }

  // ---- node 2 learns it, and node 5 crashes ----

  function Tell(mode: Mode): Msg {
    AppendReq(W, Some(Id(mode, 3)), [], Some(Id(mode, 2)))
  }

  function Told(mode: Mode): set<Msg> {
    Acks4(mode) + {Tell(mode)}
  }

  function Learned2(mode: Mode): Node {
    Node(V1, Ts(mode, 4), Some(Id(mode, 2)), Some(Id(mode, 3)), None, None,
         [Send(Ack(2, W, Id(mode, 3))), SaveCommitted(Id(mode, 2))], Disk(V1, Ts(mode, 4)))
  }

  lemma LearnIs(mode: Mode)
    ensures HandleAppendReq(Five(mode), 2, Took(W, Ts(mode, 4)), 5, W, Some(Id(mode, 3)), [], Some(Id(mode, 2)))
            == Learned2(mode)
  {
  }

  /** Node 5 leads again under its vote, with a new first entry, and nothing flushed but the vote. */
  function Back5(mode: Mode): Node {
    Leads5(mode, [T(mode)], None, [Send(AppendResp(5, 5, W, Success(None)))] + FirstWrite(mode))
  }

  lemma RestartIs(mode: Mode)
    ensures Restart(Five(mode), 5, Committing5(mode), false) == Back5(mode)
  {
    assert seq(1, _ => T(mode)) == [T(mode)] && [] + [T(mode)] == [T(mode)];
  }

  /** Node 2 knows index 2 to be committed; node 5, which committed it, leads under the same vote without it. */
  function Lost(mode: Mode, e: Node, msgs: set<Msg>): Cluster {
    Of(Took(W, Ts(mode, 2)), Learned2(mode), Took(W, Ts(mode, 3)), New(mode), e, Led(mode, msgs))
  }

  lemma FifthTells(mode: Mode)
    ensures Attained(Five(mode), RULE, Start(mode), Copied(mode, Committing5(mode), Told(mode)), map[])
  {
    hide Attained, Written, Took, Acks4;
    var s := Copied(mode, Committing5(mode), Acks4(mode));
    FifthCommits(mode);
    assert s.nodes[5] == Committing5(mode);
    Sends(Five(mode), RULE, Start(mode), s, map[], 5, 4, 0);
    assert Ts(mode, 4)[4..4] == [];
    assert ReplicateMsg(Committing5(mode), 4, 0) == Tell(mode);
    SaysOf(Took(W, Ts(mode, 2)), Took(W, Ts(mode, 4)), Took(W, Ts(mode, 3)), New(mode), Committing5(mode), mode,
           Acks4(mode), Tell(mode));
  }

  lemma FifthCrashes(mode: Mode)
    ensures Attained(Five(mode), RULE, Start(mode), Lost(mode, Back5(mode), Told(mode)), map[])
  {
    hide Attained, Written, Took, Acks4, HandleAppendReq, Restart, Leads5;
    var cfg, t0, s, h := Five(mode), Start(mode), Copied(mode, Committing5(mode), Told(mode)), Led(mode, Told(mode));
    var a, b, c, f, e := Took(W, Ts(mode, 2)), Took(W, Ts(mode, 4)), Took(W, Ts(mode, 3)), New(mode), Committing5(mode);
    FifthTells(mode);
    LearnIs(mode);
    RestartIs(mode);
    HearsAppend(cfg, RULE, t0, s, map[], 2, Tell(mode), Learned2(mode));
    Puts2(a, b, c, f, e, h, Learned2(mode));
    var s1 := Of(a, Learned2(mode), c, f, e, h);
    assert s1.nodes[5] == e;
    Does(cfg, RULE, t0, s1, map[], CrashStep(5, false));
    Puts5(a, Learned2(mode), c, f, e, h, Back5(mode));
  }

  /** Node 5 with its first entry flushed. */
  function Flushed5(mode: Mode): Node {
    Leading(mode, W, [T(mode)], None, [], Disk(V1, [T(mode)]))
  }

  function Restored(mode: Mode): set<Msg> {
    Told(mode) + {AppendResp(5, 5, W, Success(None))} + {Ack(5, W, Id(mode, 0))}
  }

  lemma FifthFlushes(mode: Mode)
    ensures Attained(Five(mode), RULE, Start(mode), Lost(mode, Flushed5(mode), Restored(mode)), map[])
  {
    hide Attained, Took, Told, Learned2;
    var cfg, t0, e, h := Five(mode), Start(mode), Back5(mode), Led(mode, Told(mode));
    var a, b, c, f := Took(W, Ts(mode, 2)), Learned2(mode), Took(W, Ts(mode, 3)), New(mode);
    FifthCrashes(mode);
    DrainsAll(cfg, RULE, t0, Lost(mode, e, Told(mode)), map[], 5);
    Ex.DrainedThree(e, h);
    assert [] + [T(mode)] == [T(mode)];
    assert Ex.DrainedOn(h, e.queue) == Led(mode, Restored(mode));
    Puts5(a, b, c, f, e, h, Flushed5(mode));
  }

  // ---- the second election ----

  const X0 := Vote(W2, false)
  const X1 := Vote(W2, true)

  /** While node 1 stands for election. */
  function Electing2(mode: Mode, msgs: set<Msg>, saved: set<LeaderId>): History {
    History(msgs, saved, map[W := None, W2 := Some(Id(mode, 1))], {W}, map[Genesis(Five(mode)) := [], T(mode) := []])
  }

  /** Node 5 grants its vote, with the end of its log. */
  function Grant5(mode: Mode): Msg {
    VoteResp(5, 1, W2, X0, Some(Id(mode, 0)), true)
  }

  function Gave5(mode: Mode): Node {
    Plain(X0, [T(mode)], None, [], Disk(X0, [T(mode)]))
  }

  lemma Grant5Is(mode: Mode)
    ensures HandleVoteReq(Five(mode), 5, Flushed5(mode), 1, W2, Some(Id(mode, 1)), false)
            == Plain(X0, [T(mode)], None, [SaveVote(X0), Send(Self(5, W2)), Send(Grant5(mode))], Disk(V1, [T(mode)]))
  {
  }

  function Asked2(mode: Mode): set<Msg> {
    Restored(mode) + {Self(1, W2)} + {VoteReq(W2, Some(Id(mode, 1)))}
  }

  function Fourth(mode: Mode): set<Msg> {
    Asked2(mode) + {Self(4, W2)} + {Grant(4, W2)}
  }

  function Fifth(mode: Mode): set<Msg> {
    Fourth(mode) + {Self(5, W2)} + {Grant5(mode)}
  }

  function Stands1(mode: Mode, granters: set<NodeId>): Node {
    Standing(W2, Ts(mode, 2), granters, [], Disk(X0, Ts(mode, 2)))
  }

  /** Nodes 2 and 3 take no part from here on. */
  function Rest(mode: Mode, a: Node, d: Node, e: Node, h: History): Cluster {
    Of(a, Learned2(mode), Took(W, Ts(mode, 3)), d, e, h)
  }

  lemma FirstAsks(mode: Mode)
    ensures Attained(Five(mode), RULE, Start(mode),
                     Rest(mode, Stands1(mode, {}), New(mode), Flushed5(mode),
                          Electing2(mode, Asked2(mode), {W, W2})),
                     map[])
  {
    hide Elect, Attained, Restored, Learned2;
    var cfg, t0, s, last := Five(mode), Start(mode), Lost(mode, Flushed5(mode), Restored(mode)), Some(Id(mode, 1));
    var a := Took(W, Ts(mode, 2));
    var a1 := Standing(W2, Ts(mode, 2), {}, Asks(1, W2, last), a.disk);
    FifthFlushes(mode);
    ElectIs(cfg, 1, a, W2);
    assert IsVoter(cfg, 1) by { assert 1 in cfg.configs[0]; }
    Does(cfg, RULE, t0, s, map[], ElectStep(1));
    Puts1(a, Learned2(mode), Took(W, Ts(mode, 3)), New(mode), Flushed5(mode), s.h, a1);
    var s1 := Rest(mode, a1, New(mode), Flushed5(mode), Electing2(mode, Restored(mode), {W}));
    AskIs(mode);
    assert s.nodes[1] == a && Next(cfg, s, ElectStep(1)) == s1;
    DrainsAll(cfg, RULE, t0, s1, map[], 1);
    DrainVote(a1, s1.h, X0, Self(1, W2), VoteReq(W2, last));
    Puts1(a1, Learned2(mode), Took(W, Ts(mode, 3)), New(mode), Flushed5(mode), s1.h, Stands1(mode, {}));
    assert {W} + {W2} == {W, W2};
    assert Ex.DrainedOn(s1.h, a1.queue) == Electing2(mode, Asked2(mode), {W, W2});
  }

  lemma AskIs(mode: Mode)
    ensures var h := Led(mode, Restored(mode));
            h.(asked := h.asked[W2 := Some(Id(mode, 1))]) == Electing2(mode, Restored(mode), {W})
  {
  }

  lemma FourthGrants(mode: Mode)
    ensures Attained(Five(mode), RULE, Start(mode),
                     Rest(mode, Stands1(mode, {}), Empty(X0), Flushed5(mode),
                          Electing2(mode, Fourth(mode), {W, W2})),
                     map[])
  {
    hide HandleVoteReq, Attained, Restored, Learned2;
    var cfg, t0, h, last := Five(mode), Start(mode), Electing2(mode, Asked2(mode), {W, W2}), Some(Id(mode, 1));
    var a, b, c, f, e := Stands1(mode, {}), Learned2(mode), Took(W, Ts(mode, 3)), New(mode), Flushed5(mode);
    var d := Plain(X0, [], None, Grants(4, W2), Disk(DefaultVote(mode), []));
    FirstAsks(mode);
    GrantIs(cfg, 4, DefaultVote(mode), W2, last);
    assert IsVoter(cfg, 4) by { assert 4 in cfg.configs[0]; }
    var s := Of(a, b, c, f, e, h);
    Does(cfg, RULE, t0, s, map[], VoteReqStep(4, VoteReq(W2, last), false));
    Puts4(a, b, c, f, e, h, d);
    DrainsAll(cfg, RULE, t0, Of(a, b, c, d, e, h), map[], 4);
    DrainVote(d, h, X0, Self(4, W2), Grant(4, W2));
    Puts4(a, b, c, d, e, h, Empty(X0));
    assert {W, W2} + {W2} == {W, W2};
    assert Ex.DrainedOn(h, d.queue) == Electing2(mode, Fourth(mode), {W, W2});
  }

  lemma FifthGrants(mode: Mode)
    ensures Attained(Five(mode), RULE, Start(mode),
                     Rest(mode, Stands1(mode, {}), Empty(X0), Gave5(mode),
                          Electing2(mode, Fifth(mode), {W, W2})),
                     map[])
  {
    hide HandleVoteReq, Attained, Restored, Learned2;
    var cfg, t0, h, last := Five(mode), Start(mode), Electing2(mode, Fourth(mode), {W, W2}), Some(Id(mode, 1));
    var a, b, c, d, e := Stands1(mode, {}), Learned2(mode), Took(W, Ts(mode, 3)), Empty(X0), Flushed5(mode);
    var e1 := Plain(X0, [T(mode)], None, [SaveVote(X0), Send(Self(5, W2)), Send(Grant5(mode))], Disk(V1, [T(mode)]));
    FourthGrants(mode);
    Grant5Is(mode);
    assert IsVoter(cfg, 5) by { assert 5 in cfg.configs[0]; }
    var s := Of(a, b, c, d, e, h);
    Does(cfg, RULE, t0, s, map[], VoteReqStep(5, VoteReq(W2, last), false));
    Puts5(a, b, c, d, e, h, e1);
    DrainsAll(cfg, RULE, t0, Of(a, b, c, d, e1, h), map[], 5);
    DrainVote(e1, h, X0, Self(5, W2), Grant5(mode));
    Puts5(a, b, c, d, e1, h, Gave5(mode));
    assert {W, W2} + {W2} == {W, W2};
    assert Ex.DrainedOn(h, e1.queue) == Electing2(mode, Fifth(mode), {W, W2});
  }

  lemma FirstCounts(mode: Mode)
    ensures Attained(Five(mode), RULE, Start(mode),
                     Rest(mode, Stands1(mode, {1, 4}), Empty(X0), Gave5(mode),
                          Electing2(mode, Fifth(mode), {W, W2})),
                     map[])
  {
    hide HandleVoteResp, WinsElection, Attained, Restored, Learned2, IsQuorum;
    var cfg, t0, h := Five(mode), Start(mode), Electing2(mode, Fifth(mode), {W, W2});
    var b, c, d, e := Learned2(mode), Took(W, Ts(mode, 3)), Empty(X0), Gave5(mode);
    FifthGrants(mode);
    Quorate();
    assert {} + {1 as NodeId} == {1} && {1 as NodeId} + {4} == {1, 4};
    CountIs(cfg, 1, W2, Ts(mode, 2), {}, Disk(X0, Ts(mode, 2)), 1);
    CountIs(cfg, 1, W2, Ts(mode, 2), {1}, Disk(X0, Ts(mode, 2)), 4);
    var s := Of(Stands1(mode, {}), b, c, d, e, h);
    HearsVote(cfg, RULE, t0, s, map[], 1, Self(1, W2), Stands1(mode, {1}));
    Puts1(Stands1(mode, {}), b, c, d, e, h, Stands1(mode, {1}));
    var s1 := Of(Stands1(mode, {1}), b, c, d, e, h);
    HearsVote(cfg, RULE, t0, s1, map[], 1, Grant(4, W2), Stands1(mode, {1, 4}));
    Puts1(Stands1(mode, {1}), b, c, d, e, h, Stands1(mode, {1, 4}));
  }

  /** While node 1 leads. */
  function Led2(mode: Mode, msgs: set<Msg>): History {
    History(msgs, {W, W2}, map[W := None, W2 := Some(Id(mode, 1))], {W, W2},
            map[Genesis(Five(mode)) := [], T(mode) := [], T2(mode) := Ts(mode, 2)])
  }

  function Log2(mode: Mode): Log {
    Ts(mode, 2) + [T2(mode)]
  }

  function Id2(mode: Mode): LogId {
    LogId(T2(mode), 2)
  }

  function Leads1(mode: Mode, queue: seq<Command>, disk: Store): Node {
    Leading(mode, W2, Log2(mode), None, queue, disk)
  }

  function Tracker1(mode: Mode): map<NodeId, Tracker> {
    map[1 := NewTracker(Five(mode), RULE)]
  }

  lemma EstablishedIs2(mode: Mode)
    ensures RaftElection.Establishes(Five(mode), Electing2(mode, Fifth(mode), {W, W2}), W2, Ts(mode, 2))
            == Led2(mode, Fifth(mode))
  {
    assert {W} + {W2} == {W, W2};
    assert T2(mode) != T(mode) && T2(mode) != Genesis(Five(mode));
  }

  lemma FirstLeads(mode: Mode)
    ensures Attained(Five(mode), RULE, Start(mode),
                     Rest(mode, Leads1(mode, FirstEntry(mode, 1, W2, Ts(mode, 2)), Disk(X0, Ts(mode, 2))), Empty(X0),
                          Gave5(mode),
                          Led2(mode, Fifth(mode))), Tracker1(mode))
  {
    hide HandleVoteResp, WinsElection, Attained, NewTracker, IsQuorum, FirstEntry, Genesis, Restored, Learned2;
    var cfg, t0, h := Five(mode), Start(mode), Electing2(mode, Fifth(mode), {W, W2});
    var a := Leads1(mode, FirstEntry(mode, 1, W2, Ts(mode, 2)), Disk(X0, Ts(mode, 2)));
    FirstCounts(mode);
    Quorate();
    assert {1 as NodeId, 4} + {5} == {1, 4, 5};
    WinIs(cfg, 1, W2, Ts(mode, 2), {1, 4}, Disk(X0, Ts(mode, 2)), 5);
    var s := Rest(mode, Stands1(mode, {1, 4}), Empty(X0), Gave5(mode), h);
    HearsLast(cfg, RULE, t0, s, map[], 1, Grant5(mode), a);
    EstablishedIs2(mode);
    Puts1(Stands1(mode, {1, 4}), Learned2(mode), Took(W, Ts(mode, 3)), Empty(X0), Gave5(mode), h, a);
  }

  // ---- the second commit ----

  function Flushed2(mode: Mode): set<Msg> {
    Fifth(mode) + {Ack(1, W2, Id2(mode))}
  }

  function Request2(mode: Mode): Msg {
    AppendReq(W2, None, Log2(mode), None)
  }

  function Sent2(mode: Mode): set<Msg> {
    Flushed2(mode) + {Request2(mode)}
  }

  function Leader1(mode: Mode): Node {
    Leads1(mode, [], Disk(X1, Log2(mode)))
  }

  lemma FirstFlushes(mode: Mode)
    ensures Attained(Five(mode), RULE, Start(mode),
                     Rest(mode, Leader1(mode), Empty(X0), Gave5(mode), Led2(mode, Sent2(mode))), Tracker1(mode))
  {
    hide Attained, NewTracker, Restored, Learned2, Fifth, Ts;
    var cfg, t0, h := Five(mode), Start(mode), Led2(mode, Fifth(mode));
    var a := Leads1(mode, FirstEntry(mode, 1, W2, Ts(mode, 2)), Disk(X0, Ts(mode, 2)));
    var b, c, d, e := Learned2(mode), Took(W, Ts(mode, 3)), Empty(X0), Gave5(mode);
    FirstLeads(mode);
    TwoTs(mode);
    var s := Of(a, b, c, d, e, h);
    DrainsAll(cfg, RULE, t0, s, Tracker1(mode), 1);
    DrainEntries(a, h, X1, [T2(mode)], Ack(1, W2, Id2(mode)));
    assert {W, W2} + {W2} == {W, W2};
    Puts1(a, b, c, d, e, h, Leader1(mode));
    var s1 := Of(Leader1(mode), b, c, d, e, Led2(mode, Flushed2(mode)));
    assert s1.nodes[1] == Leader1(mode);
    Sends(cfg, RULE, t0, s1, Tracker1(mode), 1, 0, 3);
    assert Log2(mode)[0..3] == Log2(mode);
    assert ReplicateMsg(Leader1(mode), 0, 3) == Request2(mode);
  }

  lemma TwoTs(mode: Mode)
    ensures |Ts(mode, 2)| == 2
  {
  }

  lemma DrainCopy2(mode: Mode, id: NodeId, msgs: set<Msg>)
    ensures var n := Plain(X1, Log2(mode), LastId(Log2(mode)), Copies(id, W2, Log2(mode)), Disk(X0, []));
            Ex.Drained(n) == Took(W2, Log2(mode))
            && Ex.DrainedOn(Led2(mode, msgs), n.queue) == Led2(mode, msgs + {Ack(id, W2, Id2(mode))})
  {
    var es := Log2(mode);
    var n := Plain(X1, es, LastId(es), Copies(id, W2, es), Disk(X0, []));
    DrainEntries(n, Led2(mode, msgs), X1, es, Ack(id, W2, Id2(mode)));
    assert [] + es == es && {W, W2} + {W2} == {W, W2};
  }

  /** What node 5 lacks of the second leader's log. */
  function Rest5(mode: Mode): Log {
    [T(mode), T2(mode)]
  }

  function Copy5(mode: Mode): Node {
    Plain(X1, Log2(mode), LastId(Log2(mode)), [SaveVote(X1), AppendEntries(Rest5(mode)), Send(Ack(5, W2, Id2(mode)))],
          Disk(X0, [T(mode)]))
  }

  lemma Copy5Is(mode: Mode)
    ensures HandleAppendReq(Five(mode), 5, Gave5(mode), 1, W2, None, Log2(mode), None) == Copy5(mode)
  {
    var es := Log2(mode);
    var n1 := Push(Gave5(mode).(vote := X1), SaveVote(X1));
    assert UpdateVote(Five(mode), 5, Gave5(mode), X1) == (true, n1);
    assert es[0] == T(mode) && es[1..] == Rest5(mode) && es[1..][0] == T(mode);
    assert FirstConflict(n1, 1, es[1..]) == 0;
    assert FirstConflict(n1, 0, es) == 1;
    assert [T(mode)] + Rest5(mode) == es;
  }

  lemma DrainCopy5(mode: Mode, msgs: set<Msg>)
    ensures Ex.Drained(Copy5(mode)) == Took(W2, Log2(mode))
    ensures Ex.DrainedOn(Led2(mode, msgs), Copy5(mode).queue) == Led2(mode, msgs + {Ack(5, W2, Id2(mode))})
  {
    DrainEntries(Copy5(mode), Led2(mode, msgs), X1, Rest5(mode), Ack(5, W2, Id2(mode)));
    assert [T(mode)] + Rest5(mode) == Log2(mode) && {W, W2} + {W2} == {W, W2};
  }

  function Both2(mode: Mode): set<Msg> {
    Sent2(mode) + {Ack(4, W2, Id2(mode))} + {Ack(5, W2, Id2(mode))}
  }

  lemma OthersCopy(mode: Mode)
    ensures Attained(Five(mode), RULE, Start(mode),
                     Rest(mode, Leader1(mode), Took(W2, Log2(mode)), Took(W2, Log2(mode)),
                          Led2(mode, Both2(mode))), Tracker1(mode))
  {
    hide Attained, NewTracker, Restored, Learned2, Fifth, HandleAppendReq, Copies, Copy5, Gave5;
    var cfg, t0, es := Five(mode), Start(mode), Log2(mode);
    var a, b, c, d, d2, e := Leader1(mode), Learned2(mode), Took(W, Ts(mode, 3)), Empty(X0), Took(W2, es), Gave5(mode);
    var h, h1 := Led2(mode, Sent2(mode)), Led2(mode, Sent2(mode) + {Ack(4, W2, Id2(mode))});
    var d1, e1 := Plain(X1, es, LastId(es), Copies(4, W2, es), Disk(X0, [])), Copy5(mode);
    FirstFlushes(mode);
    CopyIs(cfg, 4, X0, W2, es);
    Copy5Is(mode);
    HearsAppend(cfg, RULE, t0, Of(a, b, c, d, e, h), Tracker1(mode), 4, Request2(mode), d1);
    Puts4(a, b, c, d, e, h, d1);
    DrainsAll(cfg, RULE, t0, Of(a, b, c, d1, e, h), Tracker1(mode), 4);
    DrainCopy2(mode, 4, Sent2(mode));
    Puts4(a, b, c, d1, e, h, d2);
    HearsAppend(cfg, RULE, t0, Of(a, b, c, d2, e, h1), Tracker1(mode), 5, Request2(mode), e1);
    Puts5(a, b, c, d2, e, h1, e1);
    DrainsAll(cfg, RULE, t0, Of(a, b, c, d2, e1, h1), Tracker1(mode), 5);
    DrainCopy5(mode, Sent2(mode) + {Ack(4, W2, Id2(mode))});
    Puts5(a, b, c, d2, e1, h1, d2);
  }

  // ---- the second commit is granted ----

  function All2(mode: Mode, a: Node): Cluster {
    Rest(mode, a, Took(W2, Log2(mode)), Took(W2, Log2(mode)), Led2(mode, Both2(mode)))
  }

  function Committed1(mode: Mode): Node {
    Leader1(mode).(committed := Some(Id2(mode)), queue := [SaveCommitted(Id2(mode))])
  }

  lemma GrantedIs2(mode: Mode)
    ensures Granted(Five(mode), Leader1(mode), 2) == Committed1(mode)
    ensures Granted(Five(mode), Leader1(mode), -1) == Leader1(mode)
  {
  }

  lemma Acks2Are(mode: Mode)
    ensures var s := All2(mode, Leader1(mode));
            1 in s.nodes && s.h.msgs == Both2(mode) && Leader1(mode).leader == Some(Leader(W2, Some(Id2(mode))))
    ensures Ack(1, W2, Id2(mode)) in Both2(mode) && Ack(4, W2, Id2(mode)) in Both2(mode)
    ensures Ack(5, W2, Id2(mode)) in Both2(mode)
  {
    TwoTs(mode);
  }

  lemma PutsSame2(mode: Mode)
    ensures var s := All2(mode, Leader1(mode));
            s.nodes[1] == Leader1(mode) && With(s, 1, Leader1(mode)) == s
            && With(s, 1, Committed1(mode)) == All2(mode, Committed1(mode))
  {
    hide Took, Both2, Learned2, Leads1;
    var s, b, c, d := All2(mode, Leader1(mode)), Learned2(mode), Took(W, Ts(mode, 3)), Took(W2, Log2(mode));
    Puts1(Leader1(mode), b, c, d, d, s.h, Leader1(mode));
    Puts1(Leader1(mode), b, c, d, d, s.h, Committed1(mode));
  }

  lemma Copied2Is(mode: Mode)
    ensures Attained(Five(mode), RULE, Start(mode), All2(mode, Leader1(mode)), map[1 := NewTracker(Five(mode), RULE)])
  {
    hide Attained, NewTracker, Learned2, Took;
    OthersCopy(mode);
  }

  lemma FirstCommits(mode: Mode)
    ensures exists p :: Attained(Five(mode), RULE, Start(mode), All2(mode, Committed1(mode)), map[1 := p])
  {
    hide Attained, Granted, HeardFrom, All2, Both2, IsQuorum, With, NewTracker, Leader1;
    var s, e1, e2 := All2(mode, Leader1(mode)), Progress.Entry(1, 2), Progress.Entry(4, 2);
    Copied2Is(mode);
    NewTook(mode);
    GrantedIs2(mode);
    Acks2Are(mode);
    PutsSame2(mode);
    Quorate();
    ProgressExact.IdsPush([], e1);
    ProgressExact.IdsPush([e1], e2);
    assert [] + [e1] == [e1] && [e1] + [e2] == [e1, e2];
    assert Progress.Ids([], 0) == {} && {} + {1 as NodeId} == {1} && {1 as NodeId} + {4} == {1, 4};
    assert {1 as NodeId, 4} + {5} == {1, 4, 5};
    var p1 := HearsNew(mode, s, 1, NewTracker(Five(mode), RULE), [], Ack(1, W2, Id2(mode)));
    var p2 := HearsNew(mode, s, 1, p1, [e1], Ack(4, W2, Id2(mode)));
    var p3 := HearsNew(mode, s, 1, p2, [e1, e2], Ack(5, W2, Id2(mode)));
  }

  /** The protocol's guarantees do not hold of what five voters' trackers commit: a state is reachable, in both
      leader-id modes, in which node 1 and node 2 know index 2 to be committed with different log ids. */
  lemma TrackersBreakSafety(mode: Mode) returns (t0: Tracked, xs: seq<TrackedStep>, t: Tracked)
    ensures Starting(Five(mode), t0) && RuleOk(Five(mode), RULE)
    ensures CanTakeAll(Five(mode), RULE, t0, xs) && t == TakeAll(Five(mode), RULE, t0, xs)
    ensures 1 in t.s.nodes && 2 in t.s.nodes
    ensures var st, st' := Known(t.s.nodes[1], false), Known(t.s.nodes[2], false);
            2 < NextIndex(st.committed) && 2 < NextIndex(st'.committed)
            && 2 < |st.log| && 2 < |st'.log| && st.log[2] != st'.log[2]
  {
    hide CanTakeAll, TakeAll, Starting, RuleOk, Both2, Took;
    t0 := Start(mode);
    StartAttained(mode);
    FirstCommits(mode);
    var p :| Attained(Five(mode), RULE, Start(mode), All2(mode, Committed1(mode)), map[1 := p]);
    xs :| CanTakeAll(Five(mode), RULE, t0, xs)
          && Shows(TakeAll(Five(mode), RULE, t0, xs), All2(mode, Committed1(mode)), map[1 := p]);
    t := TakeAll(Five(mode), RULE, t0, xs);
    assert t.s.nodes[1] == Committed1(mode) && t.s.nodes[2] == Learned2(mode);
    assert T(mode) != T2(mode);
  }
}
