/** Two payloads committed at one index: the leader of the example run, which restarted without an entry that the
    others committed, writes another entry under the same log id and replicates it; the others find that they have the
    id, acknowledge it anew, and the second entry is committed. */
module RaftPayloadExample {
  import opened Basics
  import opened Votes
  import opened RaftNode
  import opened RaftCluster
  import opened RaftInvariant
  import opened RaftStorage
  import opened RaftTheorems
  import opened RaftPushes
  import opened RaftQueues
  import opened RaftPayload
  import opened RaftPayloadSafety
  import opened RaftPayloadCrash
  import opened RaftExample

  // ---- one act after another ----

  ghost predicate Attains(cfg: Config, f0: Full, f: Full) {
    exists acts :: CanAll(cfg, f0, acts) && f == ThenAll(cfg, f0, acts)
  }

  lemma {:induction false} CanOneMore(cfg: Config, f: Full, acts: seq<Act>, a: Act)
    requires CanAll(cfg, f, acts) && Can(cfg, ThenAll(cfg, f, acts), a)
    ensures CanAll(cfg, f, acts + [a]) && ThenAll(cfg, f, acts + [a]) == Then(cfg, ThenAll(cfg, f, acts), a)
    decreases |acts|
  {
    hide Can, Then;
    if |acts| == 0 {
      assert [] + [a] == [a] && [a][1..] == [];
      assert CanAll(cfg, Then(cfg, f, a), []) && ThenAll(cfg, Then(cfg, f, a), []) == Then(cfg, f, a);
    } else {
      assert (acts + [a])[1..] == acts[1..] + [a];
      CanOneMore(cfg, Then(cfg, f, acts[0]), acts[1..], a);
    }
  }

  lemma Acts(cfg: Config, f0: Full, f: Full, a: Act)
    requires Attains(cfg, f0, f) && Can(cfg, f, a)
    ensures Attains(cfg, f0, Then(cfg, f, a))
  {
    hide Can, Then, CanAll, ThenAll;
    var acts :| CanAll(cfg, f0, acts) && f == ThenAll(cfg, f0, acts);
    CanOneMore(cfg, f0, acts, a);
  }

  lemma {:induction false} SoundRun(cfg: Config, f: Full, acts: seq<Act>)
    requires Sound(cfg, f) && CanAll(cfg, f, acts)
    ensures Sound(cfg, ThenAll(cfg, f, acts))
    decreases |acts|
  {
    hide Sound, Can, Then;
    if |acts| > 0 {
      SoundNext(cfg, f, acts[0]);
      SoundRun(cfg, Then(cfg, f, acts[0]), acts[1..]);
    }
  }

  // ---- up to the crash ----

  function Committed2(mode: Mode): Node {
    Followed(mode, Id(mode, 1), [Send(Ack(mode, 2, 1)), SaveCommitted(Id(mode, 1).value)],
             Disk(V1, [T(mode), T(mode)]))
  }

  /** Node 2 knows two entries to be committed that node 1, their leader, has not flushed. */
  function Learned(mode: Mode): Cluster {
    Of(Committing(mode), Committed2(mode), Followed(mode, None, [], Disk(V1, [T(mode), T(mode)])),
       L(mode, Acked3(mode) + {Commit(mode)}))
  }

  ghost function StartFull(mode: Mode): Full {
    var s := Start(mode);
    Full(s, map id | id in s.nodes :: [if s.nodes[id].log == [] then [] else [Blank]], {},
         map[LogId(Genesis(Three(mode)), 0) := Blank])
  }

  lemma LearnedReachable(mode: Mode)
    ensures Reachable(Three(mode), Start(mode), Learned(mode))
  {
    hide Reachable;
    SecondLearns(mode);
  }

  lemma StartBegins(mode: Mode)
    ensures Begins(Three(mode), StartFull(mode), Blank)
  {
  }

  lemma LearnedWithPayloads(mode: Mode) returns (f: Full)
    ensures Begins(Three(mode), StartFull(mode), Blank) && Attains(Three(mode), StartFull(mode), f)
    ensures f.s == Learned(mode) && Sound(Three(mode), f)
  {
    hide Sound, CanAll, ThenAll, IsRun, After, Learned, Init;
    var cfg, f0 := Three(mode), StartFull(mode);
    LearnedReachable(mode);
    var steps :| Reaches(cfg, Start(mode), steps, Learned(mode));
    StartBegins(mode);
    SoundBegins(cfg, f0, Blank);
    var acts := RunHasPayloads(cfg, f0, steps);
    Projects(cfg, f0, acts);
    SoundRun(cfg, f0, acts);
    f := ThenAll(cfg, f0, acts);
  }

  // ---- the crash, the write and the commit ----

  function Queue1(mode: Mode): seq<Command> {
    [Send(AppendResp(1, 1, W, Success(None)))] + FirstWrite(mode)
  }

  function Restarted(mode: Mode): Node {
    Leading(mode, 1, None, Queue1(mode), Disk(V1, []))
  }

  function Rewritten(mode: Mode): Node {
    Leading(mode, 2, None, Queue1(mode) + [AppendEntries([T(mode)]), Send(Ack(mode, 1, 1))], Disk(V1, []))
  }

  lemma RewriteIs(mode: Mode)
    ensures LeaderAppend(Three(mode), 1, Restarted(mode), Restarted(mode).leader.value, 1) == Rewritten(mode)
  {
    assert seq(1, _ => T(mode)) == [T(mode)] && seq(2, _ => T(mode)) == [T(mode), T(mode)];
    assert [T(mode)] + [T(mode)] == [T(mode), T(mode)];
  }

  lemma RecommitIs(mode: Mode)
    ensures LeaderCommit(Three(mode), Rewritten(mode), 1)
            == Rewritten(mode).(committed := Id(mode, 1),
                                queue := Rewritten(mode).queue + [SaveCommitted(Id(mode, 1).value)])
  {
  }

  lemma SoundShaped(cfg: Config, f: Full)
    requires Sound(cfg, f)
    ensures Shaped(f)
  {
  }

  // ---- steps that leave every payload in memory ----

  /** Commands that do not touch the log leave the payloads. */
  lemma {:induction false} CarryKeeps(ds: seq<Data>, queue: seq<Command>, given: Data)
    requires 0 < |ds| <= |queue| + 1
    requires forall q :: |ds| - 1 <= q < |queue| ==> queue[q].Send? || queue[q].SaveCommitted?
    ensures |Carry(ds, queue, given)| == |queue| + 1 && Carry(ds, queue, given)[|queue|] == ds[|ds| - 1]
    decreases |queue| + 1 - |ds|
  {
    if |ds| <= |queue| {
      CarryKeeps(ds + [Put(ds[|ds| - 1], queue[|ds| - 1], given)], queue, given);
    }
  }

  /** The step writes no entry: it runs a command, sends entries, or queues nothing but messages and commits. */
  ghost predicate Quiet(cfg: Config, s: Cluster, step: Step)
    requires Enabled(cfg, s, step)
  {
    step.RunStep? || step.ReplicateStep?
    || ((step.AppendReqStep? || step.CommitStep?)
        && var n, queue := s.nodes[step.id], Stepped(cfg, s, step).queue;
           n.queue <= queue && forall q :: |n.queue| <= q < |queue| ==> queue[q].Send? || queue[q].SaveCommitted?)
  }

  lemma QuietSelf(cfg: Config, f: Full, a: Act)
    requires Sound(cfg, f) && Can(cfg, f, a) && Quiet(cfg, f.s, a.step) && Shaped(Then(cfg, f, a))
    ensures var f', id := Then(cfg, f, a), a.step.id;
            id in f'.s.nodes && PayloadsOf(f', id, false) == PayloadsOf(f, id, false)
  {
    hide Sound, Carry, StoreAt, HandleAppendReq, LeaderCommit, Publish;
    var n, ds := f.s.nodes[a.step.id], f.data[a.step.id];
    assert Shape(n, ds);
    if a.step.AppendReqStep? || a.step.CommitStep? {
      CarryKeeps(ds, Stepped(cfg, f.s, a.step).queue, a.given);
    }
  }

  /** Every payload in memory is as it was. */
  ghost predicate SameData(f: Full, f': Full) {
    Shaped(f) && Shaped(f') && f.sent <= f'.sent
    && forall id :: id in f.s.nodes ==> id in f'.s.nodes && PayloadsOf(f', id, false) == PayloadsOf(f, id, false)
  }

  lemma QuietStep(cfg: Config, f0: Full, f: Full, a: Act)
    requires Attains(cfg, f0, f) && Sound(cfg, f) && Can(cfg, f, a) && Quiet(cfg, f.s, a.step)
    ensures var f' := Then(cfg, f, a);
            Attains(cfg, f0, f') && Sound(cfg, f') && f'.s == Next(cfg, f.s, a.step) && SameData(f, f')
  {
    hide Sound, Attains, Shape, Quiet, SameData, Enabled, Next, DataOf, SentOf, FirstOf;
    SoundNext(cfg, f, a);
    SoundShaped(cfg, Then(cfg, f, a));
    Acts(cfg, f0, f, a);
    QuietSame(cfg, f, a);
  }

  lemma QuietSame(cfg: Config, f: Full, a: Act)
    requires Sound(cfg, f) && Can(cfg, f, a) && Quiet(cfg, f.s, a.step) && Shaped(Then(cfg, f, a))
    ensures SameData(f, Then(cfg, f, a))
  {
    hide Sound, DataOf, FirstOf, Next, Quiet, Shape, PayloadsOf, Enabled;
    var f' := Then(cfg, f, a);
    OthersStay(cfg, f.s, a.step);
    QuietSelf(cfg, f, a);
    forall id | id in f.s.nodes
      ensures id in f'.s.nodes && PayloadsOf(f', id, false) == PayloadsOf(f, id, false)
    {
      if id != a.step.id {
        SamePayloads(f, f', id);
      }
    }
    SentStays(cfg, f, a);
  }

  lemma SentStays(cfg: Config, f: Full, a: Act)
    requires Can(cfg, f, a)
    ensures f.sent <= Then(cfg, f, a).sent
  {
    hide DataOf, FirstOf, Next, Enabled;
  }

  lemma RunIsQuiet(cfg: Config, f: Full, id: NodeId)
    requires Sound(cfg, f) && id in f.s.nodes && |f.s.nodes[id].queue| > 0
    ensures var a, n := Act(RunStep(id), [Blank]), f.s.nodes[id];
            Can(cfg, f, a) && Quiet(cfg, f.s, a.step)
            && Next(cfg, f.s, a.step) == With(f.s, id, Ran(n)).(h := RanHistory(f.s.h, n.queue[0]))
  {
    hide Sound, Next, Shape, Enabled, Quiet, RanHistory;
    SoundShaped(cfg, f);
    RunCan(cfg, f.s, id);
    RunNext(cfg, f.s, id);
  }

  lemma RunCan(cfg: Config, s: Cluster, id: NodeId)
    requires id in s.nodes && |s.nodes[id].queue| > 0
    ensures Enabled(cfg, s, RunStep(id)) && Quiet(cfg, s, RunStep(id))
  {
  }

  /** A node runs all that it has queued. */
  lemma {:induction false} QuietDrain(cfg: Config, f0: Full, f: Full, id: NodeId) returns (f': Full)
    requires Attains(cfg, f0, f) && Sound(cfg, f) && id in f.s.nodes
    ensures Attains(cfg, f0, f') && Sound(cfg, f') && SameData(f, f')
    ensures f'.s == With(f.s, id, Drained(f.s.nodes[id])).(h := DrainedOn(f.s.h, f.s.nodes[id].queue))
    decreases |f.s.nodes[id].queue|
  {
    hide Sound, Attains, Next, Then, RanHistory, Can, Quiet, SameData;
    var n := f.s.nodes[id];
    if |n.queue| == 0 {
      f' := f;
      assert With(f.s, id, n).(h := f.s.h) == f.s by { assert f.s.nodes[id := n] == f.s.nodes; }
      SameItself(cfg, f);
    } else {
      var a := Act(RunStep(id), [Blank]);
      RunIsQuiet(cfg, f, id);
      QuietStep(cfg, f0, f, a);
      var f1 := Then(cfg, f, a);
      f' := QuietDrain(cfg, f0, f1, id);
      SameTwice(f, f1, f');
      assert f.s.nodes[id := Ran(n)][id := Drained(Ran(n))] == f.s.nodes[id := Drained(n)];
    }
  }

  lemma SameItself(cfg: Config, f: Full)
    requires Sound(cfg, f)
    ensures SameData(f, f)
  {
  }

  lemma SameTwice(f: Full, f1: Full, f2: Full)
    requires SameData(f, f1) && SameData(f1, f2)
    ensures SameData(f, f2)
  {
  }

  // ---- the steps, without payloads ----

  lemma CrashNext(mode: Mode)
    ensures Enabled(Three(mode), Learned(mode), CrashStep(1, false))
    ensures Next(Three(mode), Learned(mode), CrashStep(1, false)) == With(Learned(mode), 1, Restarted(mode))
  {
    hide Restart, L, Committed2;
    RestartIs(mode);
  }

  lemma RewriteNext(mode: Mode)
    ensures var s := With(Learned(mode), 1, Restarted(mode));
            Enabled(Three(mode), s, WriteStep(1, 1))
            && Next(Three(mode), s, WriteStep(1, 1)) == With(Learned(mode), 1, Rewritten(mode))
  {
    hide LeaderAppend, Committed2;
    RewriteIs(mode);
    var s := With(Learned(mode), 1, Restarted(mode));
    assert s.nodes[1] == Restarted(mode);
    assert s.nodes[1 := Rewritten(mode)] == Learned(mode).nodes[1 := Rewritten(mode)];
  }

  function Recommitted(mode: Mode): Node {
    Rewritten(mode).(committed := Id(mode, 1), queue := Rewritten(mode).queue + [SaveCommitted(Id(mode, 1).value)])
  }

  function H3(mode: Mode): History {
    L(mode, Acked3(mode) + {Commit(mode)})
  }

  /** A follower that has the ids finds nothing to write, and acknowledges them. */
  function Again(mode: Mode, id: NodeId, n: Node): Node {
    Push(n, Send(Ack(mode, id, 1)))
  }

  function Third(mode: Mode): Node {
    Followed(mode, None, [], Disk(V1, [T(mode), T(mode)]))
  }

  lemma AgainIs(mode: Mode, id: NodeId, n: Node)
    requires (id == 2 && n == Committed2(mode)) || (id == 3 && n == Third(mode))
    ensures HandleAppendReq(Three(mode), id, n, 1, W, None, [T(mode), T(mode)], None) == Again(mode, id, n)
  {
    var es := [T(mode), T(mode)];
    assert UpdateVote(Three(mode), id, n, V1) == (true, n);
    assert es[1..] == [T(mode)] && es[1..][1..] == [];
    assert FirstConflict(n, 2, []) == 0 && FirstConflict(n, 1, es[1..]) == 1 && FirstConflict(n, 0, es) == 2;
  }

  /** Node 2 with everything run. */
  function Settled2(mode: Mode): Node {
    Committed2(mode).(queue := [], disk := Store(V1, [T(mode), T(mode)], Id(mode, 1)))
  }

  lemma DrainAgain(mode: Mode)
    ensures Drained(Again(mode, 2, Committed2(mode))) == Settled2(mode)
    ensures DrainedOn(H3(mode), Again(mode, 2, Committed2(mode)).queue) == H3(mode)
    ensures Drained(Again(mode, 3, Third(mode))) == Third(mode)
    ensures DrainedOn(H3(mode), Again(mode, 3, Third(mode)).queue) == H3(mode)
  {
    var h, b, c := H3(mode), Again(mode, 2, Committed2(mode)), Again(mode, 3, Third(mode));
    DrainedThree(b, h);
    assert h.msgs + {Ack(mode, 2, 1)} == h.msgs && h.msgs + {Ack(mode, 3, 1)} == h.msgs;
    assert Ran(c).queue == [] && Drained(c) == Drained(Ran(c)) == Ran(c);
    assert c.queue[1..] == [];
    assert DrainedOn(h, c.queue) == DrainedOn(RanHistory(h, c.queue[0]), []) == RanHistory(h, c.queue[0]);
  }

  lemma MayRecommit(mode: Mode)
    ensures Enabled(Three(mode), Of(Rewritten(mode), Settled2(mode), Third(mode), H3(mode)), CommitStep(1, 1, {2, 3}))
  {
    hide Acked, H3, Settled2, Third;
    Quorate();
    BothAcked3(mode);
    var s := Of(Rewritten(mode), Settled2(mode), Third(mode), H3(mode));
    assert s.nodes[1] == Rewritten(mode);
  }

  lemma BothAcked3(mode: Mode)
    ensures Acked(H3(mode), 2, W, 1) && Acked(H3(mode), 3, W, 1)
  {
    assert Ack(mode, 2, 1) in H3(mode).msgs && Ack(mode, 3, 1) in H3(mode).msgs;
  }

  // ---- the steps, with payloads ----

  lemma Takes(cfg: Config, f0: Full, f: Full, a: Act, y: NodeId)
    requires Attains(cfg, f0, f) && Sound(cfg, f) && Can(cfg, f, a) && y in f.data && y != a.step.id
    ensures var f' := Then(cfg, f, a);
            Attains(cfg, f0, f') && Sound(cfg, f') && Shaped(f') && f'.s == Next(cfg, f.s, a.step)
            && y in f'.data && f'.data[y] == f.data[y]
  {
    hide Sound, Attains, DataOf, SentOf, FirstOf, Next, Enabled, Shaped;
    SoundNext(cfg, f, a);
    SoundShaped(cfg, Then(cfg, f, a));
    Acts(cfg, f0, f, a);
  }

  lemma Crashes(mode: Mode, f0: Full, f: Full) returns (f': Full)
    requires Attains(Three(mode), f0, f) && Sound(Three(mode), f) && f.s == Learned(mode) && 2 in f.data
    ensures Attains(Three(mode), f0, f') && Sound(Three(mode), f') && f'.s == With(Learned(mode), 1, Restarted(mode))
    ensures 2 in f'.data && f'.data[2] == f.data[2]
  {
    hide Sound, Attains, Shape, Learned, Restarted, Next, Then;
    var cfg, a := Three(mode), Act(CrashStep(1, false), [Blank]);
    SoundShaped(cfg, f);
    CrashNext(mode);
    Takes(cfg, f0, f, a, 2);
    f' := Then(cfg, f, a);
  }

  lemma Rewrites(mode: Mode, f0: Full, f: Full, p: Payload) returns (f': Full)
    requires Attains(Three(mode), f0, f) && Sound(Three(mode), f) && f.s == With(Learned(mode), 1, Restarted(mode))
    requires 2 in f.data
    ensures Attains(Three(mode), f0, f') && Sound(Three(mode), f') && f'.s == With(Learned(mode), 1, Rewritten(mode))
    ensures 2 in f'.data && f'.data[2] == f.data[2]
    ensures Shaped(f') && 1 in f'.s.nodes && |PayloadsOf(f', 1, false)| == 2 && PayloadsOf(f', 1, false)[1] == p
  {
    hide Sound, Attains, Shape, Learned, Next, Then, PayloadsOf, Enabled;
    var cfg, a := Three(mode), Act(WriteStep(1, |[p]|), [p]);
    SoundShaped(cfg, f);
    RewriteNext(mode);
    assert f.s.nodes[1] == Restarted(mode) && |Restarted(mode).log| == 1;
    WriteReaches(cfg, f, 1, [p]);
    Takes(cfg, f0, f, a, 2);
    f' := Then(cfg, f, a);
  }

  lemma Replicates(mode: Mode, f0: Full, f: Full) returns (f': Full, given: Data)
    requires Attains(Three(mode), f0, f) && Sound(Three(mode), f)
    requires f.s == Of(Rewritten(mode), Committed2(mode), Third(mode), H3(mode))
    ensures Attains(Three(mode), f0, f') && Sound(Three(mode), f') && SameData(f, f') && f'.s == f.s
    ensures (Entries(mode), given) in f'.sent && Shaped(f) && 1 in f.s.nodes && given == PayloadsOf(f, 1, false)
  {
    hide Sound, Attains, SameData, Then, Enabled, Next, Shape, Committed2, Third, H3, Rewritten, Of;
    hide PayloadsOf, Quiet, ReplicateMsg, NextIndex;
    var cfg, a := Three(mode), Act(ReplicateStep(1, 0, 2), [Blank]);
    SoundShaped(cfg, f);
    ReplicateNext(mode);
    QuietStep(cfg, f0, f, a);
    f', given := Then(cfg, f, a), PayloadsOf(f, 1, false);
    WholeIsSent(cfg, f, a);
  }

  lemma ReplicateNext(mode: Mode)
    ensures var s, step := Of(Rewritten(mode), Committed2(mode), Third(mode), H3(mode)), ReplicateStep(1, 0, 2);
            Enabled(Three(mode), s, step) && Next(Three(mode), s, step) == s && 1 in s.nodes
            && Quiet(Three(mode), s, step)
            && s.nodes[1].leader.Some? && |s.nodes[1].log| == 2 && ReplicateMsg(s.nodes[1], 0, 2) == Entries(mode)
  {
    hide Committed2, Third;
    var s := Of(Rewritten(mode), Committed2(mode), Third(mode), H3(mode));
    assert s.nodes[1] == Rewritten(mode) && Rewritten(mode).log[0..2] == [T(mode), T(mode)];
    assert Entries(mode) in s.h.msgs;
    assert s.h.msgs + {Entries(mode)} == s.h.msgs;
  }

  /** A request with the whole log goes out with all payloads. */
  lemma WholeIsSent(cfg: Config, f: Full, a: Act)
    requires Can(cfg, f, a) && a.step.ReplicateStep? && a.step.start == 0 && a.step.count == |f.s.nodes[a.step.id].log|
    ensures var n := f.s.nodes[a.step.id];
            (ReplicateMsg(n, 0, |n.log|), PayloadsOf(f, a.step.id, false)) in Then(cfg, f, a).sent
  {
    hide DataOf, FirstOf, Next, StoreAt;
    var n, ds := f.s.nodes[a.step.id], f.data[a.step.id];
    assert Shape(n, ds);
    assert ds[|n.queue|][0..0 + |n.log|] == ds[|n.queue|];
  }

  /** A follower hears the request and answers. */
  lemma Answers(mode: Mode, f0: Full, f: Full, id: NodeId, b: Node, b': Node, given: Data) returns (f': Full)
    requires Attains(Three(mode), f0, f) && Sound(Three(mode), f) && (Entries(mode), given) in f.sent
    requires f.s == Of(Rewritten(mode), b, Third(mode), H3(mode))
    requires (id == 2 && b == Committed2(mode) && b' == Settled2(mode)) || (id == 3 && b' == b)
    ensures Attains(Three(mode), f0, f') && Sound(Three(mode), f') && SameData(f, f')
    ensures f'.s == Of(Rewritten(mode), b', Third(mode), H3(mode))
  {
    hide Sound, Attains, SameData, Then, Next, Can;
    var cfg, c, a := Three(mode), Third(mode), Act(AppendReqStep(id, Entries(mode)), given);
    var n1 := Again(mode, id, if id == 2 then b else c);
    AnswerNext(mode, f, id, b, given);
    QuietStep(cfg, f0, f, a);
    Puts(Rewritten(mode), b, c, H3(mode), n1);
    var f1 := Then(cfg, f, a);
    f' := QuietDrain(cfg, f0, f1, id);
    DrainAgain(mode);
    Puts(Rewritten(mode), n1, c, H3(mode), b');
    Puts(Rewritten(mode), b, n1, H3(mode), c);
    SameTwice(f, f1, f');
  }

  lemma AnswerNext(mode: Mode, f: Full, id: NodeId, b: Node, given: Data)
    requires Sound(Three(mode), f) && (Entries(mode), given) in f.sent
    requires f.s == Of(Rewritten(mode), b, Third(mode), H3(mode)) && ((id == 2 && b == Committed2(mode)) || id == 3)
    ensures var a := Act(AppendReqStep(id, Entries(mode)), given);
            var n1 := Again(mode, id, if id == 2 then b else Third(mode));
            Can(Three(mode), f, a) && Next(Three(mode), f.s, a.step) == With(f.s, id, n1)
            && Quiet(Three(mode), f.s, a.step)
  {
    hide Sound, Shape, Of, Rewritten, Third, Committed2, H3, Enabled, Next, Again;
    SoundShaped(Three(mode), f);
    AnswerIs(mode, id, b);
  }

  lemma AnswerIs(mode: Mode, id: NodeId, b: Node)
    requires (id == 2 && b == Committed2(mode)) || id == 3
    ensures var s, step := Of(Rewritten(mode), b, Third(mode), H3(mode)), AppendReqStep(id, Entries(mode));
            Enabled(Three(mode), s, step) && Quiet(Three(mode), s, step)
            && Next(Three(mode), s, step) == With(s, id, Again(mode, id, if id == 2 then b else Third(mode)))
  {
    hide HandleAppendReq, Rewritten;
    var s, n := Of(Rewritten(mode), b, Third(mode), H3(mode)), if id == 2 then b else Third(mode);
    AgainIs(mode, id, n);
    assert s.nodes[id] == n && Entries(mode) in s.h.msgs;
  }

  lemma RecommitNext(mode: Mode)
    ensures var s, step := Of(Rewritten(mode), Settled2(mode), Third(mode), H3(mode)), CommitStep(1, 1, {2, 3});
            Enabled(Three(mode), s, step) && Quiet(Three(mode), s, step)
            && Next(Three(mode), s, step) == Of(Recommitted(mode), Settled2(mode), Third(mode), H3(mode))
  {
    hide LeaderCommit, Settled2, Third, H3, Enabled;
    MayRecommit(mode);
    RecommitIs(mode);
    var s := Of(Rewritten(mode), Settled2(mode), Third(mode), H3(mode));
    assert s.nodes[1] == Rewritten(mode);
    Puts(Rewritten(mode), Settled2(mode), Third(mode), H3(mode), Recommitted(mode));
  }

  lemma Recommits(mode: Mode, f0: Full, f: Full) returns (f': Full)
    requires Attains(Three(mode), f0, f) && Sound(Three(mode), f)
    requires f.s == Of(Rewritten(mode), Settled2(mode), Third(mode), H3(mode))
    ensures Attains(Three(mode), f0, f') && SameData(f, f')
    ensures f'.s == Of(Recommitted(mode), Settled2(mode), Third(mode), H3(mode))
  {
    hide Sound, Attains, SameData, Then, Shape, Next, Enabled, Quiet, Of, Settled2, Third, H3, Rewritten, Recommitted;
    var cfg, a := Three(mode), Act(CommitStep(1, 1, {2, 3}), [Blank]);
    SoundShaped(cfg, f);
    RecommitNext(mode);
    QuietStep(cfg, f0, f, a);
    f' := Then(cfg, f, a);
  }

  /** From the rewritten entry to its commit. */
  lemma Commits(mode: Mode, f0: Full, f: Full) returns (f': Full)
    requires Attains(Three(mode), f0, f) && Sound(Three(mode), f)
    requires f.s == Of(Rewritten(mode), Committed2(mode), Third(mode), H3(mode))
    ensures Attains(Three(mode), f0, f') && SameData(f, f')
    ensures f'.s == Of(Recommitted(mode), Settled2(mode), Third(mode), H3(mode))
  {
    hide Sound, Attains, PayloadsOf, Shape, Of, Committed2, Settled2, Third, Rewritten, Recommitted, H3;
    var f1, given := Replicates(mode, f0, f);
    var f2 := Answers(mode, f0, f1, 2, Committed2(mode), Settled2(mode), given);
    var f3 := Answers(mode, f0, f2, 3, Settled2(mode), Settled2(mode), given);
    f' := Recommits(mode, f0, f3);
    SameTwice(f, f1, f2);
    SameTwice(f, f2, f3);
    SameTwice(f, f3, f');
  }

  lemma ActsTo(cfg: Config, f0: Full, f: Full) returns (acts: seq<Act>)
    requires Attains(cfg, f0, f)
    ensures CanAll(cfg, f0, acts) && f == ThenAll(cfg, f0, acts)
  {
    acts :| CanAll(cfg, f0, acts) && f == ThenAll(cfg, f0, acts);
  }

  lemma SamePayloads(f: Full, f': Full, id: NodeId)
    requires Shaped(f) && Shaped(f') && id in f.s.nodes && id in f'.s.nodes
    requires f.s.nodes[id] == f'.s.nodes[id] && f.data[id] == f'.data[id]
    ensures PayloadsOf(f, id, false) == PayloadsOf(f', id, false)
  {
  }

  lemma StatesAre(mode: Mode)
    ensures 2 in Learned(mode).nodes && Learned(mode).nodes[2] == Committed2(mode)
    ensures With(Learned(mode), 1, Rewritten(mode)) == Of(Rewritten(mode), Committed2(mode), Third(mode), H3(mode))
    ensures var s := Of(Rewritten(mode), Committed2(mode), Third(mode), H3(mode));
            2 in s.nodes && s.nodes[2] == Committed2(mode)
    ensures var s := Of(Recommitted(mode), Settled2(mode), Third(mode), H3(mode));
            1 in s.nodes && 2 in s.nodes && s.nodes[1] == Recommitted(mode) && s.nodes[2] == Settled2(mode)
  {
    Puts(Committing(mode), Committed2(mode), Third(mode), H3(mode), Rewritten(mode));
  }

  /** State machine safety does not hold for what the entries carry: a state is reachable, in both leader-id modes,
      in which two nodes know index 1 to be committed, with the same log id and different payloads. */
  lemma TwoPayloadsCommitted(mode: Mode) returns (f0: Full, acts: seq<Act>, f: Full)
    ensures Begins(Three(mode), f0, Blank) && CanAll(Three(mode), f0, acts) && f == ThenAll(Three(mode), f0, acts)
    ensures Shaped(f) && 1 in f.s.nodes && 2 in f.s.nodes
    ensures 1 < NextIndex(f.s.nodes[1].committed) && 1 < NextIndex(f.s.nodes[2].committed)
    ensures 1 < |f.s.nodes[1].log| && 1 < |f.s.nodes[2].log| && f.s.nodes[1].log[1] == f.s.nodes[2].log[1]
    ensures PayloadsOf(f, 1, false)[1] != PayloadsOf(f, 2, false)[1]
  {
    hide Sound, Attains, PayloadsOf, Begins, Learned, Shape, With, Of;
    var cfg := Three(mode);
    f0 := StartFull(mode);
    var f1 := LearnedWithPayloads(mode);
    SoundShaped(cfg, f1);
    StatesAre(mode);
    var p := PayloadsOf(f1, 2, false)[1];
    var f2 := Crashes(mode, f0, f1);
    var f3 := Rewrites(mode, f0, f2, Another(p));
    SamePayloads(f1, f3, 2);
    f := Commits(mode, f0, f3);
    acts := ActsTo(cfg, f0, f);
  }
}
