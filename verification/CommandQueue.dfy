/** The queue of engine commands and the loop that runs them. An I/O command is submitted to the log store,
    which flushes in the order of submission and gives notice later. I/O ids are ranked by numbers: on one
    node the ids of the I/O it accepts are increasing, and 0 is that of the vote it started with. */
module CommandQueue {
  import opened Basics

  /** What a command waits for. */
  datatype Condition = IOFlushed(io: nat) | Applied(upto: nat) | Snapshot(upto: nat)

  datatype Reply = VoteReply | AppendDone | AppendRefused

  /** What an I/O is for: to save a vote, to write entries, or to note progress. */
  datatype IoKind = VoteIo | EntriesIo | ProgressIo

  /** A reply is sent to another node. */
  datatype Command =
    | Io(when: Option<Condition>, id: nat, kind: IoKind)
    | Respond(when: Option<Condition>, reply: Reply)
    | Task(when: Option<Condition>, task: nat)

  datatype Event = Ran(cmd: Command) | Flushed(io: nat) | Advanced(applied: nat, snapshot: nat)

  /** `pending` is submitted and not flushed; `accepted` is the last I/O pushed and `vote` the last that
      saves a vote; `pushed` and `events` record what happened. */
  datatype Core = Core(queue: seq<Command>, pending: seq<nat>, flushed: nat, applied: nat, snapshot: nat,
                       accepted: nat, vote: nat, pushed: seq<Command>, events: seq<Event>)

  predicate Met(c: Core, when: Option<Condition>) {
    match when
    case None => true
    case Some(IOFlushed(io)) => io <= c.flushed
    case Some(Applied(upto)) => upto <= c.applied
    case Some(Snapshot(upto)) => upto <= c.snapshot
  }

  /** Run the first command. */
  function RunFirst(c: Core): Core
    requires |c.queue| > 0
  {
    var cmd := c.queue[0];
    c.(queue := c.queue[1..], events := c.events + [Ran(cmd)],
       pending := if cmd.Io? then c.pending + [cmd.id] else c.pending)
  }

  /** Run commands until one has to wait. */
  function RunAll(c: Core): Core
    decreases |c.queue|
  {
    if |c.queue| == 0 || !Met(c, c.queue[0].when) then c else RunAll(RunFirst(c))
  }

  /** What is pushed: a vote to save, entries to write, I/O progress that waits for what was accepted before,
      a reply to a vote request, a reply to replication, or anything else. */
  datatype Step =
    | SaveVote(id: nat)
    | WriteEntries(id: nat)
    | UpdateProgress(id: nat)
    | ReplyVote
    | ReplyAppend(ok: bool)
    | PushTask(when: Option<Condition>, task: nat)
    | Run
    | FlushFirst
    | Advance(applied: nat, snapshot: nat)

  predicate Enabled(c: Core, step: Step) {
    match step
    case SaveVote(id) => c.accepted < id
    case WriteEntries(id) => c.accepted < id
    case UpdateProgress(id) => c.accepted < id
    case FlushFirst => |c.pending| > 0
    case Advance(a, s) => c.applied <= a && c.snapshot <= s
    case _ => true
  }

  function Push(c: Core, cmd: Command): Core {
    c.(queue := c.queue + [cmd], pushed := c.pushed + [cmd])
  }

  /** A vote reply waits for the vote the node holds; a successful append reply for all that was accepted; a
      refusal for nothing. */
  function Next(c: Core, step: Step): Core
    requires Enabled(c, step)
  {
    match step
    case SaveVote(id) => Push(c, Io(None, id, VoteIo)).(accepted := id, vote := id)
    case WriteEntries(id) => Push(c, Io(None, id, EntriesIo)).(accepted := id)
    case UpdateProgress(id) => Push(c, Io(Some(IOFlushed(c.accepted)), id, ProgressIo)).(accepted := id)
    case ReplyVote => Push(c, Respond(Some(IOFlushed(c.vote)), VoteReply))
    case ReplyAppend(ok) =>
      Push(c, if ok then Respond(Some(IOFlushed(c.accepted)), AppendDone) else Respond(None, AppendRefused))
    case PushTask(when, task) => Push(c, Task(when, task))
    case Run => RunAll(c)
    case FlushFirst =>
      c.(pending := c.pending[1..], flushed := c.pending[0], events := c.events + [Flushed(c.pending[0])])
    case Advance(a, s) => c.(applied := a, snapshot := s, events := c.events + [Advanced(a, s)])
  }

  /** The ids of the I/O commands, in order. */
  function Ids(cmds: seq<Command>): seq<nat> {
    if |cmds| == 0 then []
    else Ids(cmds[..|cmds| - 1]) + (if cmds[|cmds| - 1].Io? then [cmds[|cmds| - 1].id] else [])
  }

  predicate IsRun(c: Core, steps: seq<Step>)
    decreases |steps|
  {
    |steps| == 0 || (Enabled(c, steps[0]) && IsRun(Next(c, steps[0]), steps[1..]))
  }

  function After(c: Core, steps: seq<Step>): Core
    requires IsRun(c, steps)
    decreases |steps|
  {
    if |steps| == 0 then c else After(Next(c, steps[0]), steps[1..])
  }

  const START := Core([], [], 0, 0, 0, 0, 0, [], [])

  // ---- what a run keeps ----

  /** The commands that ran, in order. */
  function CommandsRun(events: seq<Event>): seq<Command> {
    if |events| == 0 then []
    else
      CommandsRun(events[..|events| - 1])
      + (if events[|events| - 1].Ran? then [events[|events| - 1].cmd] else [])
  }

  /** The I/O that was flushed, in order. */
  function IosFlushed(events: seq<Event>): seq<nat> {
    if |events| == 0 then []
    else
      IosFlushed(events[..|events| - 1])
      + (if events[|events| - 1].Flushed? then [events[|events| - 1].io] else [])
  }

  predicate Rising(ids: seq<nat>) {
    forall i, j :: 0 <= i < j < |ids| ==> ids[i] < ids[j]
  }

  /** Event `p` is a reply that waits for I/O `x`, and event `q` before it ran an I/O up to `x`. */
  predicate Waits(events: seq<Event>, p: nat, q: nat)
    requires p < |events|
  {
    q < p && events[p].Ran? && events[p].cmd.when.Some? && events[p].cmd.when.value.IOFlushed?
    && events[q].Ran? && events[q].cmd.Io? && events[q].cmd.id <= events[p].cmd.when.value.io
  }

  ghost predicate FlushedBefore(events: seq<Event>, p: nat, io: nat)
    requires p <= |events|
  {
    exists r :: 0 <= r < p && events[r] == Flushed(io)
  }

  /** Whatever waits for an I/O ran after that I/O, and every earlier one, was flushed. */
  ghost predicate Durable(events: seq<Event>) {
    forall p, q :: 0 <= p < |events| && 0 <= q && Waits(events, p, q) ==>
      FlushedBefore(events, p, events[q].cmd.id)
  }

  /** What is applied and what is in a snapshot after the events. */
  function Reached(events: seq<Event>): (nat, nat) {
    if |events| == 0 then (0, 0)
    else
      var e := events[|events| - 1];
      if e.Advanced? then (e.applied, e.snapshot) else Reached(events[..|events| - 1])
  }

  /** Whatever waits for something to be applied, or to be in a snapshot, ran when that was so. */
  ghost predicate Timely(events: seq<Event>) {
    forall p :: 0 <= p < |events| && events[p].Ran? && events[p].cmd.when.Some? ==>
      TimelyAt(events[..p], events[p].cmd.when.value)
  }

  predicate TimelyAt(events: seq<Event>, when: Condition) {
    match when
    case IOFlushed(_) => true
    case Applied(upto) => upto <= Reached(events).0
    case Snapshot(upto) => upto <= Reached(events).1
  }

  ghost predicate Inv(c: Core) {
    c.pushed == CommandsRun(c.events) + c.queue
    && Ids(CommandsRun(c.events)) == IosFlushed(c.events) + c.pending
    && Rising(Ids(c.pushed)) && (forall id :: id in Ids(c.pushed) ==> 0 < id <= c.accepted)
    && c.flushed == (var f := IosFlushed(c.events); if |f| == 0 then 0 else f[|f| - 1])
    && Durable(c.events)
    && Awaits(c.pushed) && VotesUpTo(c.pushed, c.vote)
    && (c.applied, c.snapshot) == Reached(c.events) && Timely(c.events)
    && Submitted(c.pushed, c.accepted) && Submitted(c.pushed, c.vote) && Backed(c.pushed)
  }

  /** The id is that of an I/O among the commands, or the initial one. */
  predicate Submitted(cmds: seq<Command>, x: nat) {
    x == 0 || x in Ids(cmds)
  }

  /** What is no task waits for nothing, or for an I/O pushed before it. */
  ghost predicate Backed(cmds: seq<Command>) {
    forall r :: 0 <= r < |cmds| && !cmds[r].Task? && cmds[r].when.Some? ==>
      cmds[r].when.value.IOFlushed? && Submitted(cmds[..r], cmds[r].when.value.io)
  }

  /** No vote is saved with a greater id than `x`. */
  predicate VotesUpTo(cmds: seq<Command>, x: nat) {
    forall q :: 0 <= q < |cmds| && cmds[q].Io? && cmds[q].kind.VoteIo? ==> cmds[q].id <= x
  }

  /** Command `cmd` waits for an I/O that is not before `id`. */
  predicate WaitsFor(cmd: Command, id: nat) {
    cmd.when.Some? && cmd.when.value.IOFlushed? && id <= cmd.when.value.io
  }

  /** A successful append reply and a note of progress wait for every I/O pushed before, a vote reply for every vote. */
  ghost predicate Awaits(cmds: seq<Command>) {
    forall q, r :: 0 <= q < r < |cmds| && Answers(cmds[r], cmds[q]) ==> WaitsFor(cmds[r], cmds[q].id)
  }

  /** `cmd` is a successful append reply or notes progress, or is a vote reply where the I/O saves a vote. */
  predicate Answers(cmd: Command, io: Command) {
    io.Io?
    && match cmd
       case Io(_, _, kind) => kind.ProgressIo?
       case Respond(_, reply) => reply.AppendDone? || (reply.VoteReply? && io.kind.VoteIo?)
       case Task(_, _) => false
  }

  lemma {:induction false} IdsSplit(a: seq<Command>, b: seq<Command>)
    ensures Ids(a + b) == Ids(a) + Ids(b)
    decreases |b|
  {
    if |b| == 0 {
      assert a + b == a;
    } else {
      assert (a + b)[..|a + b| - 1] == a + b[..|b| - 1];
      IdsSplit(a, b[..|b| - 1]);
    }
  }

  lemma RanAppend(events: seq<Event>, e: Event)
    ensures CommandsRun(events + [e]) == CommandsRun(events) + (if e.Ran? then [e.cmd] else [])
    ensures IosFlushed(events + [e]) == IosFlushed(events) + (if e.Flushed? then [e.io] else [])
  {
  }

  lemma {:induction false} RanIsIn(events: seq<Event>, q: nat)
    requires q < |events| && events[q].Ran? && events[q].cmd.Io?
    ensures events[q].cmd.id in Ids(CommandsRun(events))
    decreases |events|
  {
    var front, e := events[..|events| - 1], events[|events| - 1];
    assert front + [e] == events;
    RanAppend(front, e);
    IdsSplit(CommandsRun(front), if e.Ran? then [e.cmd] else []);
    if q < |events| - 1 {
      RanIsIn(front, q);
    } else {
      assert Ids([e.cmd]) == Ids([]) + [e.cmd.id] by { assert [e.cmd][..0] == []; }
    }
  }

  lemma {:induction false} FlushedIsEvent(events: seq<Event>, io: nat)
    requires io in IosFlushed(events)
    ensures FlushedBefore(events, |events|, io)
    decreases |events|
  {
    var front, e := events[..|events| - 1], events[|events| - 1];
    if e != Flushed(io) {
      FlushedIsEvent(front, io);
      var r :| 0 <= r < |front| && front[r] == Flushed(io);
      assert events[r] == Flushed(io);
    }
  }

  /** A command that waits for an I/O is run only when every I/O up to it is flushed. */
  lemma WaitedIsFlushed(c: Core, x: nat, id: nat)
    requires Inv(c) && Met(c, Some(IOFlushed(x))) && id in Ids(CommandsRun(c.events)) && id <= x
    ensures id in IosFlushed(c.events)
  {
    var f, ran := IosFlushed(c.events), Ids(CommandsRun(c.events));
    IdsSplit(CommandsRun(c.events), c.queue);
    var k :| 0 <= k < |ran| && ran[k] == id;
    assert Ids(c.pushed)[k] == id && id in Ids(c.pushed);
    if |f| > 0 {
      assert Ids(c.pushed)[|f| - 1] == f[|f| - 1];
    }
  }

  lemma DurableAppend(c: Core, e: Event)
    requires Inv(c) && (e.Ran? ==> Met(c, e.cmd.when))
    ensures Durable(c.events + [e])
  {
    hide CommandsRun, IosFlushed, Ids, Inv;
    var all := c.events + [e];
    assert Durable(c.events) by { InvDurable(c); }
    forall p, q | 0 <= p < |all| && 0 <= q && Waits(all, p, q)
      ensures FlushedBefore(all, p, all[q].cmd.id)
    {
      if p < |c.events| {
        assert Waits(c.events, p, q);
        var r :| 0 <= r < p && c.events[r] == Flushed(all[q].cmd.id);
        assert all[r] == c.events[r];
      } else {
        RanIsIn(c.events, q);
        WaitedIsFlushed(c, e.cmd.when.value.io, all[q].cmd.id);
        FlushedIsEvent(c.events, all[q].cmd.id);
        var r :| 0 <= r < |c.events| && c.events[r] == Flushed(all[q].cmd.id);
        assert all[r] == c.events[r];
      }
    }
  }

  lemma TimelyAppend(c: Core, e: Event)
    requires Inv(c) && (e.Ran? ==> Met(c, e.cmd.when))
    ensures Timely(c.events + [e])
    ensures Reached(c.events + [e]) == if e.Advanced? then (e.applied, e.snapshot) else (c.applied, c.snapshot)
  {
    hide CommandsRun, IosFlushed, Ids, Durable, Awaits, VotesUpTo, Rising;
    var all := c.events + [e];
    assert all[..|c.events|] == c.events;
    forall p | 0 <= p < |all| && all[p].Ran? && all[p].cmd.when.Some?
      ensures TimelyAt(all[..p], all[p].cmd.when.value)
    {
      assert all[..p] == c.events[..p];
    }
  }

  lemma InvDurable(c: Core)
    requires Inv(c)
    ensures Durable(c.events)
  {
  }

  lemma RunFirstOk(c: Core)
    requires Inv(c) && |c.queue| > 0 && Met(c, c.queue[0].when)
    ensures Inv(RunFirst(c))
  {
    hide Durable, Awaits, VotesUpTo, Rising, Timely, Reached, Backed;
    var cmd, ran, f := c.queue[0], CommandsRun(c.events), IosFlushed(c.events);
    RanAppend(c.events, Ran(cmd));
    assert ran + c.queue == ran + [cmd] + c.queue[1..];
    assert f + [] == f && Ids(ran) + [] == Ids(ran);
    IdsSplit(ran, [cmd]);
    assert [cmd][..0] == [];
    assert Ids([cmd]) == if cmd.Io? then [cmd.id] else [];
    assert cmd.Io? ==> f + c.pending + [cmd.id] == f + (c.pending + [cmd.id]);
    DurableAppend(c, Ran(cmd));
    TimelyAppend(c, Ran(cmd));
  }

  lemma {:induction false} RunAllOk(c: Core)
    requires Inv(c)
    ensures Inv(RunAll(c))
    ensures RunAll(c).queue == [] || !Met(RunAll(c), RunAll(c).queue[0].when)
    decreases |c.queue|
  {
    hide Inv;
    if |c.queue| > 0 && Met(c, c.queue[0].when) {
      RunFirstOk(c);
      RunAllOk(RunFirst(c));
    }
  }

  lemma {:induction false} IoInIds(cmds: seq<Command>, q: nat)
    requires q < |cmds| && cmds[q].Io?
    ensures cmds[q].id in Ids(cmds)
    decreases |cmds|
  {
    if q < |cmds| - 1 {
      IoInIds(cmds[..|cmds| - 1], q);
    }
  }

  /** The command carries the condition that its kind demands. */
  predicate Conditioned(c: Core, cmd: Command) {
    match cmd
    case Io(when, id, kind) =>
      c.accepted < id && when == (if kind.ProgressIo? then Some(IOFlushed(c.accepted)) else None)
    case Respond(when, AppendDone) => when == Some(IOFlushed(c.accepted))
    case Respond(when, VoteReply) => when == Some(IOFlushed(c.vote))
    case Respond(when, AppendRefused) => when == None
    case Task(_, _) => true
  }

  function Accepting(c: Core, cmd: Command): Core {
    if cmd.Io? then Push(c, cmd).(accepted := cmd.id, vote := if cmd.kind.VoteIo? then cmd.id else c.vote)
    else Push(c, cmd)
  }

  lemma PushOk(c: Core, cmd: Command)
    requires Inv(c) && Conditioned(c, cmd)
    ensures Inv(Accepting(c, cmd))
  {
    hide Durable, Awaits, Backed, Timely, Reached, Rising, VotesUpTo, Submitted, Ids, CommandsRun, IosFlushed;
    var ran := CommandsRun(c.events);
    assert ran + c.queue + [cmd] == ran + (c.queue + [cmd]);
    IdsPush(c, cmd);
    AwaitsPush(c, cmd);
    VotesPush(c, cmd);
    BackedPush(c, cmd);
  }

  lemma IdsPush(c: Core, cmd: Command)
    requires Inv(c) && Conditioned(c, cmd)
    ensures var cmds, c' := c.pushed + [cmd], Accepting(c, cmd);
            Rising(Ids(cmds)) && (forall id :: id in Ids(cmds) ==> 0 < id <= c'.accepted)
            && Submitted(cmds, c'.accepted) && Submitted(cmds, c'.vote)
  {
    hide Durable, Awaits, Backed, Timely, Reached, VotesUpTo, CommandsRun, IosFlushed;
    var ids := Ids(c.pushed);
    IdsSplit(c.pushed, [cmd]);
    assert [cmd][..0] == [];
    assert Ids([cmd]) == if cmd.Io? then [cmd.id] else [];
    assert forall k :: 0 <= k < |ids| ==> ids[k] in ids;
  }

  lemma BackedPush(c: Core, cmd: Command)
    requires Inv(c) && Conditioned(c, cmd)
    ensures Backed(c.pushed + [cmd])
  {
    hide Durable, Awaits, Timely, Reached, VotesUpTo, Rising, Ids, CommandsRun, IosFlushed;
    var all := c.pushed + [cmd];
    assert all[..|c.pushed|] == c.pushed;
    forall r | 0 <= r < |all| && !all[r].Task? && all[r].when.Some?
      ensures all[r].when.value.IOFlushed? && Submitted(all[..r], all[r].when.value.io)
    {
      assert all[..r] == c.pushed[..r];
    }
  }

  lemma VotesPush(c: Core, cmd: Command)
    requires Inv(c) && Conditioned(c, cmd)
    ensures VotesUpTo(c.pushed + [cmd], Accepting(c, cmd).vote)
  {
    hide Durable, Awaits, Timely, Reached, Backed;
    forall q | 0 <= q < |c.pushed| && c.pushed[q].Io?
      ensures c.pushed[q].id <= c.accepted
    {
      IoInIds(c.pushed, q);
    }
  }

  lemma AwaitsPush(c: Core, cmd: Command)
    requires Inv(c) && Conditioned(c, cmd)
    ensures Awaits(c.pushed + [cmd])
  {
    hide Durable, Timely, Reached, Backed;
    forall q | 0 <= q < |c.pushed| && c.pushed[q].Io?
      ensures c.pushed[q].id <= c.accepted
    {
      IoInIds(c.pushed, q);
    }
  }

  lemma FlushOk(c: Core)
    requires Inv(c) && |c.pending| > 0
    ensures Inv(Next(c, FlushFirst))
  {
    hide Durable, Awaits, VotesUpTo, Rising, Timely, Reached, Backed;
    RanAppend(c.events, Flushed(c.pending[0]));
    assert CommandsRun(c.events) + [] == CommandsRun(c.events);
    assert IosFlushed(c.events) + c.pending == IosFlushed(c.events) + [c.pending[0]] + c.pending[1..];
    DurableAppend(c, Flushed(c.pending[0]));
    TimelyAppend(c, Flushed(c.pending[0]));
  }

  lemma AdvanceOk(c: Core, applied: nat, snapshot: nat)
    requires Inv(c)
    ensures var e := Advanced(applied, snapshot);
            Inv(c.(applied := applied, snapshot := snapshot, events := c.events + [e]))
  {
    hide Durable, Awaits, VotesUpTo, Rising, Timely, Reached, Backed;
    var e := Advanced(applied, snapshot);
    RanAppend(c.events, e);
    assert CommandsRun(c.events) + [] == CommandsRun(c.events) && IosFlushed(c.events) + [] == IosFlushed(c.events);
    DurableAppend(c, e);
    TimelyAppend(c, e);
  }

  lemma NextOk(c: Core, step: Step)
    requires Inv(c) && Enabled(c, step)
    ensures Inv(Next(c, step))
  {
    hide Inv, RunAll;
    match step {
      case SaveVote(id) => PushOk(c, Io(None, id, VoteIo));
      case WriteEntries(id) => PushOk(c, Io(None, id, EntriesIo));
      case UpdateProgress(id) => PushOk(c, Io(Some(IOFlushed(c.accepted)), id, ProgressIo));
      case ReplyVote => PushOk(c, Respond(Some(IOFlushed(c.vote)), VoteReply));
      case ReplyAppend(ok) =>
        PushOk(c, if ok then Respond(Some(IOFlushed(c.accepted)), AppendDone) else Respond(None, AppendRefused));
      case PushTask(when, task) => PushOk(c, Task(when, task));
      case Run => RunAllOk(c);
      case FlushFirst => FlushOk(c);
      case Advance(a, s) => AdvanceOk(c, a, s);
    }
  }

  lemma {:induction false} RunOk(c: Core, steps: seq<Step>)
    requires Inv(c) && IsRun(c, steps)
    ensures Inv(After(c, steps))
    decreases |steps|
  {
    hide Inv;
    if |steps| > 0 {
      NextOk(c, steps[0]);
      RunOk(Next(c, steps[0]), steps[1..]);
    }
  }

  /** Where the command that ran as event `q` is among the commands that ran. */
  lemma {:induction false} RanAt(events: seq<Event>, q: nat)
    requires q < |events| && events[q].Ran?
    ensures var a := |CommandsRun(events[..q])|;
            a < |CommandsRun(events)| && CommandsRun(events)[a] == events[q].cmd
    decreases |events|
  {
    var front := events[..|events| - 1];
    if q < |events| - 1 {
      RanAt(front, q);
      assert front[..q] == events[..q];
    }
  }

  lemma {:induction false} RanBefore(events: seq<Event>, q: nat, p: nat)
    requires q < p <= |events| && events[q].Ran?
    ensures |CommandsRun(events[..q])| < |CommandsRun(events[..p])|
    decreases p
  {
    assert events[..p][..p - 1] == events[..p - 1];
    if q < p - 1 {
      RanBefore(events, q, p - 1);
    }
  }

  predicate Answered(e: Event, earlier: Event) {
    e.Ran? && earlier.Ran? && Answers(e.cmd, earlier.cmd)
  }

  lemma AnswerWaits(c: Core, p: nat, q: nat)
    requires Inv(c) && q < p < |c.events| && Answered(c.events[p], c.events[q])
    ensures Waits(c.events, p, q)
  {
    hide Durable, IosFlushed, Ids;
    var a, b := |CommandsRun(c.events[..q])|, |CommandsRun(c.events[..p])|;
    RanAt(c.events, q);
    RanAt(c.events, p);
    RanBefore(c.events, q, p);
    assert c.pushed[a] == c.events[q].cmd && c.pushed[b] == c.events[p].cmd;
  }

  /** Over every interleaving of writes, replies, runs and notices the commands run in the order they were
      pushed, none lost and none repeated. No successful append reply is sent, and no progress noted, before every I/O
      pushed before it is flushed, and no vote reply before every vote is; nothing at all that waits for an I/O runs
      before that I/O and all earlier ones are flushed, and nothing that waits for an index to be applied or to be in
      a snapshot runs before it is. */
  lemma RepliesAreDurable(steps: seq<Step>)
    requires IsRun(START, steps)
    ensures var c := After(START, steps);
            c.pushed == CommandsRun(c.events) + c.queue && Durable(c.events) && Timely(c.events)
            && forall p, q :: 0 <= q < p < |c.events| && Answered(c.events[p], c.events[q]) ==>
                 FlushedBefore(c.events, p, c.events[q].cmd.id)
  {
    hide Durable, Timely, Reached;
    var c := After(START, steps);
    StartOk();
    RunOk(START, steps);
    forall p, q | 0 <= q < p < |c.events| && Answered(c.events[p], c.events[q])
      ensures FlushedBefore(c.events, p, c.events[q].cmd.id)
    {
      AnswerWaits(c, p, q);
      DurableAt(c.events, p, q);
    }
  }

  /** In every run, once all that was submitted is flushed, the first command can run unless it is a task: no reply and
      no I/O waits for anything that is not on its way. */
  lemma NothingStalls(steps: seq<Step>)
    requires IsRun(START, steps)
    ensures var c := After(START, steps);
            c.pending == [] && |c.queue| > 0 && !c.queue[0].Task? ==> Met(c, c.queue[0].when)
  {
    hide Inv;
    var c := After(START, steps);
    StartOk();
    RunOk(START, steps);
    if c.pending == [] && |c.queue| > 0 && !c.queue[0].Task? && c.queue[0].when.Some? {
      FirstIsBacked(c);
    }
  }

  lemma FirstIsBacked(c: Core)
    requires Inv(c) && c.pending == [] && |c.queue| > 0 && !c.queue[0].Task? && c.queue[0].when.Some?
    ensures Met(c, c.queue[0].when)
  {
    hide Durable, Awaits, Timely, Reached, VotesUpTo, CommandsRun, IosFlushed, Ids;
    var ran, f := CommandsRun(c.events), IosFlushed(c.events);
    assert c.pushed[|ran|] == c.queue[0] && c.pushed[..|ran|] == ran;
    assert f + [] == f;
    IdsSplit(ran, c.queue);
    var x := c.queue[0].when.value.io;
    if x > 0 {
      var k :| 0 <= k < |f| && f[k] == x;
      assert Ids(c.pushed)[k] == x && Ids(c.pushed)[|f| - 1] == f[|f| - 1];
    }
  }

  lemma StartOk()
    ensures Inv(START)
  {
  }

  lemma DurableAt(events: seq<Event>, p: nat, q: nat)
    requires Durable(events) && p < |events| && Waits(events, p, q)
    ensures FlushedBefore(events, p, events[q].cmd.id)
  {
  }

  // ---- the objects ----

  class EngineOutput {
    var commands: seq<Command>

    constructor ()
      ensures commands == []
    {
      commands := [];
    }

    method PushCommand(cmd: Command)
      modifies this
      ensures commands == old(commands) + [cmd]
    {
      commands := commands + [cmd];
    }

    /** Put a command that can not run yet back to where it came from. */
    method PostponeCommand(cmd: Command)
      modifies this
      ensures commands == [cmd] + old(commands)
    {
      commands := [cmd] + commands;
    }

    method PopCommand() returns (r: Option<Command>)
      modifies this
      ensures old(commands) == (if r.Some? then [r.value] else []) + commands
      ensures r.None? ==> commands == []
    {
      if |commands| == 0 {
        return None;
      }
      r := Some(commands[0]);
      commands := commands[1..];
    }
  }

  class RaftCore {
    const output: EngineOutput
    var pending: seq<nat>
    var flushed: nat
    var applied: nat
    var snapshot: nat
    var accepted: nat
    var vote: nat
    ghost var pushed: seq<Command>
    ghost var events: seq<Event>

    ghost function View(): Core
      reads this, output
    {
      Core(output.commands, pending, flushed, applied, snapshot, accepted, vote, pushed, events)
    }

    constructor ()
      ensures fresh(output) && View() == START
    {
      output := new EngineOutput();
      pending, flushed, applied, snapshot, accepted, vote := [], 0, 0, 0, 0, 0;
      pushed, events := [], [];
    }

    /** A vote reply is pushed to wait until the vote the node holds is flushed. */
    method RespondVote()
      modifies this`pushed, output
      ensures View() == Next(old(View()), ReplyVote)
    {
      var cmd := Respond(Some(IOFlushed(vote)), VoteReply);
      output.PushCommand(cmd);
      pushed := pushed + [cmd];
    }

    /** A successful append reply is pushed to wait until all that was accepted is flushed. */
    method RespondAppend(ok: bool)
      modifies this`pushed, output
      ensures View() == Next(old(View()), ReplyAppend(ok))
    {
      var condition := if ok then Some(IOFlushed(accepted)) else None;
      var cmd := Respond(condition, if ok then AppendDone else AppendRefused);
      output.PushCommand(cmd);
      pushed := pushed + [cmd];
    }

    /** Run a command if its condition is met; otherwise give it back. */
    method RunCommand(cmd: Command) returns (r: Option<Command>)
      modifies this`pending, this`events
      ensures output.commands == old(output.commands)
      ensures if Met(old(View()), cmd.when) then
                r.None? && View() == RunFirst(old(View()).(queue := [cmd] + old(View()).queue))
              else r == Some(cmd) && View() == old(View())
    {
      match cmd.when {
        case None =>
        case Some(IOFlushed(io)) =>
          if flushed < io {
            return Some(cmd);
          }
        case Some(Applied(upto)) =>
          if applied < upto {
            return Some(cmd);
          }
        case Some(Snapshot(upto)) =>
          if snapshot < upto {
            return Some(cmd);
          }
      }
      events := events + [Ran(cmd)];
      if cmd.Io? {
        pending := pending + [cmd.id];
      }
      return None;
    }

    /** Run as many commands as possible. */
    method RunEngineCommands()
      modifies this`pending, this`events, output
      ensures View() == RunAll(old(View()))
    {
      while true
        invariant RunAll(View()) == RunAll(old(View()))
        decreases |output.commands|
      {
        var cmd := output.PopCommand();
        if cmd.None? {
          return;
        }
        var res := RunCommand(cmd.value);
        if res.Some? {
          output.PostponeCommand(res.value);
          return;
        }
      }
    }

    /** The state machine reports what it has applied or put into a snapshot. */
    method StateMachineDone(applied: nat, snapshot: nat)
      requires this.applied <= applied && this.snapshot <= snapshot
      modifies this`applied, this`snapshot, this`events
      ensures View() == Next(old(View()), Advance(applied, snapshot))
    {
      this.applied, this.snapshot := applied, snapshot;
      events := events + [Advanced(applied, snapshot)];
    }

    /** The log store reports that its first pending I/O is flushed. */
    method LocalIO()
      requires |pending| > 0
      modifies this`pending, this`flushed, this`events
      ensures View() == Next(old(View()), FlushFirst)
    {
      flushed := pending[0];
      events := events + [Flushed(pending[0])];
      pending := pending[1..];
    }
  }
}
