/** The cluster with what the entries carry. The protocol compares log ids and never looks at payloads, so a
    payload travels beside its log id: every step of the cluster is taken as it is, and the payloads of each log
    are written, cut, sent and lost along with it. */
module RaftPayload {
  import opened Basics
  import opened RaftNode
  import opened RaftCluster
  import opened RaftInvariant
  import opened RaftCore
  import opened RaftStorage
  import opened RaftRefusal
  import opened RaftRun
  import opened RaftPushes
  import opened RaftQueues

  /** What an entry carries: nothing, for the first entry of a leader; data of the application; a membership. */
  datatype Payload = Blank | Normal(data: nat) | Membership(members: nat)

  type Data = seq<Payload>

  /** The cluster, and beside it: the payloads of each node's log after the first `k` queued commands, for every
      `k`; the entries each request was sent with; and the payload that was the first to be flushed or sent
      under a log id. */
  datatype Full = Full(
    s: Cluster,
    data: map<NodeId, seq<Data>>,
    sent: set<(Msg, Data)>,
    first: map<LogId, Payload>)

  /** A step, with the payloads of the entries it writes: those the client gives, or those of the request. */
  datatype Act = Act(step: Step, given: Data)

  /** There is a payload for every entry of every log. */
  ghost predicate Shape(n: Node, ds: seq<Data>) {
    |ds| == |n.queue| + 1 && |ds[|n.queue|]| == |n.log|
    && forall k :: 0 <= k < |ds| ==> |ds[k]| == |StoreAt(n, k).log|
  }

  ghost predicate Shaped(f: Full) {
    f.data.Keys == f.s.nodes.Keys && forall id :: id in f.s.nodes ==> Shape(f.s.nodes[id], f.data[id])
  }

  // ---- writing ----

  function Tail(given: Data, k: nat): (r: Data)
    ensures |r| == k
  {
    if k <= |given| then given[|given| - k..] else seq(k, _ => Blank)
  }

  /** What a queued command does to the payloads. */
  function Put(d: Data, cmd: Command, given: Data): Data {
    match cmd
    case TruncateLog(since) => if since < |d| then d[..since] else d
    case AppendEntries(es) => d + Tail(given, |es|)
    case _ => d
  }

  /** The payloads along the queue, once those along the first part of it are known. */
  function Carry(ds: seq<Data>, queue: seq<Command>, given: Data): seq<Data>
    requires |ds| > 0
    decreases |queue| + 1 - |ds|
  {
    if |ds| > |queue| then ds
    else Carry(ds + [Put(ds[|ds| - 1], queue[|ds| - 1], given)], queue, given)
  }

  lemma {:induction false} CarryIs(ds: seq<Data>, queue: seq<Command>, given: Data)
    requires 0 < |ds| <= |queue| + 1
    ensures var r := Carry(ds, queue, given);
            |r| == |queue| + 1 && ds <= r
            && forall q :: |ds| - 1 <= q < |queue| ==> r[q + 1] == Put(r[q], queue[q], given)
    decreases |queue| + 1 - |ds|
  {
    if |ds| <= |queue| {
      var ds' := ds + [Put(ds[|ds| - 1], queue[|ds| - 1], given)];
      CarryIs(ds', queue, given);
      var r := Carry(ds, queue, given);
      assert ds' <= r;
      assert r[|ds|] == ds'[|ds|] && r[|ds| - 1] == ds'[|ds| - 1];
    }
  }

  /** The payloads at indexes from `lo` to `hi` are flushed or sent: those of new ids are the first. */
  function Publish(first: map<LogId, Payload>, log: Log, d: Data, lo: nat, hi: nat): map<LogId, Payload>
    requires hi <= |log| && hi <= |d|
    decreases hi
  {
    if hi <= lo then first
    else
      var before := Publish(first, log, d, lo, hi - 1);
      var x := LogId(log[hi - 1], hi - 1);
      if x in before then before else before[x := d[hi - 1]]
  }

  lemma {:induction false} PublishIs(first: map<LogId, Payload>, log: Log, d: Data, lo: nat, hi: nat)
    requires hi <= |log| && hi <= |d|
    ensures var r := Publish(first, log, d, lo, hi);
            (forall x :: x in first ==> x in r && r[x] == first[x])
            && (forall x :: x in r && x !in first ==>
                  lo <= x.index < hi && x.leader == log[x.index] && r[x] == d[x.index])
            && (forall i :: lo <= i < hi ==> LogId(log[i], i) in r)
    decreases hi
  {
    if lo < hi {
      PublishIs(first, log, d, lo, hi - 1);
    }
  }

  // ---- the step system ----

  ghost predicate Can(cfg: Config, f: Full, a: Act) {
    Shaped(f) && Enabled(cfg, f.s, a.step)
    && match a.step
       case WriteStep(_, count) => |a.given| == count
       case AppendReqStep(_, m) => (m, a.given) in f.sent
       case _ => a.given == [Blank]
  }

  /** The payloads along the queue of the node that takes the step, after it. */
  ghost function DataOf(cfg: Config, f: Full, a: Act): seq<Data>
    requires Can(cfg, f, a)
  {
    var n, ds := f.s.nodes[a.step.id], f.data[a.step.id];
    var queue := Stepped(cfg, f.s, a.step).queue;
    match a.step
    case ReplicateStep(_, _, _) => ds
    case RunStep(_) => ds[1..]
    case RefuseStep(_, pos) => ds[..pos] + ds[pos + 1..]
    case CrashStep(_, _) => Carry([ds[0]], queue, a.given)
    case _ => Carry(ds, queue, a.given)
  }

  /** A flush makes the whole log on disk known; a request makes its entries known. */
  ghost function FirstOf(cfg: Config, f: Full, a: Act): map<LogId, Payload>
    requires Can(cfg, f, a)
  {
    var n, ds := f.s.nodes[a.step.id], f.data[a.step.id];
    match a.step
    case ReplicateStep(_, start, count) => Publish(f.first, n.log, ds[|n.queue|], start, start + count)
    case RunStep(_) =>
      StoreAtOne(n);
      Publish(f.first, Run(n.disk, n.queue[0]).log, ds[1], 0, |ds[1]|)
    case _ => f.first
  }

  ghost function SentOf(cfg: Config, f: Full, a: Act): set<(Msg, Data)>
    requires Can(cfg, f, a)
  {
    var n, ds := f.s.nodes[a.step.id], f.data[a.step.id];
    match a.step
    case ReplicateStep(_, start, count) =>
      f.sent + {(ReplicateMsg(n, start, count), ds[|n.queue|][start..start + count])}
    case _ => f.sent
  }

  ghost function Then(cfg: Config, f: Full, a: Act): Full
    requires Can(cfg, f, a)
  {
    Full(Next(cfg, f.s, a.step), f.data[a.step.id := DataOf(cfg, f, a)], SentOf(cfg, f, a), FirstOf(cfg, f, a))
  }

  ghost predicate CanAll(cfg: Config, f: Full, acts: seq<Act>)
    decreases |acts|
  {
    |acts| == 0 || (Can(cfg, f, acts[0]) && CanAll(cfg, Then(cfg, f, acts[0]), acts[1..]))
  }

  ghost function ThenAll(cfg: Config, f: Full, acts: seq<Act>): Full
    requires CanAll(cfg, f, acts)
    decreases |acts|
  {
    if |acts| == 0 then f else ThenAll(cfg, Then(cfg, f, acts[0]), acts[1..])
  }

  /** A pristine cluster, whose nodes were initialized with the same membership entry if at all. */
  ghost predicate Begins(cfg: Config, f: Full, init: Payload) {
    Init(cfg, f.s)
    && f.data == (map id | id in f.s.nodes :: [if f.s.nodes[id].log == [] then [] else [init]])
    && f.sent == {} && f.first == map[LogId(Genesis(cfg), 0) := init]
  }

  // ---- the cluster below ----

  function Steps(acts: seq<Act>): seq<Step> {
    seq(|acts|, i requires 0 <= i < |acts| => acts[i].step)
  }

  /** A run with payloads is a run of the cluster. */
  lemma {:induction false} Projects(cfg: Config, f: Full, acts: seq<Act>)
    requires CanAll(cfg, f, acts)
    ensures IsRun(cfg, f.s, Steps(acts)) && After(cfg, f.s, Steps(acts)) == ThenAll(cfg, f, acts).s
    decreases |acts|
  {
    hide Enabled, Next, Shaped;
    if |acts| > 0 {
      assert Steps(acts)[0] == acts[0].step && Steps(acts)[1..] == Steps(acts[1..]);
      Projects(cfg, Then(cfg, f, acts[0]), acts[1..]);
    }
  }

  // ---- there is always a payload ----

  lemma PutShape(st: Store, d: Data, cmd: Command, given: Data)
    requires |d| == |st.log|
    ensures |Put(d, cmd, given)| == |Run(st, cmd).log|
  {
  }

  lemma {:induction false} CarryShape(n: Node, ds: seq<Data>, given: Data, k: nat)
    requires 0 < |ds| <= |n.queue| + 1 && k <= |n.queue|
    requires forall j :: 0 <= j < |ds| ==> |ds[j]| == |StoreAt(n, j).log|
    ensures var r := Carry(ds, n.queue, given); k < |r| && |r[k]| == |StoreAt(n, k).log|
    decreases k
  {
    CarryIs(ds, n.queue, given);
    if k >= |ds| {
      CarryShape(n, ds, given, k - 1);
      StoreAtNext(n, k - 1);
      PutShape(StoreAt(n, k - 1), Carry(ds, n.queue, given)[k - 1], n.queue[k - 1], given);
    }
  }

  lemma PushedShape(cfg: Config, h: History, id: NodeId, n: Node, n': Node, from: Source, ds: seq<Data>, given: Data)
    requires Pushed(cfg, h, id, n, n', from) && Shape(n, ds)
    ensures Shape(n', Carry(ds, n'.queue, given))
  {
    hide Kind;
    forall j | 0 <= j < |ds|
      ensures |ds[j]| == |StoreAt(n', j).log|
    {
      StoreAtPrefix(n, n', j);
    }
    CarryIs(ds, n'.queue, given);
    forall k | 0 <= k <= |n'.queue|
      ensures |Carry(ds, n'.queue, given)[k]| == |StoreAt(n', k).log|
    {
      CarryShape(n', ds, given, k);
    }
    StoreAtEnd(n');
  }

  lemma RanShape(n: Node, ds: seq<Data>)
    requires Shape(n, ds) && |n.queue| > 0
    ensures Shape(Ran(n), ds[1..])
  {
    forall k | 0 <= k < |ds| - 1
      ensures |ds[1..][k]| == |StoreAt(Ran(n), k).log|
    {
      StoreAtRan(n, k);
    }
  }

  lemma RefusedShape(n: Node, ds: seq<Data>, pos: nat)
    requires Shape(n, ds) && MayRefuse(n, pos)
    ensures Shape(Without(n, pos), ds[..pos] + ds[pos + 1..])
  {
    forall k | 0 <= k < |ds| - 1
      ensures |(ds[..pos] + ds[pos + 1..])[k]| == |StoreAt(Without(n, pos), k).log|
    {
      StoreAtWithout(n, pos, k);
    }
  }

  lemma CrashedShape(n: Node, ds: seq<Data>, keep: bool)
    requires Shape(n, ds)
    ensures Shape(Crashed(n, keep), [ds[0]])
  {
    assert StoreAt(n, 0) == n.disk && StoreAt(Crashed(n, keep), 0) == Crashed(n, keep).disk;
  }

  /** Every step leaves a payload for every entry. */
  lemma ShapedNext(cfg: Config, f: Full, a: Act)
    requires Inv(cfg, f.s) && Ordered(cfg, f.s) && Can(cfg, f, a)
    ensures Shaped(Then(cfg, f, a))
  {
    hide Inv, Ordered, Shape, Carry, Next, DataOf, FirstOf, SentOf;
    OthersStay(cfg, f.s, a.step);
    StepShape(cfg, f, a);
  }

  /** The payloads along the queue of the node that handles the step. */
  ghost function DataBefore(f: Full, step: Step): (ds: seq<Data>)
    requires Shaped(f) && step.id in f.s.nodes
    ensures Shape(Handler(f.s, step), ds)
  {
    if step.CrashStep? then CrashedShape(f.s.nodes[step.id], f.data[step.id], step.keepCommitted); [f.data[step.id][0]]
    else f.data[step.id]
  }

  lemma HandledShape(cfg: Config, f: Full, a: Act)
    requires Inv(cfg, f.s) && Ordered(cfg, f.s) && Can(cfg, f, a) && Handles(a.step)
    ensures DataOf(cfg, f, a) == Carry(DataBefore(f, a.step), Stepped(cfg, f.s, a.step).queue, a.given)
    ensures Shape(Stepped(cfg, f.s, a.step), DataOf(cfg, f, a))
  {
    hide Inv, Started, QueueOk, Carry, Pushed, Next, StoreAt, Stepped, Shape;
    StepPushes(cfg, f.s, a.step);
    PushedShape(cfg, Next(cfg, f.s, a.step).h, a.step.id, Handler(f.s, a.step), Stepped(cfg, f.s, a.step),
                SourceOf(cfg, f.s, a.step), DataBefore(f, a.step), a.given);
  }

  lemma StepShape(cfg: Config, f: Full, a: Act)
    requires Inv(cfg, f.s) && Ordered(cfg, f.s) && Can(cfg, f, a)
    ensures Shape(Stepped(cfg, f.s, a.step), DataOf(cfg, f, a))
  {
    hide Inv, Ordered, Shape, Carry;
    var n, ds := f.s.nodes[a.step.id], f.data[a.step.id];
    match a.step {
      case ReplicateStep(_, _, _) =>
      case RunStep(id) =>
        RanShape(n, ds);
        RunNext(cfg, f.s, id);
      case RefuseStep(_, pos) => RefusedShape(n, ds, pos);
      case _ => HandledShape(cfg, f, a);
    }
  }

  // ---- every run has payloads ----

  /** Every request was sent with payloads. */
  ghost predicate AllSent(f: Full) {
    forall m :: m in f.s.h.msgs && m.AppendReq? ==> exists given :: (m, given) in f.sent
  }

  lemma AllSentNext(cfg: Config, f: Full, a: Act)
    requires Ordered(cfg, f.s) && AllSent(f) && Can(cfg, f, a)
    ensures AllSent(Then(cfg, f, a))
  {
    hide RoleOk, DataOf, FirstOf, StoreAt;
    hide Elect, HandleVoteReq, HandleVoteResp, HandleAppendReq, LeaderAppend, Restart, LeaderCommit;
    hide UpdateVote, WinsElection;
    var f' := Then(cfg, f, a);
    var n := f.s.nodes[a.step.id];
    forall m | m in f'.s.h.msgs && m.AppendReq?
      ensures exists given :: (m, given) in f'.sent
    {
      if m in f.s.h.msgs {
        var given :| (m, given) in f.sent;
        assert (m, given) in f'.sent;
      } else {
        NewRequest(cfg, f.s, a.step, m);
        var given := f.data[a.step.id][|n.queue|][a.step.start..a.step.start + a.step.count];
        assert (m, given) in f'.sent;
      }
    }
  }

  lemma NewRequest(cfg: Config, s: Cluster, step: Step, m: Msg)
    requires Ordered(cfg, s) && Enabled(cfg, s, step) && m.AppendReq? && m in Next(cfg, s, step).h.msgs - s.h.msgs
    ensures step.ReplicateStep? && m == ReplicateMsg(s.nodes[step.id], step.start, step.count)
  {
    hide Elect, HandleVoteReq, HandleVoteResp, HandleAppendReq, LeaderAppend, Restart, LeaderCommit;
    hide UpdateVote, WinsElection;
  }

  /** No step of the cluster is excluded: it can be taken with some payloads, a write with any. */
  lemma StepHasPayloads(cfg: Config, f: Full, step: Step, data: Data) returns (a: Act)
    requires Shaped(f) && AllSent(f) && Enabled(cfg, f.s, step)
    requires step.WriteStep? ==> |data| == step.count
    ensures Can(cfg, f, a) && a.step == step && (step.WriteStep? ==> a.given == data)
  {
    hide Shaped;
    match step {
      case WriteStep(_, _) => a := Act(step, data);
      case AppendReqStep(_, m) =>
        var given :| (m, given) in f.sent;
        a := Act(step, given);
      case _ => a := Act(step, [Blank]);
    }
  }

  ghost predicate Sound(cfg: Config, f: Full) {
    Inv(cfg, f.s) && Ordered(cfg, f.s) && Shaped(f) && AllSent(f)
  }

  lemma SoundNext(cfg: Config, f: Full, a: Act)
    requires Sound(cfg, f) && Can(cfg, f, a)
    ensures Sound(cfg, Then(cfg, f, a))
  {
    hide Inv, Ordered, Shaped, AllSent, Next, Enabled, DataOf, FirstOf, SentOf;
    NextOk(cfg, f.s, a.step);
    OrderedNext(cfg, f.s, a.step);
    ShapedNext(cfg, f, a);
    AllSentNext(cfg, f, a);
  }

  lemma SoundBegins(cfg: Config, f: Full, init: Payload)
    requires Begins(cfg, f, init)
    ensures Sound(cfg, f)
  {
    hide Inv;
    InitOk(cfg, f.s);
    forall id | id in f.s.nodes
      ensures Shape(f.s.nodes[id], f.data[id])
    {
      assert StoreAt(f.s.nodes[id], 0) == f.s.nodes[id].disk;
    }
  }

  /** Every run of the cluster is a run with payloads. */
  lemma {:induction false} RunHasPayloads(cfg: Config, f: Full, steps: seq<Step>) returns (acts: seq<Act>)
    requires Sound(cfg, f) && IsRun(cfg, f.s, steps)
    ensures CanAll(cfg, f, acts) && Steps(acts) == steps
    decreases |steps|
  {
    hide Sound, Can, Enabled, Next, Shaped, AllSent;
    if |steps| == 0 {
      acts := [];
    } else {
      assert Shaped(f) && AllSent(f) by { SoundIs(cfg, f); }
      var data := seq(if steps[0].WriteStep? then steps[0].count else 0, _ => Blank);
      var a := StepHasPayloads(cfg, f, steps[0], data);
      SoundNext(cfg, f, a);
      ThenIs(cfg, f, a);
      var more := RunHasPayloads(cfg, Then(cfg, f, a), steps[1..]);
      acts := [a] + more;
      assert acts[1..] == more;
      assert Steps(acts) == [a.step] + Steps(more);
    }
  }

  lemma SoundIs(cfg: Config, f: Full)
    requires Sound(cfg, f)
    ensures Inv(cfg, f.s) && Ordered(cfg, f.s) && Shaped(f) && AllSent(f)
  {
  }

  lemma ThenIs(cfg: Config, f: Full, a: Act)
    requires Can(cfg, f, a)
    ensures Enabled(cfg, f.s, a.step) && Then(cfg, f, a).s == Next(cfg, f.s, a.step)
  {
  }
}
