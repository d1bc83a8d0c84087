/** Chunked snapshot transfer: senders with one request outstanding each, and a receiver with one stream. */
module SnapshotTransfer {
  import opened Basics

  type Bytes = seq<bv8>
  type SnapshotId = nat

  datatype Request = Request(id: SnapshotId, offset: nat, data: Bytes, done: bool)

  /** The stream being received: where the next write goes unless a request says otherwise, and the data. */
  datatype Streaming = Streaming(id: SnapshotId, offset: nat, data: Bytes)

  /** What a request gives: a mismatch that asks to start over, or acceptance, with the finished data. */
  datatype Outcome = Mismatch | Accepted(finished: Option<Bytes>)

  function Zeros(n: nat): Bytes {
    seq(n, _ => 0)
  }

  /** Write a chunk into a file at an offset; a gap before it reads as zeros. */
  function WriteAt(data: Bytes, offset: nat, chunk: Bytes): Bytes {
    if chunk == [] then data
    else
      (if offset <= |data| then data[..offset] else data + Zeros(offset - |data|)) + chunk
      + (if offset + |chunk| <= |data| then data[offset + |chunk|..] else [])
  }

  /** The receiver: a request for another stream must start at 0, and replaces the stream. */
  function Receive(s: Option<Streaming>, req: Request): (Option<Streaming>, Outcome) {
    if (s.None? || s.value.id != req.id) && req.offset != 0 then (s, Mismatch)
    else
      var cur := if s.None? || s.value.id != req.id then Streaming(req.id, 0, []) else s.value;
      var data := WriteAt(cur.data, req.offset, req.data);
      if req.done then (None, Accepted(Some(data)))
      else (Some(Streaming(req.id, req.offset + |req.data|, data)), Accepted(None))
  }

  // ---- runs ----

  /** A snapshot handed over, with the positions that chunks of its stream were written to. */
  datatype Finished = Finished(id: SnapshotId, data: Bytes, covered: set<nat>)

  /** The snapshots being sent with the offset of each sender, every request sent, the stream of the receiver
      with the positions written, and what the receiver has handed over. */
  datatype World = World(contents: map<SnapshotId, Bytes>, offsets: map<SnapshotId, nat>, sent: set<Request>,
                         stream: Option<Streaming>, covered: set<nat>, finished: seq<Finished>)

  datatype Fate = Lost | ReplyLost | Answered

  datatype Step =
    | SendChunk(id: SnapshotId, size: nat, fate: Fate)
    | DeliverLate(req: Request)
    | StartOver(id: SnapshotId)
    | ForgetStream

  /** The chunk of `size` bytes from `offset` on. */
  function Chunk(id: SnapshotId, content: Bytes, offset: nat, size: nat): Request
    requires offset + size <= |content|
  {
    Request(id, offset, content[offset..offset + size], offset + size == |content|)
  }

  predicate Enabled(w: World, step: Step) {
    match step
    case SendChunk(id, size, _) =>
      id in w.contents && id in w.offsets && w.offsets[id] + size <= |w.contents[id]|
    case DeliverLate(req) => req in w.sent
    case StartOver(id) => id in w.contents && id in w.offsets
    case ForgetStream => true
  }

  /** The positions from `offset` on. */
  function Span(offset: nat, size: nat): (r: set<nat>)
    ensures forall j :: j in r <==> offset <= j < offset + size
  {
    if size == 0 then {} else Span(offset, size - 1) + {offset + size - 1}
  }

  /** The receiver is on another stream, or on none. */
  predicate Elsewhere(w: World, id: SnapshotId) {
    w.stream.None? || w.stream.value.id != id
  }

  /** The data that a chunk for `id` is written into, and the positions of it that were written. */
  function Data(w: World, id: SnapshotId): Bytes {
    if Elsewhere(w, id) then [] else w.stream.value.data
  }

  function Written(w: World, id: SnapshotId): set<nat> {
    if Elsewhere(w, id) then {} else w.covered
  }

  function Deliver(w: World, req: Request): World {
    var (s, out) := Receive(w.stream, req);
    match out
    case Mismatch => w
    case Accepted(done) =>
      var covered := Written(w, req.id) + Span(req.offset, |req.data|);
      if done.Some? then
        w.(stream := s, covered := {}, finished := w.finished + [Finished(req.id, done.value, covered)])
      else w.(stream := s, covered := covered)
  }

  /** Where a sender goes on after an answer. */
  function NextOffset(req: Request, out: Outcome): nat {
    match out
    case Mismatch => 0
    case Accepted(_) => req.offset + |req.data|
  }

  function Next(w: World, step: Step): World
    requires Enabled(w, step)
  {
    match step
    case SendChunk(id, size, fate) =>
      var req := Chunk(id, w.contents[id], w.offsets[id], size);
      var w1 := w.(sent := w.sent + {req});
      if fate.Lost? then w1
      else
        var w2 := Deliver(w1, req);
        if fate.ReplyLost? then w2
        else w2.(offsets := w.offsets[id := NextOffset(req, Receive(w.stream, req).1)])
    case DeliverLate(req) => Deliver(w, req)
    case StartOver(id) => w.(offsets := w.offsets[id := 0])
    case ForgetStream => w.(stream := None, covered := {})
  }

  predicate IsRun(w: World, steps: seq<Step>)
    decreases |steps|
  {
    |steps| == 0 || (Enabled(w, steps[0]) && IsRun(Next(w, steps[0]), steps[1..]))
  }

  function After(w: World, steps: seq<Step>): World
    requires IsRun(w, steps)
    decreases |steps|
  {
    if |steps| == 0 then w else After(Next(w, steps[0]), steps[1..])
  }

  predicate Init(w: World) {
    w.stream.None? && w.covered == {} && w.sent == {} && w.finished == [] && w.offsets.Keys == w.contents.Keys
    && forall id :: id in w.offsets ==> w.offsets[id] == 0
  }

  // ---- what any delivery keeps ----

  /** Writing a piece of the content where the data is a beginning of it leaves a beginning of it exactly if
      nothing is written, there is no gap, or the content is zero in the gap. */
  lemma WriteKeepsIff(data: Bytes, content: Bytes, offset: nat, size: nat)
    requires data <= content && offset + size <= |content|
    ensures WriteAt(data, offset, content[offset..offset + size]) <= content
            <==> size == 0 || offset <= |data| || (forall j :: |data| <= j < offset ==> content[j] == 0)
  {
    var chunk := content[offset..offset + size];
    var r := WriteAt(data, offset, chunk);
    if size > 0 {
      assert forall j :: |data| <= j < offset ==> r[j] == 0;
      if offset <= |data| || (forall j :: |data| <= j < offset ==> content[j] == 0) {
        forall j | 0 <= j < |r|
          ensures r[j] == content[j]
        {
          if offset <= j < offset + size {
            assert r[j] == chunk[j - offset];
          }
        }
      }
    }
  }

  /** The data is the content where chunks were written and zero elsewhere, and ends with a written byte. */
  ghost predicate Painted(data: Bytes, content: Bytes, covered: set<nat>) {
    |data| <= |content|
    && (forall j :: j in covered ==> j < |data|)
    && (|data| > 0 ==> |data| - 1 in covered)
    && forall j :: 0 <= j < |data| ==> data[j] == if j in covered then content[j] else 0
  }

  lemma WritePaints(data: Bytes, content: Bytes, covered: set<nat>, offset: nat, size: nat)
    requires Painted(data, content, covered) && offset + size <= |content|
    ensures Painted(WriteAt(data, offset, content[offset..offset + size]), content, covered + Span(offset, size))
  {
    hide WriteAt, Span;
    WriteIs(data, offset, content[offset..offset + size]);
  }

  /** The file after a write, byte by byte. */
  lemma WriteIs(data: Bytes, offset: nat, chunk: Bytes)
    ensures var r, end := WriteAt(data, offset, chunk), offset + |chunk|;
            chunk != [] ==>
              |r| == (if end <= |data| then |data| else end)
              && forall j :: 0 <= j < |r| ==>
                   r[j] == if offset <= j < end then chunk[j - offset] else if j < |data| then data[j] else 0
    ensures chunk == [] ==> WriteAt(data, offset, chunk) == data
  {
  }

  /** Every byte was written, or is a zero before one that was. */
  ghost predicate Complete(content: Bytes, covered: set<nat>) {
    forall j :: 0 <= j < |content| ==>
      j in covered || (content[j] == 0 && exists k :: k in covered && j < k)
  }

  lemma PaintedIff(data: Bytes, content: Bytes, covered: set<nat>)
    requires Painted(data, content, covered)
    ensures data == content <==> Complete(content, covered)
  {
    if Complete(content, covered) {
      if |content| > 0 {
        assert |content| - 1 in covered;
      }
    }
  }

  ghost predicate Genuine(contents: map<SnapshotId, Bytes>, req: Request) {
    req.id in contents
    && exists offset, size :: IsChunk(contents[req.id], req, offset, size)
  }

  ghost predicate IsChunk(content: Bytes, req: Request, offset: nat, size: nat) {
    offset + size <= |content| && req == Chunk(req.id, content, offset, size)
  }

  /** Whatever is delivered when. */
  ghost predicate AnyInv(w: World) {
    w.offsets.Keys == w.contents.Keys
    && (forall id :: id in w.offsets ==> w.offsets[id] <= |w.contents[id]|)
    && (forall req :: req in w.sent ==> Genuine(w.contents, req))
    && (w.stream.Some? ==>
          w.stream.value.id in w.contents
          && Painted(w.stream.value.data, w.contents[w.stream.value.id], w.covered))
    && forall i :: 0 <= i < |w.finished| ==>
         w.finished[i].id in w.contents
         && Painted(w.finished[i].data, w.contents[w.finished[i].id], w.finished[i].covered)
  }

  lemma DeliverAny(w: World, req: Request)
    requires AnyInv(w) && Genuine(w.contents, req)
    ensures AnyInv(Deliver(w, req))
  {
    hide WriteAt, Painted, Span;
    var offset, size :| IsChunk(w.contents[req.id], req, offset, size);
    assert Painted([], w.contents[req.id], {}) by { NothingPainted(w.contents[req.id]); }
    WritePaints(Data(w, req.id), w.contents[req.id], Written(w, req.id), offset, size);
  }

  lemma NothingPainted(content: Bytes)
    ensures Painted([], content, {})
  {
  }

  lemma AnyNext(w: World, step: Step)
    requires AnyInv(w) && Enabled(w, step)
    ensures AnyInv(Next(w, step)) && Next(w, step).contents == w.contents
  {
    hide Painted, Receive;
    match step {
      case SendChunk(id, size, fate) =>
        var req := Chunk(id, w.contents[id], w.offsets[id], size);
        assert IsChunk(w.contents[id], req, w.offsets[id], size);
        DeliverAny(w.(sent := w.sent + {req}), req);
      case DeliverLate(req) => DeliverAny(w, req);
      case StartOver(id) =>
      case ForgetStream =>
    }
  }

  lemma {:induction false} AnyRun(w: World, steps: seq<Step>)
    requires AnyInv(w) && IsRun(w, steps)
    ensures AnyInv(After(w, steps)) && After(w, steps).contents == w.contents
    ensures forall i :: 0 <= i < |After(w, steps).finished| ==>
              var f := After(w, steps).finished[i];
              f.id in w.contents && (f.data == w.contents[f.id] <==> Complete(w.contents[f.id], f.covered))
    decreases |steps|
  {
    hide AnyInv, Enabled, Next;
    if |steps| > 0 {
      AnyNext(w, steps[0]);
      AnyRun(Next(w, steps[0]), steps[1..]);
    } else {
      AnyFinished(w);
    }
  }

  lemma AnyFinished(w: World)
    requires AnyInv(w)
    ensures forall i :: 0 <= i < |w.finished| ==>
              var f := w.finished[i];
              f.id in w.contents && (f.data == w.contents[f.id] <==> Complete(w.contents[f.id], f.covered))
  {
    forall i | 0 <= i < |w.finished|
      ensures var f := w.finished[i];
              f.id in w.contents && (f.data == w.contents[f.id] <==> Complete(w.contents[f.id], f.covered))
    {
      PaintedIff(w.finished[i].data, w.contents[w.finished[i].id], w.finished[i].covered);
    }
  }

  // ---- without gaps ----

  /** The chunk does not begin past the end of the data it is written into: what a receiver can see. */
  predicate Fits(w: World, req: Request) {
    req.offset <= |Data(w, req.id)|
  }

  /** The step delivers nothing with a gap before it. */
  predicate NoGap(w: World, step: Step)
    requires Enabled(w, step)
  {
    match step
    case SendChunk(id, size, fate) => fate.Lost? || Gapless(w, Chunk(id, w.contents[id], w.offsets[id], size))
    case DeliverLate(req) => Gapless(w, req)
    case _ => true
  }

  predicate Gapless(w: World, req: Request) {
    Receive(w.stream, req).1.Accepted? ==> Fits(w, req)
  }

  predicate NoGaps(w: World, steps: seq<Step>)
    requires IsRun(w, steps)
    decreases |steps|
  {
    |steps| == 0 || (NoGap(w, steps[0]) && NoGaps(Next(w, steps[0]), steps[1..]))
  }

  ghost predicate Inv(w: World) {
    AnyInv(w)
    && (w.stream.Some? ==> w.stream.value.data <= w.contents[w.stream.value.id])
    && forall i :: 0 <= i < |w.finished| ==> w.finished[i].data == w.contents[w.finished[i].id]
  }

  lemma DeliverFits(w: World, req: Request)
    requires Inv(w) && Genuine(w.contents, req) && Gapless(w, req)
    ensures Inv(Deliver(w, req))
  {
    hide AnyInv, WriteAt;
    assert AnyInv(w);
    DeliverAny(w, req);
    AnyInvIds(w);
    var offset, size :| IsChunk(w.contents[req.id], req, offset, size);
    if Receive(w.stream, req).1.Accepted? {
      WriteExtends(Data(w, req.id), w.contents[req.id], offset, size);
    }
  }

  lemma AnyInvIds(w: World)
    requires AnyInv(w)
    ensures w.stream.Some? ==> w.stream.value.id in w.contents
    ensures forall i :: 0 <= i < |w.finished| ==> w.finished[i].id in w.contents
    ensures forall req :: req in w.sent ==> Genuine(w.contents, req)
  {
  }

  /** Writing a piece of the content where the data is a beginning of it leaves a beginning of it that reaches
      to the end of the piece. */
  lemma WriteExtends(data: Bytes, content: Bytes, offset: nat, size: nat)
    requires data <= content && offset <= |data| && offset + size <= |content|
    ensures var r := WriteAt(data, offset, content[offset..offset + size]);
            r <= content && |r| == (if offset + size <= |data| then |data| else offset + size)
  {
    WriteKeepsIff(data, content, offset, size);
  }

  lemma NextFits(w: World, step: Step)
    requires Inv(w) && Enabled(w, step) && NoGap(w, step)
    ensures Inv(Next(w, step))
  {
    hide AnyInv, Receive;
    AnyNext(w, step);
    AnyInvIds(w);
    match step {
      case SendChunk(id, size, fate) =>
        var req := Chunk(id, w.contents[id], w.offsets[id], size);
        var w1 := w.(sent := w.sent + {req});
        AnyNext(w, SendChunk(id, size, Lost));
        assert IsChunk(w.contents[id], req, w.offsets[id], size);
        if !fate.Lost? {
          DeliverFits(w1, req);
        }
      case DeliverLate(req) => DeliverFits(w, req);
      case _ =>
    }
  }

  lemma {:induction false} GaplessRun(w: World, steps: seq<Step>)
    requires Inv(w) && IsRun(w, steps) && NoGaps(w, steps)
    ensures Inv(After(w, steps)) && After(w, steps).contents == w.contents
    decreases |steps|
  {
    hide Inv, Enabled, NoGap, Next;
    if |steps| > 0 {
      NextFits(w, steps[0]);
      NextContents(w, steps[0]);
      GaplessRun(Next(w, steps[0]), steps[1..]);
    }
  }

  lemma NextContents(w: World, step: Step)
    requires Enabled(w, step)
    ensures Next(w, step).contents == w.contents
  {
  }

  // ---- without late delivery ----

  /** The stream reaches at least to where its sender is. */
  ghost predicate Ahead(w: World) {
    w.stream.Some? && w.stream.value.id in w.offsets ==>
      w.offsets[w.stream.value.id] <= |w.stream.value.data|
  }

  lemma PromptStep(w: World, step: Step)
    requires Inv(w) && Ahead(w) && Enabled(w, step) && !step.DeliverLate?
    ensures NoGap(w, step) && Ahead(Next(w, step))
  {
    hide AnyInv, WriteAt;
    AnyInvIds(w);
    if step.SendChunk? && !step.fate.Lost? {
      var content, offset := w.contents[step.id], w.offsets[step.id];
      if !(Elsewhere(w, step.id) && offset != 0) {
        WriteExtends(Data(w, step.id), content, offset, step.size);
      }
    }
  }

  lemma {:induction false} PromptRun(w: World, steps: seq<Step>)
    requires Inv(w) && Ahead(w) && IsRun(w, steps)
    requires forall i :: 0 <= i < |steps| ==> !steps[i].DeliverLate?
    ensures NoGaps(w, steps) && Ahead(After(w, steps))
    decreases |steps|
  {
    hide AnyInv, Ahead, Enabled, NoGap, Next;
    if |steps| > 0 {
      PromptStep(w, steps[0]);
      NextFits(w, steps[0]);
      PromptRun(Next(w, steps[0]), steps[1..]);
    }
  }

  lemma InitOk(w: World)
    requires Init(w)
    ensures Inv(w) && Ahead(w)
  {
  }

  // ---- from the beginning ----

  /** In every run, with chunks delivered late, repeatedly and in any order, a snapshot handed over is the one
      sent under its id if and only if chunks of its stream were written to every byte, but for zeros before
      the last of them. */
  lemma FinishedIff(w: World, steps: seq<Step>)
    requires Init(w) && IsRun(w, steps)
    ensures forall i :: 0 <= i < |After(w, steps).finished| ==>
              var f := After(w, steps).finished[i];
              f.id in w.contents && (f.data == w.contents[f.id] <==> Complete(w.contents[f.id], f.covered))
  {
    InitOk(w);
    AnyRun(w, steps);
  }

  /** If no accepted chunk begins past the end of the data it is written into, every snapshot the receiver
      hands over is byte for byte the one sent under its id, however late or often chunks are delivered. */
  lemma GaplessIsSent(w: World, steps: seq<Step>)
    requires Init(w) && IsRun(w, steps) && NoGaps(w, steps)
    ensures forall i :: 0 <= i < |After(w, steps).finished| ==>
              var f := After(w, steps).finished[i];
              f.id in w.contents && f.data == w.contents[f.id]
  {
    InitOk(w);
    GaplessRun(w, steps);
    AnyInvIds(After(w, steps));
  }

  /** With one request outstanding per sender, each delivered at once or never, whatever chunk sizes, losses,
      retries, restarts of senders, interrupted and interleaved streams occur, every snapshot the receiver
      hands over is byte for byte the one that was sent under its id. */
  lemma FinishedIsSent(w: World, steps: seq<Step>)
    requires Init(w) && IsRun(w, steps)
    requires forall i :: 0 <= i < |steps| ==> !steps[i].DeliverLate?
    ensures forall i :: 0 <= i < |After(w, steps).finished| ==>
              var f := After(w, steps).finished[i];
              f.id in w.contents && f.data == w.contents[f.id]
  {
    InitOk(w);
    PromptRun(w, steps);
    GaplessIsSent(w, steps);
  }

  // ---- progress ----

  /** A sender that is answered with a mismatch starts over: its next chunk is accepted, whatever the receiver does in
      between. */
  lemma MismatchStartsOver(w: World, id: SnapshotId, size: nat, w': World, size': nat)
    requires Enabled(w, SendChunk(id, size, Answered))
    requires Receive(w.stream, Chunk(id, w.contents[id], w.offsets[id], size)).1.Mismatch?
    requires w'.contents == w.contents && w'.offsets == Next(w, SendChunk(id, size, Answered)).offsets
    requires Enabled(w', SendChunk(id, size', Answered))
    ensures Receive(w'.stream, Chunk(id, w'.contents[id], w'.offsets[id], size')).1.Accepted?
    ensures Next(w', SendChunk(id, size', Answered)).offsets[id] == size'
  {
    hide WriteAt, Span;
  }

  /** The steps send chunks of snapshot `id` that are not empty, and each is answered. */
  predicate Sends(steps: seq<Step>, id: SnapshotId) {
    forall i :: 0 <= i < |steps| ==>
      steps[i].SendChunk? && steps[i].id == id && steps[i].size > 0 && steps[i].fate.Answered?
  }

  /** Where the chunks that the receiver takes begin. */
  function From(w: World, id: SnapshotId): nat
    requires id in w.offsets
  {
    if Elsewhere(w, id) then 0 else w.offsets[id]
  }

  /** The positions written when the transfer ends. */
  function Filled(w: World, id: SnapshotId): set<nat>
    requires id in w.contents && id in w.offsets && From(w, id) <= |w.contents[id]|
  {
    Written(w, id) + Span(From(w, id), |w.contents[id]| - From(w, id))
  }

  /** A bound for the chunks that are still to be sent, one of which may be refused. */
  function Remaining(w: World, id: SnapshotId): nat
    requires id in w.contents && id in w.offsets && w.offsets[id] <= |w.contents[id]|
  {
    if Elsewhere(w, id) && w.offsets[id] > 0 then |w.contents[id]| + 1 else |w.contents[id]| - w.offsets[id]
  }

  lemma OneChunk(w: World, id: SnapshotId, size: nat)
    requires Enabled(w, SendChunk(id, size, Answered)) && size > 0
    ensures var w', content := Next(w, SendChunk(id, size, Answered)), w.contents[id];
            w'.contents == w.contents && id in w'.offsets && w'.offsets[id] <= |content| && Remaining(w, id) > 0
            && (w'.offsets[id] < |content| ==>
                  w'.finished == w.finished && Remaining(w', id) < Remaining(w, id) && Filled(w', id) == Filled(w, id))
            && (w'.offsets[id] == |content| ==>
                  |w'.finished| == |w.finished| + 1 && w.finished == w'.finished[..|w.finished|]
                  && w'.finished[|w.finished|].id == id && w'.finished[|w.finished|].covered == Filled(w, id))
  {
    hide WriteAt, Span;
  }

  lemma {:induction false} ChunksProgress(w: World, id: SnapshotId, steps: seq<Step>)
    requires IsRun(w, steps) && Sends(steps, id) && id in w.contents && id in w.offsets
    requires w.offsets[id] < |w.contents[id]|
    ensures var w', content := After(w, steps), w.contents[id];
            |steps| <= Remaining(w, id) && w'.contents == w.contents
            && id in w'.offsets && w'.offsets[id] <= |content|
            && if w'.offsets[id] < |content| then w'.finished == w.finished
               else |w'.finished| == |w.finished| + 1 && w.finished == w'.finished[..|w.finished|]
                    && w'.finished[|w.finished|].id == id && w'.finished[|w.finished|].covered == Filled(w, id)
    decreases |steps|
  {
    hide Next, Remaining, Filled;
    if |steps| > 0 {
      var w1 := Next(w, steps[0]);
      OneChunk(w, id, steps[0].size);
      if w1.offsets[id] < |w.contents[id]| {
        ChunksProgress(w1, id, steps[1..]);
      } else {
        NothingLeft(w1, id, steps[1..]);
      }
    }
  }

  lemma NothingLeft(w: World, id: SnapshotId, steps: seq<Step>)
    requires IsRun(w, steps) && Sends(steps, id) && id in w.contents && id in w.offsets
    requires w.offsets[id] == |w.contents[id]|
    ensures steps == [] && After(w, steps) == w
  {
  }

  /** From wherever a run has come, sending chunks that are not empty and are answered hands over the snapshot after
      finitely many of them: at most one for each byte, and one more if the first is refused. Until then another can
      always be sent. What is handed over is the snapshot that is sent exactly if every byte was written, but for
      zeros before the last; so it is if the receiver was on no stream or another one, or the sender at the start, or
      nothing was delivered late. */
  lemma TransferEnds(w0: World, before: seq<Step>, w: World, id: SnapshotId, steps: seq<Step>)
    requires Init(w0) && IsRun(w0, before) && w == After(w0, before)
    requires IsRun(w, steps) && Sends(steps, id) && id in w.contents && id in w.offsets
    requires w.offsets[id] < |w.contents[id]|
    ensures |steps| <= |w.contents[id]| + 1
    ensures var w', content := After(w, steps), w.contents[id];
            w'.contents == w.contents && id in w'.offsets &&
            if w'.offsets[id] < |content| then
              w'.finished == w.finished && Enabled(w', SendChunk(id, 1, Answered))
            else
              |w'.finished| == |w.finished| + 1 && w.finished == w'.finished[..|w.finished|] &&
              var f := w'.finished[|w.finished|];
              f.id == id && (f.data == content <==> Complete(content, Filled(w, id)))
              && (Elsewhere(w, id) || w.offsets[id] == 0 ==> f.data == content)
              && ((forall i :: 0 <= i < |before| ==> !before[i].DeliverLate?) ==> f.data == content)
  {
    hide IsRun, After, Init, Inv, AnyInv, Complete, Filled;
    ChunksProgress(w, id, steps);
    AnyAt(w0, before);
    AnyRun(w, steps);
    if From(w, id) == 0 {
      AllFilled(w, id);
    }
    if forall i :: 0 <= i < |before| ==> !before[i].DeliverLate? {
      PromptAt(w0, before);
      PromptRun(w, steps);
      GaplessRun(w, steps);
      InvFinished(After(w, steps));
    }
  }

  /** An empty snapshot is handed over with its only chunk. */
  lemma EmptyIsSent(w0: World, before: seq<Step>, w: World, id: SnapshotId)
    requires Init(w0) && IsRun(w0, before) && w == After(w0, before)
    requires id in w.contents && w.contents[id] == []
    ensures Enabled(w, SendChunk(id, 0, Answered))
    ensures var w' := Next(w, SendChunk(id, 0, Answered));
            |w'.finished| == |w.finished| + 1 && w'.finished[|w.finished|].id == id
            && w'.finished[|w.finished|].data == []
  {
    hide IsRun, After, Init, Span;
    AnyAt(w0, before);
  }

  lemma AnyAt(w: World, steps: seq<Step>)
    requires Init(w) && IsRun(w, steps)
    ensures AnyInv(After(w, steps))
  {
    InitOk(w);
    AnyRun(w, steps);
  }

  lemma PromptAt(w: World, steps: seq<Step>)
    requires Init(w) && IsRun(w, steps) && forall i :: 0 <= i < |steps| ==> !steps[i].DeliverLate?
    ensures Inv(After(w, steps)) && Ahead(After(w, steps))
  {
    InitOk(w);
    PromptRun(w, steps);
    GaplessRun(w, steps);
  }

  lemma AllFilled(w: World, id: SnapshotId)
    requires id in w.contents && id in w.offsets && From(w, id) == 0
    ensures Complete(w.contents[id], Filled(w, id))
  {
  }

  lemma InvFinished(w: World)
    requires Inv(w)
    ensures forall i :: 0 <= i < |w.finished| ==>
              w.finished[i].id in w.contents && w.finished[i].data == w.contents[w.finished[i].id]
  {
  }

  // ---- a late chunk with a gap ----

  /** A repeated first chunk that arrives after the stream was replaced revives the stream without the
      middle, and the last chunk then completes a snapshot that was never sent. */
  lemma LateDeliveryCorrupts() returns (w: World, steps: seq<Step>)
    ensures Init(w) && IsRun(w, steps)
    ensures exists i :: 0 <= i < |After(w, steps).finished|
                        && After(w, steps).finished[i].id in w.contents
                        && After(w, steps).finished[i].data != w.contents[After(w, steps).finished[i].id]
  {
    hide WriteAt, Span, Next;
    var a: Bytes, b: Bytes := [1, 2, 3], [9, 9];
    w := World(map[7 := a, 8 := b], map[7 := 0, 8 := 0], {}, None, {}, []);
    var first := Chunk(7, a, 0, 1);
    steps := [SendChunk(7, 1, Answered), SendChunk(7, 1, Answered), SendChunk(8, 1, Answered),
              DeliverLate(first), SendChunk(7, 1, Answered)];
    Writes(a, b);
    var w1 := Answers(w, 7, 1);
    var w2 := Answers(w1, 7, 1);
    var w3 := Answers(w2, 8, 1);
    var w4 := Deliver(w3, first);
    LateIs(w3, first);
    assert w4.stream == Some(Streaming(7, 1, [1])) && w4.offsets == w3.offsets && w4.contents == w.contents;
    var w5 := Answers(w4, 7, 1);
    RunFive(w, steps, w1, w2, w3, w4, w5);
    assert w5.finished[|w5.finished| - 1].data == [1, 0, 3];
  }

  lemma Writes(a: Bytes, b: Bytes)
    requires a == [1, 2, 3] && b == [9, 9]
    ensures a[0..1] == [1] && a[1..2] == [2] && a[2..3] == [3] && b[0..1] == [9]
    ensures WriteAt([], 0, [1]) == [1] && WriteAt([1], 1, [2]) == [1, 2] && WriteAt([], 0, [9]) == [9]
    ensures WriteAt([1], 2, [3]) == [1, 0, 3]
  {
    assert Zeros(1) == [0];
  }

  lemma LateIs(w: World, req: Request)
    requires req in w.sent
    ensures Next(w, DeliverLate(req)) == Deliver(w, req)
  {
  }

  /** A chunk that is sent, delivered and answered. */
  lemma Answers(w: World, id: SnapshotId, size: nat) returns (w': World)
    requires Enabled(w, SendChunk(id, size, Answered))
    ensures w' == Next(w, SendChunk(id, size, Answered)) && w'.contents == w.contents
    ensures var req := Chunk(id, w.contents[id], w.offsets[id], size);
            var (s, out) := Receive(w.stream, req);
            w'.sent == w.sent + {req} && w'.offsets == w.offsets[id := NextOffset(req, out)] && w'.stream == s
            && (out.Accepted? && out.finished.Some? ==>
                  |w'.finished| > 0 && w'.finished[|w'.finished| - 1].id == id
                  && w'.finished[|w'.finished| - 1].data == out.finished.value)
  {
    hide WriteAt, Span;
    w' := Next(w, SendChunk(id, size, Answered));
  }

  lemma RunFive(w: World, steps: seq<Step>, w1: World, w2: World, w3: World, w4: World, w5: World)
    requires |steps| == 5
    requires Enabled(w, steps[0]) && w1 == Next(w, steps[0]) && Enabled(w1, steps[1]) && w2 == Next(w1, steps[1])
    requires Enabled(w2, steps[2]) && w3 == Next(w2, steps[2]) && Enabled(w3, steps[3]) && w4 == Next(w3, steps[3])
    requires Enabled(w4, steps[4]) && w5 == Next(w4, steps[4])
    ensures IsRun(w, steps) && After(w, steps) == w5
  {
    hide Enabled, Next;
    assert steps[1..][1..] == steps[2..] && steps[2..][1..] == steps[3..];
    assert steps[3..][1..] == steps[4..] && steps[4..][1..] == [];
    assert IsRun(w5, []) && After(w5, []) == w5;
    assert IsRun(w4, steps[4..]) && After(w4, steps[4..]) == w5;
    assert IsRun(w3, steps[3..]) && After(w3, steps[3..]) == w5;
    assert IsRun(w2, steps[2..]) && After(w2, steps[2..]) == w5;
    assert IsRun(w1, steps[1..]) && After(w1, steps[1..]) == w5;
  }

  // ---- the objects ----

  class Receiver {
    var streaming: Option<Streaming>

    constructor ()
      ensures streaming.None?
    {
      streaming := None;
    }

    method ReceiveSnapshot(req: Request) returns (out: Outcome)
      modifies this
      ensures (streaming, out) == Receive(old(streaming), req)
    {
      if streaming.None? || streaming.value.id != req.id {
        if req.offset != 0 {
          return Mismatch;
        }
        streaming := Some(Streaming(req.id, 0, []));
      }
      var s := streaming.value;
      if req.offset != s.offset {
        s := s.(offset := req.offset);
      }
      s := s.(data := WriteAt(s.data, s.offset, req.data), offset := s.offset + |req.data|);
      streaming := Some(s);
      if req.done {
        streaming := None;
        return Accepted(Some(s.data));
      }
      return Accepted(None);
    }
  }

  class Sender {
    const id: SnapshotId
    const content: Bytes
    var offset: nat

    ghost predicate Valid()
      reads this
    {
      offset <= |content|
    }

    constructor (id: SnapshotId, content: Bytes)
      ensures Valid() && offset == 0 && this.id == id && this.content == content
    {
      this.id, this.content, offset := id, content, 0;
    }

    /** Read bytes from the offset on until the buffer is full or the end is reached. */
    method NextChunk(capacity: nat) returns (req: Request)
      requires Valid()
      ensures exists size :: 0 <= size <= capacity && offset + size <= |content|
                             && req == Chunk(id, content, offset, size)
                             && (size == capacity || offset + size == |content|)
    {
      var buf: Bytes := [];
      while |buf| < capacity
        invariant |buf| <= capacity && offset + |buf| <= |content|
        invariant buf == content[offset..offset + |buf|]
      {
        if offset + |buf| == |content| {
          break;
        }
        assert content[offset..offset + |buf| + 1] == buf + [content[offset + |buf|]];
        buf := buf + [content[offset + |buf|]];
      }
      req := Request(id, offset, buf, offset + |buf| == |content|);
      assert req == Chunk(id, content, offset, |buf|);
    }

    /** Go on after an answer to `req`, or try again after none. `higher` says that an accepting answer
        carries a vote above the sender's, which ends the transfer unfinished. */
    method OnReply(req: Request, out: Option<Outcome>, higher: bool) returns (ended: bool)
      requires Valid() && req.offset == offset && offset + |req.data| <= |content|
      modifies this
      ensures Valid()
      ensures out.None? ==> offset == old(offset)
      ensures out == Some(Mismatch) ==> offset == 0
      ensures out.Some? && out.value.Accepted? && !ended ==> offset == old(offset) + |req.data|
      ensures out.Some? && !ended ==> offset == NextOffset(req, out.value)
      ensures ended <==> out.Some? && out.value.Accepted? && (higher || req.done)
    {
      ended := false;
      if out.Some? {
        match out.value {
          case Mismatch => offset := 0;
          case Accepted(_) =>
            if higher || req.done {
              return true;
            }
            offset := offset + |req.data|;
        }
      }
    }
  }
}
