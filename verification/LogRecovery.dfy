/** The log-id list and the log store, operated together: after any run of appends, truncations and purges
    the list rebuilt from the store is the list that was maintained. */
module LogRecovery {
  import opened Basics
  import opened LogIdList
  import opened KeyLogIds
  import opened LogState

  /** What the log store keeps: the last purged id, and the entries after it. */
  datatype Disk = Disk(purged: Option<LogId>, entries: Plain)

  function Kept(d: Disk): Plain {
    Retained(d.purged, d.entries)
  }

  predicate DiskOk(d: Disk) {
    KeyLogIds.StoreOk(d.purged, d.entries)
  }

  /** The ids go on where the store ends, and their leaders do not go back. */
  predicate Continues(d: Disk, ids: seq<LogId>) {
    Consecutive(ids)
    && (|ids| > 0 ==> ids[0].index == NextIndex(LastIn(d.purged, d.entries)))
    && (forall i, j :: 0 <= i <= j < |ids| ==> LeaderLe(ids[i].leader, ids[j].leader))
    && (|ids| > 0 && d.entries.leaders != [] ==>
          LeaderLe(d.entries.leaders[|d.entries.leaders| - 1], ids[0].leader))
  }

  /** What the store demands: entries are appended at its end, purged ones are not truncated, and a purge
      goes forward, at an id of the log or past its end. */
  predicate StoreLegal(d: Disk, op: Op) {
    match op
    case AppendOp(id) => Continues(d, [id])
    case ExtendOp(ids) => Continues(d, ids)
    case ExtendSameOp(ids) => Continues(d, ids) && OneLeader(ids)
    case TruncateOp(at) => NextIndex(d.purged) <= at
    case PurgeOp(upto) =>
      NextIndex(d.purged) <= upto.index
      && (if Has(d.entries, upto.index) then upto == Id(d.entries, upto.index)
          else LastIn(d.purged, d.entries).Some? ==> LogIdLt(LastIn(d.purged, d.entries).value, upto))
  }

  function StoreAppend(d: Disk, ids: seq<LogId>): Disk {
    if |ids| == 0 then d
    else
      d.(entries := Plain(if d.entries.leaders == [] then ids[0].index else d.entries.start,
                          d.entries.leaders + Leaders(ids)))
  }

  function StoreApply(d: Disk, op: Op): (r: Disk)
    requires DiskOk(d) && StoreLegal(d, op)
    ensures DiskOk(r)
  {
    match op
    case AppendOp(id) => StoreAppend(d, [id])
    case ExtendOp(ids) => StoreAppend(d, ids)
    case ExtendSameOp(ids) => StoreAppend(d, ids)
    case TruncateOp(at) => d.(entries := TruncatePlain(d.entries, at))
    case PurgeOp(upto) =>
      Disk(Some(upto),
           if d.entries.leaders == [] || End(d.entries) <= upto.index + 1 then EMPTY
           else Plain(upto.index + 1, d.entries.leaders[upto.index + 1 - d.entries.start..]))
  }

  predicate StoreLegalRun(d: Disk, ops: seq<Op>)
    requires DiskOk(d)
    decreases |ops|
  {
    |ops| == 0
    || (StoreLegal(d, ops[0]) && StoreLegalRun(StoreApply(d, ops[0]), ops[1..]))
  }

  function StoreRun(d: Disk, ops: seq<Op>): Disk
    requires DiskOk(d) && StoreLegalRun(d, ops)
    decreases |ops|
  {
    if |ops| == 0 then d else StoreRun(StoreApply(d, ops[0]), ops[1..])
  }

  // ---- the store and the list agree ----

  lemma AppendAgrees(d: Disk, ids: seq<LogId>)
    requires DiskOk(d) && Continues(d, ids)
    ensures Ascending(Kept(d), ids) && Kept(StoreAppend(d, ids)) == AppendAll(Kept(d), ids)
  {
    if |ids| > 0 {
      assert Kept(d).leaders == [] || End(Kept(d)) == ids[0].index;
      AppendConsecutive(Kept(d), ids);
      PlainEq(Kept(StoreAppend(d, ids)), Join(Kept(d), ids));
    }
  }

  lemma TruncateAgrees(d: Disk, at: nat)
    requires DiskOk(d) && NextIndex(d.purged) <= at
    ensures Kept(d.(entries := TruncatePlain(d.entries, at))) == TruncatePlain(Kept(d), at)
  {
    PlainEq(Kept(d.(entries := TruncatePlain(d.entries, at))), TruncatePlain(Kept(d), at));
  }

  lemma PurgeAgrees(d: Disk, upto: LogId)
    requires DiskOk(d) && StoreLegal(d, PurgeOp(upto))
    ensures Legal(Kept(d), PurgeOp(upto)) && Kept(StoreApply(d, PurgeOp(upto))) == PurgePlain(Kept(d), upto)
  {
    hide Sorted;
    PurgeLegal(d, upto);
    if d.entries.leaders == [] || End(d.entries) <= upto.index + 1 {
      PurgeAll(d, upto);
    } else {
      PurgeSome(d, upto);
    }
  }

  lemma PurgeLegal(d: Disk, upto: LogId)
    requires DiskOk(d) && StoreLegal(d, PurgeOp(upto))
    ensures Legal(Kept(d), PurgeOp(upto))
  {
    hide Sorted;
  }

  lemma PurgeAll(d: Disk, upto: LogId)
    requires DiskOk(d) && StoreLegal(d, PurgeOp(upto))
    requires d.entries.leaders == [] || End(d.entries) <= upto.index + 1
    ensures PurgePlain(Kept(d), upto) == Plain(upto.index, [upto.leader])
    ensures Kept(StoreApply(d, PurgeOp(upto))) == Plain(upto.index, [upto.leader])
  {
    hide Sorted;
    var p := Kept(d);
    if p.leaders != [] && upto.index < End(p) {
      assert p.leaders[upto.index - p.start..] == [upto.leader];
    }
  }

  lemma PurgeSome(d: Disk, upto: LogId)
    requires DiskOk(d) && StoreLegal(d, PurgeOp(upto))
    requires d.entries.leaders != [] && upto.index + 1 < End(d.entries)
    ensures PurgePlain(Kept(d), upto) == Kept(StoreApply(d, PurgeOp(upto)))
  {
    hide Sorted;
    var e := d.entries;
    DropTo(e.leaders, if d.purged.None? then upto.leader else d.purged.value.leader, upto.index - e.start);
  }

  lemma DropTo(a: seq<LeaderId>, first: LeaderId, k: nat)
    requires k < |a|
    ensures a[k..] == [a[k]] + a[k + 1..] && ([first] + a)[k + 1..] == [a[k]] + a[k + 1..]
  {
  }

  /** One operation on the store is the same operation on the ids that the list stands for. */
  lemma ApplyAgrees(d: Disk, op: Op)
    requires DiskOk(d) && StoreLegal(d, op)
    ensures Legal(Kept(d), op) && Kept(StoreApply(d, op)) == ApplyPlain(Kept(d), op)
  {
    match op {
      case AppendOp(id) =>
        AppendAgrees(d, [id]);
        assert [id][..0] == [];
      case ExtendOp(ids) => AppendAgrees(d, ids);
      case ExtendSameOp(ids) => AppendAgrees(d, ids);
      case TruncateOp(at) => TruncateAgrees(d, at);
      case PurgeOp(upto) => PurgeAgrees(d, upto);
    }
  }

  /** Through every run of operations the list stands for exactly what the store keeps. */
  lemma {:induction false} RunAgrees(d: Disk, ops: seq<Op>)
    requires DiskOk(d) && StoreLegalRun(d, ops)
    ensures LegalRun(Kept(d), ops) && Kept(StoreRun(d, ops)) == RunPlain(Kept(d), ops)
    ensures DiskOk(StoreRun(d, ops))
    decreases |ops|
  {
    hide StoreLegal, Legal, ApplyPlain, DiskOk, Kept;
    if |ops| > 0 {
      ApplyAgrees(d, ops[0]);
      RunAgrees(StoreApply(d, ops[0]), ops[1..]);
    }
  }

  /** Operate list and store together, then rebuild the list from the store: whenever the reads succeed the
      rebuilt keys are exactly the maintained ones. */
  method OperateAndRestart(list: KeyList, d: Disk, ops: seq<Op>, fails: set<nat>)
    returns (r: Result<seq<LogId>, nat>)
    requires list.Valid() && DiskOk(d) && list.Contents() == Kept(d) && StoreLegalRun(d, ops)
    modifies list
    ensures list.Valid() && list.Contents() == Kept(StoreRun(d, ops))
    ensures r.Ok? ==> r.value == list.keys
    ensures r.Err? ==> r.error in fails
    ensures fails == {} ==> r.Ok?
  {
    RunAgrees(d, ops);
    list.RunAll(ops);
    var after := StoreRun(d, ops);
    r := LoadKeyLogIds(after.purged, LogStore(after.entries, fails));
    if r.Ok? {
      Canonical(list.keys, r.value);
    }
  }
}
