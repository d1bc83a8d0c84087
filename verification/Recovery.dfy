/** Finding the last membership entries of a log after a restart, by a backward scan in chunks. */
module Recovery {
  import opened Basics

  const STEP := 64

  /** A membership entry found in the log, with its index. */
  datatype Stored<M> = Stored(index: nat, membership: M)

  /** All membership entries, in log order; `base` is the index of the first entry. */
  function Members<M>(entries: seq<Option<M>>, base: nat): (r: seq<Stored<M>>)
    ensures forall i, j :: 0 <= i < j < |r| ==> r[i].index < r[j].index
    ensures forall i :: 0 <= i < |r| ==> base <= r[i].index < base + |entries|
  {
    if |entries| == 0 then []
    else (if entries[0].Some? then [Stored(base, entries[0].value)] else []) + Members(entries[1..], base + 1)
  }

  function LastTwo<T>(s: seq<T>): seq<T> {
    if |s| <= 2 then s else s[|s| - 2..]
  }

  lemma {:induction false} MembersSplit<M>(entries: seq<Option<M>>, base: nat, k: nat)
    requires k <= |entries|
    ensures Members(entries, base) == Members(entries[..k], base) + Members(entries[k..], base + k)
    decreases k
  {
    hide Members;
    if k == 0 {
      assert entries[0..] == entries && entries[..0] == [];
      NoMembers<M>(base);
    } else {
      MembersSplit(entries[1..], base + 1, k - 1);
      MembersHead(entries, base);
      MembersHead(entries[..k], base);
      assert entries[..k][1..] == entries[1..][..k - 1];
      assert entries[1..][k - 1..] == entries[k..];
    }
  }

  lemma NoMembers<M>(base: nat)
    ensures Members<M>([], base) == []
  {
  }

  lemma MembersHead<M>(entries: seq<Option<M>>, base: nat)
    requires |entries| > 0
    ensures Members(entries, base)
            == (if entries[0].Some? then [Stored(base, entries[0].value)] else []) + Members(entries[1..], base + 1)
  {
  }

  /** Two entries found from the end are the last two. */
  lemma TwoAreLast<M>(entries: seq<Option<M>>, base: nat, k: nat)
    requires k <= |entries| && |Members(entries[k..], base + k)| == 2
    ensures LastTwo(Members(entries, base)) == Members(entries[k..], base + k)
  {
    MembersSplit(entries, base, k);
  }

  lemma MembersStep<M>(entries: seq<Option<M>>, base: nat, k: nat)
    requires 0 < k <= |entries|
    ensures Members(entries[k - 1..], base + k - 1)
            == (if entries[k - 1].Some? then [Stored(base + k - 1, entries[k - 1].value)] else [])
               + Members(entries[k..], base + k)
  {
  }

  /** The entry is a membership entry of the log. */
  ghost predicate IsMember<M>(entries: seq<Option<M>>, base: nat, x: Stored<M>) {
    base <= x.index < base + |entries| && entries[x.index - base] == Some(x.membership)
  }

  lemma {:induction false} MembersAre<M>(entries: seq<Option<M>>, base: nat, x: Stored<M>)
    ensures x in Members(entries, base) <==> IsMember(entries, base, x)
  {
    if |entries| > 0 {
      MembersAre(entries[1..], base + 1, x);
    }
  }

  /** At most two membership entries in log order, the last ones there are from `lo` on: every other one is earlier
      than two of them. */
  ghost predicate AreLast<M(!new)>(entries: seq<Option<M>>, base: nat, lo: nat, r: seq<Stored<M>>) {
    |r| <= 2 && (|r| == 2 ==> r[0].index < r[1].index)
    && (forall x :: x in r ==> IsMember(entries, base, x) && lo <= x.index)
    && forall x :: IsMember(entries, base, x) && lo <= x.index && x !in r ==> |r| == 2 && x.index < r[0].index
  }

  lemma LastTwoAre<M(!new)>(entries: seq<Option<M>>, base: nat, lo: nat)
    requires base <= lo <= base + |entries|
    ensures AreLast(entries, base, lo, LastTwo(From(entries, base, lo)))
  {
    hide Members;
    var all := From(entries, base, lo);
    forall x: Stored<M>
      ensures x in all <==> IsMember(entries, base, x) && lo <= x.index
    {
      MembersAre(entries[lo - base..], lo, x);
    }
  }

  lemma NoneAre<M(!new)>(entries: seq<Option<M>>, base: nat, lo: nat)
    requires base + |entries| <= lo
    ensures AreLast(entries, base, lo, [])
  {
  }

  function Max(a: nat, b: nat): nat {
    if a < b then b else a
  }

  /** Saturating subtraction. */
  function Minus(a: nat, b: nat): nat {
    if a < b then 0 else a - b
  }

  /** The entries of a log from index `base` on, and the chunk starts at which a read fails. The scan
      returns exactly the last two membership entries, or fewer, at or after both `base` and `since`. */
  method LastMembershipInLog<M(!new)>(entries: seq<Option<M>>, base: nat, fails: set<nat>, since: nat)
    returns (r: Result<seq<Stored<M>>, nat>)
    ensures r.Ok? ==>
              var lo := Max(base, since);
              r.value == if lo >= base + |entries| then [] else LastTwo(Members(entries[lo - base..], lo))
    ensures r.Ok? ==> AreLast(entries, base, Max(base, since), r.value)
    ensures r.Err? ==> r.error in fails
    ensures fails == {} ==> r.Ok?
  {
    hide Members, LastTwo, AreLast;
    var end := base + |entries|;
    var start := Max(base, since);
    var res: seq<Stored<M>> := [];
    NoneAfter(entries, base);
    while start < end
      invariant 0 <= end <= base + |entries|
      invariant start > base + |entries| ==> res == []
      invariant start <= base + |entries| ==> |res| < 2 && res == From(entries, base, Max(start, end))
      decreases end
    {
      var stepStart := Max(start, Minus(end, STEP));
      if stepStart in fails {
        return Err(stepStart);
      }
      var found;
      res, found := ScanChunk(entries, base, stepStart, end, res);
      if |res| == 2 {
        LastFound(entries, base, start, found);
        LastTwoAre(entries, base, start);
        return Ok(res);
      }
      end := Minus(end, STEP);
    }
    if start < base + |entries| {
      ShortIsAll(From(entries, base, start));
      LastTwoAre(entries, base, start);
    } else {
      NoneAre(entries, base, start);
    }
    return Ok(res);
  }

  /** The membership entries from index `at` on. */
  function From<M>(entries: seq<Option<M>>, base: nat, at: nat): seq<Stored<M>>
    requires base <= at <= base + |entries|
  {
    Members(entries[at - base..], at)
  }

  lemma NoneAfter<M>(entries: seq<Option<M>>, base: nat)
    ensures From(entries, base, base + |entries|) == []
  {
  }

  lemma ShortIsAll<T>(s: seq<T>)
    requires |s| < 2
    ensures LastTwo(s) == s
  {
  }

  lemma LastFound<M>(entries: seq<Option<M>>, base: nat, start: nat, found: nat)
    requires base <= start <= found <= base + |entries| && |From(entries, base, found)| == 2
    ensures LastTwo(From(entries, base, start)) == From(entries, base, found)
  {
    assert entries[start - base..][found - start..] == entries[found - base..];
    TwoAreLast(entries[start - base..], start, found - start);
  }

  /** Scan one chunk backwards, until two entries are found. */
  method ScanChunk<M>(entries: seq<Option<M>>, base: nat, lo: nat, hi: nat, before: seq<Stored<M>>)
    returns (res: seq<Stored<M>>, at: nat)
    requires base <= lo < hi <= base + |entries| && |before| < 2 && before == From(entries, base, hi)
    ensures lo <= at <= hi && res == From(entries, base, at) && |res| <= 2
    ensures |res| < 2 ==> at == lo
  {
    hide Members;
    res, at := before, hi;
    while at > lo
      invariant lo <= at <= hi && |res| < 2 && res == From(entries, base, at)
    {
      at := at - 1;
      MembersStep(entries, base, at + 1 - base);
      if entries[at - base].Some? {
        res := [Stored(at, entries[at - base].value)] + res;
        if |res| == 2 {
          return;
        }
      }
    }
  }
}
