/** `RingBufferHandler` (common/observability.py): numbered log entries in a bounded deque. */
module RingBuffer {
  import opened Wrappers

  /** A log record; what the text filters look at stays abstract. */
  datatype Record = Record(level: string, text: string)

  datatype Entry = Entry(seqNo: nat, record: Record)

  const LEVELS: seq<string> := ["DEBUG", "INFO", "WARNING", "ERROR", "CRITICAL"]

  function IndexOf(level: string, k: nat): (r: Option<nat>)
    requires k <= |LEVELS|
    decreases |LEVELS| - k
    ensures r.Some? ==> k <= r.value < |LEVELS| && LEVELS[r.value] == level
  {
    if k == |LEVELS| then None else if LEVELS[k] == level then Some(k) else IndexOf(level, k + 1)
  }

  function LevelsAtOrAbove(level: string): seq<string> {
    match IndexOf(level, 0)
    case None => LEVELS
    case Some(k) => LEVELS[k..]
  }

  /** The arguments of `snapshot`: the level and the other filters (since, until, search) are
      absent or given; `afterSeq` 0 means none. */
  datatype Query = Query(afterSeq: int, level: Option<string>, others: Record -> bool, page: int, pageSize: int)

  predicate Matches(q: Query, e: Entry) {
    && (q.afterSeq != 0 ==> e.seqNo > q.afterSeq)
    && (q.level.Some? ==> e.record.level in LevelsAtOrAbove(q.level.value))
    && q.others(e.record)
  }

  function Filter(es: seq<Entry>, q: Query): seq<Entry> {
    if es == [] then [] else Filter(es[..|es| - 1], q) + if Matches(q, es[|es| - 1]) then [es[|es| - 1]] else []
  }

  function Reversed(es: seq<Entry>): seq<Entry> {
    if es == [] then [] else [es[|es| - 1]] + Reversed(es[..|es| - 1])
  }

  /** Python's slice `es[lo:hi]`, with its treatment of negative and large bounds. */
  function Slice(es: seq<Entry>, lo: int, hi: int): seq<Entry> {
    var a, b := Clamp(lo, |es|), Clamp(hi, |es|);
    if a < b then es[a..b] else []
  }

  function Clamp(i: int, n: nat): (r: nat)
    ensures r <= n
  {
    if i + n < 0 then 0 else if i < 0 then i + n else if i > n then n else i
  }

  class RingBufferHandler {
    const capacity: nat
    var buf: seq<Entry>
    var seqNo: nat

    constructor (capacity: nat)
      ensures this.capacity == capacity && buf == [] && seqNo == 0
    {
      this.capacity := capacity;
      buf, seqNo := [], 0;
    }

    method Emit(r: Record)
      modifies this
      ensures (buf, seqNo) == Append(capacity, old(buf), old(seqNo), r)
    {
      seqNo := seqNo + 1;
      buf := buf + [Entry(seqNo, r)];
      if |buf| > capacity {
        buf := buf[1..];
      }
    }

    method Snapshot(q: Query) returns (items: seq<Entry>, total: nat, latest: nat)
      ensures var all := Reversed(Filter(buf, q));
              items == Slice(all, (q.page - 1) * q.pageSize, (q.page - 1) * q.pageSize + q.pageSize)
              && total == |all| && latest == seqNo
    {
      latest := seqNo;
      var kept: seq<Entry> := [];
      for k := 0 to |buf|
        invariant kept == Filter(buf[..k], q)
      {
        assert buf[..k + 1][..k] == buf[..k];
        if Matches(q, buf[k]) {
          kept := kept + [buf[k]];
        }
      }
      assert buf[..|buf|] == buf;
      kept := Reversed(kept);
      total := |kept|;
      var start := (q.page - 1) * q.pageSize;
      items := Slice(kept, start, start + q.pageSize);
    }
  }

  function Append(capacity: nat, buf: seq<Entry>, seqNo: nat, r: Record): (seq<Entry>, nat) {
    var all := buf + [Entry(seqNo + 1, r)];
    (if |all| > capacity then all[1..] else all, seqNo + 1)
  }

  // ---------------------------------------------------------------- histories

  function Run(capacity: nat, rs: seq<Record>): (seq<Entry>, nat) {
    if rs == [] then ([], 0)
    else
      var (buf, n) := Run(capacity, rs[..|rs| - 1]);
      Append(capacity, buf, n, rs[|rs| - 1])
  }

  /** Every record ever emitted, numbered from 1. */
  function Numbered(rs: seq<Record>): seq<Entry> {
    seq(|rs|, k requires 0 <= k < |rs| => Entry(k + 1, rs[k]))
  }

  function Kept(capacity: nat, rs: seq<Record>): nat {
    if |rs| < capacity then |rs| else capacity
  }

  /** The buffer is exactly the last `capacity` records emitted, with their numbers. */
  lemma {:induction false} BufferIsLast(capacity: nat, rs: seq<Record>)
    ensures Run(capacity, rs) == (Numbered(rs)[|rs| - Kept(capacity, rs)..], |rs|)
  {
    if rs != [] {
      var init, r := rs[..|rs| - 1], rs[|rs| - 1];
      BufferIsLast(capacity, init);
      assert Numbered(rs) == Numbered(init) + [Entry(|rs|, r)];
      var lo := |init| - Kept(capacity, init);
      assert Numbered(rs)[lo..] == Numbered(init)[lo..] + [Entry(|rs|, r)];
      assert Numbered(rs)[lo..][1..] == Numbered(rs)[lo + 1..];
    }
  }

  lemma {:induction false} FilterIs(es: seq<Entry>, q: Query)
    ensures forall e :: e in Filter(es, q) <==> e in es && Matches(q, e)
  {
    if es != [] {
      FilterIs(es[..|es| - 1], q);
      assert es == es[..|es| - 1] + [es[|es| - 1]];
    }
  }

  lemma {:induction false} ReversedIs(es: seq<Entry>)
    ensures |Reversed(es)| == |es| && forall k | 0 <= k < |es| :: Reversed(es)[k] == es[|es| - 1 - k]
  {
    if es != [] { ReversedIs(es[..|es| - 1]); }
  }

  /** Polling: a reader that last saw number `seen` and asks for everything after it, without
      other filters, misses nothing exactly when no more than `capacity` records came since. */
  lemma PollingComplete(capacity: nat, rs: seq<Record>, seen: nat, q: Query)
    requires 0 < seen <= |rs| && q.afterSeq == seen && q.level.None? && forall r :: q.others(r)
    ensures (forall k | seen <= k < |rs| :: Entry(k + 1, rs[k]) in Filter(Run(capacity, rs).0, q))
            <==> |rs| - seen <= capacity
  {
    hide Run, Filter;
    BufferIsLast(capacity, rs);
    var buf, first := Run(capacity, rs).0, |rs| - Kept(capacity, rs);
    FilterIs(buf, q);
    assert forall k | 0 <= k < |buf| :: buf[k] == Entry(first + k + 1, rs[first + k]);
    if |rs| - seen <= capacity {
      forall k | seen <= k < |rs| ensures Entry(k + 1, rs[k]) in Filter(buf, q) {
        assert buf[k - first] == Entry(k + 1, rs[k]);
      }
    } else {
      assert forall k | 0 <= k < |buf| :: buf[k].seqNo > first >= seen + 1;
      assert Entry(seen + 1, rs[seen]) !in buf;
    }
  }

  /** Pages 1, 2, ... put together. */
  function Pages(all: seq<Entry>, pageSize: nat, n: nat): seq<Entry> {
    if n == 0 then [] else Pages(all, pageSize, n - 1) + Slice(all, (n - 1) * pageSize, (n - 1) * pageSize + pageSize)
  }

  function Upto(all: seq<Entry>, m: nat): seq<Entry> {
    if m < |all| then all[..m] else all
  }

  lemma NextPage(all: seq<Entry>, m: nat, pageSize: nat)
    ensures Upto(all, m) + Slice(all, m, m + pageSize) == Upto(all, m + pageSize)
  {
  }

  lemma NoPage(all: seq<Entry>)
    ensures Upto(all, 0) == []
  {
  }

  lemma OneMore(n: nat, pageSize: nat)
    ensures (n + 1) * pageSize == n * pageSize + pageSize
  {
  }

  /** The pages of one snapshot partition it, newest entries first: nothing twice, nothing missing. */
  lemma {:induction false} PagesPartition(all: seq<Entry>, pageSize: nat, n: nat)
    ensures Pages(all, pageSize, n) == Upto(all, n * pageSize)
  {
    hide Slice, Upto;
    if n == 0 {
      NoPage(all);
    } else {
      PagesPartition(all, pageSize, n - 1);
      OneMore(n - 1, pageSize);
      NextPage(all, (n - 1) * pageSize, pageSize);
    }
  }

  // ---------------------------------------------------------------- what a snapshot shows

  /** The five levels by severity; anything else is no level. */
  function Severity(level: string): int {
    match level
    case "DEBUG" => 0
    case "INFO" => 1
    case "WARNING" => 2
    case "ERROR" => 3
    case "CRITICAL" => 4
    case _ => -1
  }

  lemma LevelsAre(level: string, x: string)
    ensures x in LevelsAtOrAbove(level) <==> Severity(x) >= 0 && Severity(x) >= Severity(level)
  {
    LevelIndex(level, 0);
    LevelIndex(x, 0);
    assert LEVELS[0] == "DEBUG" && LEVELS[1] == "INFO" && LEVELS[2] == "WARNING";
    assert LEVELS[3] == "ERROR" && LEVELS[4] == "CRITICAL";
    var ls := LevelsAtOrAbove(level);
    if Severity(x) >= 0 && Severity(x) >= Severity(level) {
      var k := if Severity(level) < 0 then Severity(x) else Severity(x) - Severity(level);
      assert ls[k] == x;
    }
  }

  lemma LevelIndex(level: string, k: nat)
    requires k <= 5
    ensures IndexOf(level, k) == if Severity(level) >= k then Some(Severity(level) as nat) else None
    decreases 5 - k
  {
    assert LEVELS[0] == "DEBUG" && LEVELS[1] == "INFO" && LEVELS[2] == "WARNING";
    assert LEVELS[3] == "ERROR" && LEVELS[4] == "CRITICAL";
    if k < 5 { LevelIndex(level, k + 1); }
  }

  /** Which entries a snapshot shows: numbered after the given one, at the given level or above, an
      unknown level admitting all five, and as the other filters say. */
  lemma ShownExactly(es: seq<Entry>, q: Query, e: Entry)
    ensures e in Filter(es, q) <==>
              && e in es
              && (q.afterSeq == 0 || e.seqNo > q.afterSeq)
              && (q.level == None
                  || (Severity(e.record.level) >= 0 && Severity(e.record.level) >= Severity(q.level.value)))
              && q.others(e.record)
  {
    FilterIs(es, q);
    if q.level.Some? { LevelsAre(q.level.value, e.record.level); }
  }

  predicate Numbers(es: seq<Entry>) {
    forall i, j | 0 <= i < j < |es| :: es[i].seqNo < es[j].seqNo
  }

  lemma {:induction false} FilterNumbers(es: seq<Entry>, q: Query)
    requires Numbers(es)
    ensures Numbers(Filter(es, q))
    ensures forall e <- Filter(es, q) :: e in es
  {
    hide Matches;
    if es != [] {
      var init, last := es[..|es| - 1], es[|es| - 1];
      assert es == init + [last];
      FilterNumbers(init, q);
      forall e <- Filter(init, q) ensures e.seqNo < last.seqNo {
        var k :| 0 <= k < |init| && init[k] == e;
      }
    }
  }

  /** A snapshot shows the newest entries first. */
  lemma NewestFirst(capacity: nat, rs: seq<Record>, q: Query)
    ensures var shown := Reversed(Filter(Run(capacity, rs).0, q));
            forall i, j | 0 <= i < j < |shown| :: shown[i].seqNo > shown[j].seqNo
  {
    hide Run, Filter;
    BufferIsLast(capacity, rs);
    FilterNumbers(Run(capacity, rs).0, q);
    ReversedIs(Filter(Run(capacity, rs).0, q));
  }

  /** A bound below zero counts from the end, but not past the start. */
  function FromEnd(i: int, n: nat): nat {
    if i >= 0 then i else if i + n >= 0 then i + n else 0
  }

  /** What a page is, whatever its bounds: the entries from the first bound up to the second, as far as
      there are any. */
  lemma SliceIs(es: seq<Entry>, lo: int, hi: int)
    ensures var a, b, page := FromEnd(lo, |es|), FromEnd(hi, |es|), Slice(es, lo, hi);
            && |page| == (if a >= b || a >= |es| then 0 else if b <= |es| then b - a else |es| - a)
            && forall k | 0 <= k < |page| :: page[k] == es[a + k]
  {
  }
}
