/** Tables keyed by a 64-bit number: the event log and the dead letters (crates/relay-server/src/storage.rs). */
module EventLog {
  import opened Basics

  type Log = map<U64, Bytes>

  lemma {:induction false} LeastOf(keys: set<U64>) returns (k: U64)
    requires keys != {}
    ensures k in keys && forall j :: j in keys ==> k <= j
  {
    k :| k in keys;
    var rest := keys - {k};
    assert forall j :: j in keys ==> j == k || j in rest;
    if rest != {} {
      var k' := LeastOf(rest);
      if k' < k {
        k := k';
      }
    }
  }

  lemma {:induction false} GreatestOf(keys: set<U64>) returns (k: U64)
    requires keys != {}
    ensures k in keys && forall j :: j in keys ==> j <= k
  {
    k :| k in keys;
    var rest := keys - {k};
    assert forall j :: j in keys ==> j == k || j in rest;
    if rest != {} {
      var k' := GreatestOf(rest);
      if k < k' {
        k := k';
      }
    }
  }

  lemma HasLeast(keys: set<U64>)
    requires keys != {}
    ensures exists k :: k in keys && forall j :: j in keys ==> k <= j
  {
    var k := LeastOf(keys);
  }

  lemma HasGreatest(keys: set<U64>)
    requires keys != {}
    ensures exists k :: k in keys && forall j :: j in keys ==> j <= k
  {
    var k := GreatestOf(keys);
  }

  /** The first key of a table in key order. */
  function FirstKey(keys: set<U64>): (k: U64)
    requires keys != {}
    ensures k in keys && forall j :: j in keys ==> k <= j
  {
    HasLeast(keys);
    var k :| k in keys && forall j :: j in keys ==> k <= j;
    k
  }

  /** The last key of a table in key order. */
  function LastKey(keys: set<U64>): (k: U64)
    requires keys != {}
    ensures k in keys && forall j :: j in keys ==> j <= k
  {
    HasGreatest(keys);
    var k :| k in keys && forall j :: j in keys ==> j <= k;
    k
  }

  /** One past the last key, wrapping with the machine word; 0 for an empty table. */
  function NextOffset(log: Log): U64 {
    if log == map[] then 0 else (LastKey(log.Keys) + 1) % U64_SIZE
  }

  /** The oldest rows dropped until at most `retention` are left; 0 means no bound. */
  function Pruned(log: Log, retention: U64): Log
    decreases |log|
  {
    if retention == 0 || |log| <= retention then log
    else
      assert log.Keys != {};
      var rest := log - {FirstKey(log.Keys)};
      assert rest.Keys == log.Keys - {FirstKey(log.Keys)};
      Pruned(rest, retention)
  }

  function Appended(log: Log, blob: Bytes, retention: U64): Log {
    Pruned(log[NextOffset(log) := blob], retention)
  }

  /** Appending in place, as the storage transaction does. */
  method Append(log: Log, blob: Bytes, retention: U64) returns (offset: U64, log': Log)
    ensures offset == NextOffset(log) && log' == Appended(log, blob, retention)
  {
    if log == map[] {
      offset := 0;
    } else {
      var last := LastKey(log.Keys);
      offset := (last + 1) % U64_SIZE;
    }
    log' := log[offset := blob];
    if retention > 0 {
      while |log'| > retention
        invariant Pruned(log', retention) == Appended(log, blob, retention)
        decreases |log'|
      {
        assert log'.Keys != {};
        var oldest := FirstKey(log'.Keys);
        assert (log' - {oldest}).Keys == log'.Keys - {oldest};
        log' := log' - {oldest};
      }
    }
  }

  // ---- what the log holds ----

  /** The blobs numbered from `lo` on, each under its number. */
  function Span(blobs: seq<Bytes>, lo: nat): Log
    requires |blobs| <= U64_SIZE
  {
    map k: U64 | lo <= k < |blobs| :: blobs[k]
  }

  lemma {:induction false} SpanSize(blobs: seq<Bytes>, lo: nat)
    requires lo <= |blobs| <= U64_SIZE
    ensures |Span(blobs, lo)| == |blobs| - lo
    decreases |blobs| - lo
  {
    if lo == |blobs| {
      assert Span(blobs, lo) == map[];
    } else {
      SpanSize(blobs, lo + 1);
      assert Span(blobs, lo).Keys == Span(blobs, lo + 1).Keys + {lo};
    }
  }

  /** The lowest number kept after one more blob. */
  function LowMark(lo: nat, n: nat, retention: U64): nat {
    if retention > 0 && lo + retention < n then n - retention else lo
  }

  lemma {:induction false} PruneSpan(blobs: seq<Bytes>, lo: nat, retention: U64)
    requires lo <= |blobs| <= U64_SIZE
    ensures Pruned(Span(blobs, lo), retention) == Span(blobs, LowMark(lo, |blobs|, retention))
    decreases |blobs| - lo
  {
    SpanSize(blobs, lo);
    var log := Span(blobs, lo);
    if retention > 0 && |log| > retention {
      assert lo in log;
      assert FirstKey(log.Keys) == lo;
      assert log - {lo} == Span(blobs, lo + 1);
      PruneSpan(blobs, lo + 1, retention);
    }
  }

  /** One append to a log that is a span extends the span at the top and cuts it at the bottom. */
  lemma AppendToSpan(blobs: seq<Bytes>, lo: nat, blob: Bytes, retention: U64)
    requires lo <= |blobs| < U64_SIZE && (lo == |blobs| ==> blobs == [])
    ensures var n := |blobs| + 1;
            && Appended(Span(blobs, lo), blob, retention) == Span(blobs + [blob], LowMark(lo, n, retention))
            && NextOffset(Span(blobs, lo)) == |blobs|
            && LowMark(lo, n, retention) < n
  {
    var log, n := Span(blobs, lo), |blobs|;
    SpanSize(blobs, lo);
    if n > 0 {
      SpanEnds(blobs, lo);
    }
    assert log[n := blob] == Span(blobs + [blob], lo);
    hide Span, Pruned;
    PruneSpan(blobs + [blob], lo, retention);
  }

  lemma SpanEnds(blobs: seq<Bytes>, lo: nat)
    requires lo < |blobs| <= U64_SIZE
    ensures Span(blobs, lo) != map[] && LastKey(Span(blobs, lo).Keys) == |blobs| - 1
    ensures forall k :: k in Span(blobs, lo) ==> lo <= k
  {
    assert |blobs| - 1 in Span(blobs, lo);
  }

  function AppendAll(log: Log, blobs: seq<Bytes>, retention: U64): Log {
    if blobs == [] then log
    else Appended(AppendAll(log, blobs[..|blobs| - 1], retention), blobs[|blobs| - 1], retention)
  }

  lemma PruneLowest(log: Log, k: U64, blob: Bytes, retention: U64)
    requires |log| == retention > 0 && forall j :: j in log ==> k < j
    ensures Pruned(log[k := blob], retention) == log
  {
    var more := log[k := blob];
    assert more.Keys == log.Keys + {k};
    assert FirstKey(more.Keys) == k;
    assert more - {k} == log;
  }

  /** At the last offset the number wraps to 0, and the new row is the one that is pruned. */
  lemma FullLogStops(blobs: seq<Bytes>, retention: U64, blob: Bytes)
    requires |blobs| == U64_SIZE && retention > 0
    ensures Appended(Span(blobs, U64_SIZE - retention), blob, retention) == Span(blobs, U64_SIZE - retention)
  {
    hide Pruned;
    var log := Span(blobs, U64_SIZE - retention);
    SpanSize(blobs, U64_SIZE - retention);
    SpanEnds(blobs, U64_SIZE - retention);
    PruneLowest(log, 0, blob, retention);
  }

  /**
   * With a fixed retention r > 0, after n appends to an empty log the keys are exactly the last r
   * numbers below n, each holding the blob appended under it. From the 2^64-th append on nothing changes.
   */
  lemma {:induction false} LogHoldsTheLatest(blobs: seq<Bytes>, retention: U64)
    requires retention > 0
    ensures var n := if |blobs| < U64_SIZE then |blobs| else U64_SIZE;
            AppendAll(map[], blobs, retention) == Span(blobs[..n], if n <= retention then 0 else n - retention)
    decreases |blobs|
  {
    hide Appended, Span;
    if blobs == [] {
      EmptySpan(blobs);
      assert blobs[..0] == blobs;
    } else {
      var before, blob := blobs[..|blobs| - 1], blobs[|blobs| - 1];
      LogHoldsTheLatest(before, retention);
      if |blobs| <= U64_SIZE {
        var lo := if |before| <= retention then 0 else |before| - retention;
        AppendToSpan(before, lo, blob, retention);
        assert before + [blob] == blobs && before[..|before|] == before && blobs[..|blobs|] == blobs;
      } else {
        assert before[..U64_SIZE] == blobs[..U64_SIZE];
        FullLogStops(blobs[..U64_SIZE], retention, blob);
      }
    }
  }

  /** Below 2^64 appends the bound may change from one append to the next: the log stays one unbroken span. */
  lemma {:induction false} LogIsUnbroken(blobs: seq<Bytes>, retentions: seq<U64>) returns (lo: nat)
    requires |blobs| == |retentions| <= U64_SIZE
    ensures lo <= |blobs| && (lo == |blobs| ==> blobs == [])
    ensures AppendEach(map[], blobs, retentions) == Span(blobs, lo)
  {
    hide Appended, Span;
    if blobs == [] {
      EmptySpan(blobs);
      lo := 0;
    } else {
      var n := |blobs| - 1;
      var before := LogIsUnbroken(blobs[..n], retentions[..n]);
      AppendToSpan(blobs[..n], before, blobs[n], retentions[n]);
      assert blobs[..n] + [blobs[n]] == blobs;
      lo := LowMark(before, n + 1, retentions[n]);
    }
  }

  lemma EmptySpan(blobs: seq<Bytes>)
    requires blobs == []
    ensures Span(blobs, 0) == map[]
  {
  }

  function AppendEach(log: Log, blobs: seq<Bytes>, retentions: seq<U64>): Log
    requires |blobs| == |retentions|
  {
    if blobs == [] then log
    else
      var n := |blobs| - 1;
      Appended(AppendEach(log, blobs[..n], retentions[..n]), blobs[n], retentions[n])
  }

  // ---- reading it back ----

  /** The rows from `from` on, in key order. */
  ghost predicate IsRange(log: Log, from: U64, rows: seq<(U64, Bytes)>) {
    && (forall i, j :: 0 <= i < j < |rows| ==> rows[i].0 < rows[j].0)
    && (forall i :: 0 <= i < |rows| ==> rows[i].0 in log && from <= rows[i].0 && rows[i].1 == log[rows[i].0])
    && (forall k :: k in log && from <= k ==> (k, log[k]) in rows)
  }

  method LoadEvents(log: Log, from: U64) returns (rows: seq<(U64, Bytes)>)
    ensures IsRange(log, from, rows)
  {
    rows := [];
    var left := set k | k in log && from <= k;
    while left != {}
      invariant left <= log.Keys && forall k :: k in left ==> from <= k
      invariant forall i, j :: 0 <= i < j < |rows| ==> rows[i].0 < rows[j].0
      invariant forall i :: 0 <= i < |rows| ==> rows[i].0 in log && from <= rows[i].0 && rows[i].1 == log[rows[i].0]
      invariant forall i, k :: 0 <= i < |rows| && k in left ==> rows[i].0 < k
      invariant forall k :: k in log && from <= k ==> k in left || (k, log[k]) in rows
      decreases |left|
    {
      var k := FirstKey(left);
      rows := rows + [(k, log[k])];
      left := left - {k};
    }
  }

  lemma {:induction false} RowOfSpan(blobs: seq<Bytes>, lo: nat, from: U64, rows: seq<(U64, Bytes)>, i: nat)
    requires |blobs| <= U64_SIZE && IsRange(Span(blobs, lo), from, rows) && i < |rows|
    ensures var start := if lo <= from then from else lo;
            start + i < |blobs| && rows[i] == (start + i, blobs[start + i])
  {
    var start := if lo <= from then from else lo;
    forall j | 0 <= j < i ensures rows[j].0 == start + j {
      RowOfSpan(blobs, lo, from, rows, j);
    }
    assert rows[i].0 in Span(blobs, lo);
    if i > 0 {
      assert rows[i - 1].0 < rows[i].0;
    }
    assert start + i <= rows[i].0;
    assert start + i in Span(blobs, lo);
    var j :| 0 <= j < |rows| && rows[j] == (start + i, blobs[start + i]);
    assert j == i;
  }

  /** Of a span, the rows read are the numbered blobs from `from` or the lowest one kept, in order. */
  lemma RangeOfSpan(blobs: seq<Bytes>, lo: nat, from: U64, rows: seq<(U64, Bytes)>)
    requires |blobs| <= U64_SIZE && IsRange(Span(blobs, lo), from, rows)
    ensures var start := if lo <= from then from else lo;
            && |rows| == (if start <= |blobs| then |blobs| - start else 0)
            && forall i :: 0 <= i < |rows| ==> rows[i] == (start + i, blobs[start + i])
  {
    var start, n := if lo <= from then from else lo, |rows|;
    forall i | 0 <= i < n ensures start + i < |blobs| && rows[i] == (start + i, blobs[start + i]) {
      RowOfSpan(blobs, lo, from, rows, i);
    }
    if n > 0 {
      assert rows[n - 1].0 == start + n - 1;
    }
    if start < |blobs| {
      var last := |blobs| - 1;
      assert last in Span(blobs, lo);
      assert (last, blobs[last]) in rows;
    }
  }
}
