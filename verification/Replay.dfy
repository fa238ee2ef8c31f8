/** Replaying logged events (`replay` in crates/relay-server/src/hub.rs, over the log of storage.rs). */
module Replay {
  import opened Basics
  import opened Topics
  import opened Sessions
  import opened Codec
  import opened EventLog
  import opened Storage
  import opened Broker
  import opened Agreement

  /** A replayed event: QoS 0, tagged with its offset. */
  function Numbered(offset: U64, topic: Text, payload: Bytes): Publish {
    Publish(false, false, AtMostOnce, topic, None, payload, Some(offset))
  }

  /** What a replay makes of one row: nothing if it cannot be read or does not match. */
  function FromRow(row: (U64, Bytes), filter: Text): seq<Publish> {
    match DecodeEvent(row.1)
    case None => []
    case Some((topic, payload, _)) => if Matches(filter, topic) then [Numbered(row.0, topic, payload)] else []
  }

  function FromRows(rows: seq<(U64, Bytes)>, filter: Text): seq<Publish> {
    if rows == [] then [] else FromRows(rows[..|rows| - 1], filter) + FromRow(rows[|rows| - 1], filter)
  }

  /** A message as it was published and journalled. */
  datatype Logged = Logged(ts: U64, topic: Text, qos: QoS, payload: Bytes)

  function BlobsOf(history: seq<Logged>): (blobs: seq<Bytes>)
    ensures |blobs| == |history|
    ensures forall k :: 0 <= k < |blobs| ==>
      blobs[k] == EncodeEvent(history[k].ts, history[k].topic, history[k].qos, history[k].payload)
  {
    seq(|history|, k requires 0 <= k < |history| =>
      EncodeEvent(history[k].ts, history[k].topic, history[k].qos, history[k].payload))
  }

  /** The numbers from `start` up to `n` of the messages whose topic matches, in order. */
  function Wanted(history: seq<Logged>, start: nat, n: nat, filter: Text): seq<nat>
    requires n <= |history|
  {
    if n <= start then []
    else Wanted(history, start, n - 1, filter) + if Matches(filter, history[n - 1].topic) then [n - 1] else []
  }

  /** These are exactly the numbers in range whose message matches, in increasing order. */
  lemma {:induction false} WantedExactly(history: seq<Logged>, start: nat, n: nat, filter: Text)
    requires n <= |history|
    ensures var ks := Wanted(history, start, n, filter);
            && (forall i :: 0 <= i < |ks| ==> start <= ks[i] < n)
            && (forall k :: k in ks <==> start <= k < n && Matches(filter, history[k].topic))
            && (forall i, j :: 0 <= i < j < |ks| ==> ks[i] < ks[j])
  {
    hide Matches;
    if start < n {
      WantedExactly(history, start, n - 1, filter);
    }
  }

  /** A replayed message, field by field: its topic and payload, its number, and QoS 0 without a packet id. */
  predicate Carries(p: Publish, m: Logged, k: nat) {
    && p.topic == m.topic && p.payload == m.payload && p.offset == Some(k)
    && p.qos == AtMostOnce && p.packetId == None && !p.dup && !p.retain
  }

  /** These packets are the messages with these numbers, one each, in order. */
  predicate CarriesAll(ps: seq<Publish>, history: seq<Logged>, ks: seq<nat>) {
    |ps| == |ks| && forall i :: 0 <= i < |ks| ==> ks[i] < |history| && Carries(ps[i], history[ks[i]], ks[i])
  }

  lemma {:induction false} RowsAreWanted(history: seq<Logged>, start: nat, rows: seq<(U64, Bytes)>, filter: Text)
    requires |history| <= U64_SIZE && start + |rows| <= |history|
    requires forall k :: 0 <= k < |history| ==> |history[k].topic| < 0x1_0000
    requires forall i :: 0 <= i < |rows| ==> rows[i] == (start + i, BlobsOf(history)[start + i])
    ensures CarriesAll(FromRows(rows, filter), history, Wanted(history, start, start + |rows|, filter))
  {
    hide EncodeEvent, Matches, FromRow, Carries, CarriesAll;
    if rows == [] {
      NothingCarried(history, Wanted(history, start, start, filter), FromRows(rows, filter));
    } else {
      var n := |rows| - 1;
      assert forall i :: 0 <= i < n ==> rows[..n][i] == rows[i];
      RowsAreWanted(history, start, rows[..n], filter);
      RowIsWanted(history[start + n], start + n, filter);
      assert rows[n] == (start + n, BlobsOf(history)[start + n]);
      var before := Wanted(history, start, start + n, filter);
      hide Wanted;
      WantedMore(history, start, start + n, filter);
      CarriesMore(history, before, FromRows(rows[..n], filter), start + n, FromRow(rows[n], filter), filter);
    }
  }

  lemma WantedMore(history: seq<Logged>, start: nat, n: nat, filter: Text)
    requires start <= n < |history|
    ensures Wanted(history, start, n + 1, filter)
         == Wanted(history, start, n, filter) + if Matches(filter, history[n].topic) then [n] else []
  {
    hide Matches;
  }

  lemma CarriesMore(history: seq<Logged>, ks: seq<nat>, ps: seq<Publish>, k: nat, more: seq<Publish>, filter: Text)
    requires CarriesAll(ps, history, ks) && k < |history|
    requires if Matches(filter, history[k].topic) then |more| == 1 && Carries(more[0], history[k], k) else more == []
    ensures CarriesAll(ps + more, history, ks + if Matches(filter, history[k].topic) then [k] else [])
  {
    hide Matches, Carries;
  }

  lemma RowIsWanted(m: Logged, k: U64, filter: Text)
    requires |m.topic| < 0x1_0000
    ensures var ps := FromRow((k, EncodeEvent(m.ts, m.topic, m.qos, m.payload)), filter);
            if Matches(filter, m.topic) then |ps| == 1 && Carries(ps[0], m, k) else ps == []
  {
    hide EncodeEvent, DecodeEvent, Matches;
    EventRoundTripExactly(m.ts, m.topic, m.qos, m.payload);
  }

  /**
   * Replaying a log that holds the messages from number `lo` on sends exactly the surviving ones at
   * offset `from` or later whose topic matches, in publication order, each with its own topic and payload,
   * at QoS 0, tagged with its offset.
   */
  lemma {:induction false} ReplayIsExact(history: seq<Logged>, lo: nat, from: U64, rows: seq<(U64, Bytes)>,
                                         filter: Text)
    requires |history| <= U64_SIZE
    requires forall k :: 0 <= k < |history| ==> |history[k].topic| < 0x1_0000
    requires IsRange(Span(BlobsOf(history), lo), from, rows)
    ensures var start := if lo <= from then from else lo;
            CarriesAll(FromRows(rows, filter), history, Wanted(history, start, |history|, filter))
  {
    hide EncodeEvent, DecodeEvent, Matches, Span, IsRange, CarriesAll;
    RangeOfSpan(BlobsOf(history), lo, from, rows);
    var start := if lo <= from then from else lo;
    if start <= |history| {
      RowsAreWanted(history, start, rows, filter);
    } else {
      NothingCarried(history, Wanted(history, start, |history|, filter), FromRows(rows, filter));
    }
  }

  lemma NothingCarried(history: seq<Logged>, ks: seq<nat>, ps: seq<Publish>)
    requires ks == [] && ps == []
    ensures CarriesAll(ps, history, ks)
  {
  }

  // ---- the log a run leaves ----

  /** The events journalled in a run. */
  function Events(run: Run): seq<Bytes> {
    if run == [] then []
    else
      var n := |run| - 1;
      Events(run[..n])
      + if run[n].0.Journal? && run[n].0.entry.AppendEvent? then [run[n].0.entry.blob] else []
  }

  /** Events are journalled under one retention bound, the configured one. */
  predicate OneBound(run: Run, retention: U64) {
    forall i :: 0 <= i < |run| && run[i].0.Journal? && run[i].0.entry.AppendEvent? ==>
      run[i].0.entry.retention == retention
  }

  lemma OneOpKeepsEvents(d: Disk, op: PersistOp)
    requires !op.AppendEvent?
    ensures Apply(d, op).events == d.events
  {
    hide Appended, WithoutPrefix;
  }

  lemma {:induction false} EventsUntouched(d: Disk, ops: seq<PersistOp>)
    requires forall op :: op in ops ==> !op.AppendEvent?
    ensures ApplyAll(d, ops).events == d.events
    decreases |ops|
  {
    hide Apply;
    if ops != [] {
      assert ops[0] in ops && forall op :: op in ops[1..] ==> op in ops;
      OneOpKeepsEvents(d, ops[0]);
      EventsUntouched(Apply(d, ops[0]), ops[1..]);
    }
  }

  /** Only a journalled event changes the log. */
  lemma StepLogs(h: HubState, step: Step, now: int, cfg: Config)
    requires Legal(h, step)
    ensures Settled(After(h, step, now, cfg)).events
         == if step.Journal? && step.entry.AppendEvent?
            then Appended(Settled(h).events, step.entry.blob, step.entry.retention) else Settled(h).events
  {
    var h' := After(h, step, now, cfg);
    if step.Write? {
      WriteSettles(h);
      hide Settled, Appended;
    } else if step.Journal? {
      hide Settled, Appended, WithoutPrefix;
      SettledAfterOne(h, h', step.entry);
    } else {
      hide After, Settled, Queued, Appended;
      QueueGrows(h, step, now, cfg);
      QueuedKinds(h, step, now, cfg);
      SettledAfter(h, h', Queued(h, step, now, cfg));
      EventsUntouched(Settled(h), Queued(h, step, now, cfg));
    }
  }

  /** The log of a run is its events, appended in order. */
  lemma {:induction false} LogOfRun(h: HubState, run: Run, cfg: Config, retention: U64)
    requires LegalRun(h, run, cfg) && OneBound(run, retention) && Settled(h).events == map[]
    ensures Settled(AfterAll(h, run, cfg)).events == AppendAll(map[], Events(run), retention)
  {
    hide After, Settled, Appended, Legal;
    if run != [] {
      var n := |run| - 1;
      LegalLast(h, run, cfg);
      hide LegalRun;
      assert forall i :: 0 <= i < n ==> run[..n][i] == run[i];
      LogOfRun(h, run[..n], cfg, retention);
      StepLogs(AfterAll(h, run[..n], cfg), run[n].0, run[n].1, cfg);
      if run[n].0.Journal? && run[n].0.entry.AppendEvent? {
        var events := Events(run[..n]);
        assert (events + [run[n].0.entry.blob])[..|events|] == events;
      } else {
        assert Events(run[..n]) + [] == Events(run[..n]);
      }
    }
  }

  /**
   * Replay at the end of any run: of the messages journalled in it, those among the last `retention`,
   * at offset `from` or later, with a matching topic, in publication order.
   */
  lemma {:induction false} ReplayOfRun(run: Run, cfg: Config, retention: U64, history: seq<Logged>, from: U64,
                                       rows: seq<(U64, Bytes)>, filter: Text)
    requires LegalRun(FIRST, run, cfg) && OneBound(run, retention) && retention > 0
    requires Events(run) == BlobsOf(history) && |history| <= U64_SIZE
    requires forall k :: 0 <= k < |history| ==> |history[k].topic| < 0x1_0000
    requires IsRange(Settled(AfterAll(FIRST, run, cfg)).events, from, rows)
    ensures var n := |history|;
            var kept := if n <= retention then 0 else n - retention;
            var start := if kept <= from then from else kept;
            CarriesAll(FromRows(rows, filter), history, Wanted(history, start, n, filter))
  {
    hide After, Matches, EncodeEvent, DecodeEvent, AfterAll, IsRange, Span, LegalRun, CarriesAll;
    LogOfRun(FIRST, run, cfg, retention);
    hide Settled;
    var n := |history|;
    LogHoldsTheLatest(BlobsOf(history), retention);
    assert BlobsOf(history)[..n] == BlobsOf(history);
    ReplayIsExact(history, if n <= retention then 0 else n - retention, from, rows, filter);
  }
}
