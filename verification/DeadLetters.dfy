/** Where dead letters go, and what is kept of them (`dead_letter` in crates/relay-server/src/hub.rs). */
module DeadLetters {
  import opened Basics
  import opened Topics
  import opened Access
  import opened Sessions
  import opened Codec
  import opened EventLog
  import opened Storage
  import opened Broker
  import opened Agreement
  import opened Calls
  import Replay
  import R = Routing

  // ---- the topic ----

  /**
   * A dead letter appears two levels below the topic it died on: `$dlq`, then its client, then the whole
   * original topic. An operator watching `$dlq/{client}/#` sees exactly the dead letters of that client.
   */
  lemma LetterTopic(client: Text, topic: Text, watched: Text)
    requires SLASH !in client && SLASH !in watched && PLUS !in watched && HASH !in watched
    ensures Split(DlqTopic(client, topic)) == [DLQ_LEVEL, client] + Split(topic)
    ensures Matches(WatchOf(watched), DlqTopic(client, topic)) <==> watched == client
  {
    LetterLevels(client, topic);
    WatchLevels(watched);
    WatchMatches(watched, client, Split(topic));
    FirstByte(WatchOf(watched));
    hide Split, LevelsMatch, DlqTopic, WatchOf;
  }

  /** `$dlq/{client}/#` */
  function WatchOf(client: Text): Text {
    DLQ_LEVEL + [SLASH] + client + [SLASH] + ANY_REST
  }

  lemma LetterLevels(client: Text, topic: Text)
    requires SLASH !in client
    ensures Split(DlqTopic(client, topic)) == [DLQ_LEVEL, client] + Split(topic)
  {
    LevelFirst(DLQ_LEVEL, client + [SLASH] + topic);
    LevelFirst(client, topic);
    hide Split;
    assert DlqTopic(client, topic) == DLQ_LEVEL + [SLASH] + (client + [SLASH] + topic);
  }

  lemma WatchLevels(client: Text)
    requires SLASH !in client
    ensures Split(WatchOf(client)) == [DLQ_LEVEL, client, ANY_REST]
  {
    LevelFirst(DLQ_LEVEL, client + [SLASH] + ANY_REST);
    LevelFirst(client, ANY_REST);
    OneLevel(ANY_REST);
    hide Split;
    assert WatchOf(client) == DLQ_LEVEL + [SLASH] + (client + [SLASH] + ANY_REST);
  }

  lemma WatchMatches(watched: Text, client: Text, rest: Levels)
    requires PLUS !in watched && HASH !in watched
    ensures LevelsMatch([DLQ_LEVEL, watched, ANY_REST], [DLQ_LEVEL, client] + rest) <==> watched == client
  {
    var f, t: Levels := [DLQ_LEVEL, watched, ANY_REST], [DLQ_LEVEL, client] + rest;
    assert f[1..] == [watched, ANY_REST] && t[1..] == [client] + rest;
    assert f[1..][1..] == [ANY_REST] && t[1..][1..] == rest;
    assert PLUS in ANY_ONE && HASH in ANY_REST;
    assert LevelsMatch([ANY_REST], rest);
    assert LevelsMatch(f[1..], t[1..]) <==> watched == client;
  }

  // ---- the record ----

  datatype Obituary = Obituary(attempts: U32, reason: Text, client: Text, topic: Text, qos: QoS, payload: Bytes)

  /** A reader for the documented layout: time, attempts, reason, client, topic, QoS, payload. */
  function ReadRecord(blob: Bytes): Option<Obituary> {
    var (_, b1) :- Take(blob, 8);
    var (attempts, b2) :- TakeU32(b1);
    var (reason, b3) :- TakeShort(b2);
    var (client, b4) :- TakeShort(b3);
    var (topic, b5) :- TakeShort(b4);
    var (level, payload) :- TakeU8(b5);
    var qos :- QoS.FromByte(level);
    Some(Obituary(attempts, reason, client, topic, qos, payload))
  }

  /** The record of a dead letter holds its client, reason, attempts, topic, QoS and payload. */
  lemma RecordReadsBack(ts: U64, client: Text, msg: DeadMsg, reason: Text)
    requires |reason| < 0x1_0000 && |client| < 0x1_0000 && |msg.publish.topic| < 0x1_0000
    ensures var p := msg.publish;
            ReadRecord(RecordOf(ts, client, msg, reason))
            == Some(Obituary(msg.attempts, reason, client, p.topic, p.qos, p.payload))
  {
    hide U64Bytes, U32Bytes, Short, TakeU32, TakeShort;
    var p := msg.publish;
    var b5 := [p.qos.Level()] + p.payload;
    var b4 := Short(p.topic) + b5;
    var b3 := Short(client) + b4;
    var b2 := Short(reason) + b3;
    var b1 := U32Bytes(msg.attempts) + b2;
    var blob := RecordOf(ts, client, msg, reason);
    assert blob == U64Bytes(ts) + b1;
    assert blob[8..] == b1 && b5[1..] == p.payload;
    U32Back(msg.attempts, b2);
    ShortBack(reason, b3);
    ShortBack(client, b4);
    ShortBack(p.topic, b5);
  }

  // ---- the table of records ----

  /** The records journalled in a run. */
  function Records(run: Run): seq<Bytes> {
    if run == [] then []
    else
      var n := |run| - 1;
      Records(run[..n]) + if run[n].0.Journal? && run[n].0.entry.AppendDeadLetter? then [run[n].0.entry.blob] else []
  }

  lemma OneOpKeepsDead(d: Disk, op: PersistOp)
    requires !op.AppendDeadLetter?
    ensures Apply(d, op).dead == d.dead
  {
    hide Appended, WithoutPrefix;
  }

  lemma {:induction false} DeadUntouched(d: Disk, ops: seq<PersistOp>)
    requires forall op :: op in ops ==> !op.AppendDeadLetter?
    ensures ApplyAll(d, ops).dead == d.dead
    decreases |ops|
  {
    hide Apply;
    if ops != [] {
      assert ops[0] in ops && forall op :: op in ops[1..] ==> op in ops;
      OneOpKeepsDead(d, ops[0]);
      DeadUntouched(Apply(d, ops[0]), ops[1..]);
    }
  }

  lemma StepBuries(h: HubState, step: Step, now: int, cfg: Config)
    requires Legal(h, step)
    ensures Settled(After(h, step, now, cfg)).dead
         == if step.Journal? && step.entry.AppendDeadLetter? then Appended(Settled(h).dead, step.entry.blob, 0)
            else Settled(h).dead
  {
    var h' := After(h, step, now, cfg);
    if step.Write? {
      WriteSettles(h);
      hide Settled, Appended;
    } else if step.Journal? {
      hide Settled, Appended, WithoutPrefix;
      SettledAfterOne(h, h', step.entry);
    } else {
      hide After, Settled, Queued, Appended;
      QueueGrows(h, step, now, cfg);
      QueuedKinds(h, step, now, cfg);
      SettledAfter(h, h', Queued(h, step, now, cfg));
      DeadUntouched(Settled(h), Queued(h, step, now, cfg));
    }
  }

  /** Over every run the table keeps every record, in order, each under its own number from 0 up. */
  lemma {:induction false} EveryRecordIsKept(run: Run, cfg: Config)
    requires LegalRun(FIRST, run, cfg) && |Records(run)| <= U64_SIZE
    ensures Settled(AfterAll(FIRST, run, cfg)).dead == Span(Records(run), 0)
  {
    hide After, Settled, Appended, Legal, LegalRun, Span;
    if run == [] {
      EmptySpan(Records(run));
      NothingDead();
    } else {
      var n := |run| - 1;
      LegalLast(FIRST, run, cfg);
      EveryRecordIsKept(run[..n], cfg);
      StepBuries(AfterAll(FIRST, run[..n], cfg), run[n].0, run[n].1, cfg);
      var before := Records(run[..n]);
      if run[n].0.Journal? && run[n].0.entry.AppendDeadLetter? {
        AppendToSpan(before, 0, run[n].0.entry.blob, 0);
      } else {
        assert before + [] == before;
      }
    }
  }

  lemma NothingDead()
    ensures Settled(FIRST).dead == map[]
  {
  }

  // ---- one record for each ----

  lemma {:induction false} RecordsMore(a: Run, b: Run)
    ensures Records(a + b) == Records(a) + Records(b)
  {
    if b == [] {
      assert a + b == a && Records(a) + [] == Records(a);
    } else {
      var n := |b| - 1;
      assert (a + b)[..|a + b| - 1] == a + b[..n] && (a + b)[|a + b| - 1] == b[n];
      RecordsMore(a, b[..n]);
    }
  }

  lemma {:induction false} NoRecords(run: Run)
    requires forall i :: 0 <= i < |run| ==> !(run[i].0.Journal? && run[i].0.entry.AppendDeadLetter?)
    ensures Records(run) == []
  {
    if run != [] {
      NoRecords(run[..|run| - 1]);
    }
  }

  lemma PublishRecordsNothing(ts: U64, targets: seq<R.Target>, topic: Text, payload: Bytes, qos: QoS, retain: bool,
                              now: int, cfg: Config)
    ensures Records(PublishRun(ts, targets, topic, payload, qos, retain, now, cfg)) == []
  {
    hide EncodeEvent, Records, StartsWith;
    var front := FrontRun(ts, topic, payload, qos, retain, now, cfg);
    var copies := CopyRun(targets, topic, payload, qos, now);
    NoRecords(front);
    NoRecords(copies);
    RecordsMore(front, copies);
  }

  /** This blob is the record of this message. */
  predicate IsRecord(blob: Bytes, client: Text, msg: DeadMsg, reason: Text) {
    var p := msg.publish;
    |reason| < 0x1_0000 && |client| < 0x1_0000 && |p.topic| < 0x1_0000 ==>
      ReadRecord(blob) == Some(Obituary(msg.attempts, reason, client, p.topic, p.qos, p.payload))
  }

  lemma OneRecord(h: HubState, run: Run, client: Text, msg: DeadMsg, reason: Text, now: int, cfg: Config)
    requires IsDeadLetter(h, run, client, msg, reason, now, cfg) && !IsDlqTopic(msg.publish.topic)
    ensures |Records(run)| == 1 && IsRecord(Records(run)[0], client, msg, reason)
  {
    hide RecordOf, ReadRecord, PublishRun, IsDlqTopic, DlqTopic, IsTargets;
    var ts: U64, rest: Run :|
      && run == [(Journal(AppendDeadLetter(RecordOf(ts, client, msg, reason))), now)] + rest
      && IsPublish(h, rest, DlqTopic(client, msg.publish.topic), msg.publish.payload, msg.publish.qos, false, now, cfg);
    var ts', targets :| IsTargets(h, DlqTopic(client, msg.publish.topic), targets)
      && rest == PublishRun(ts', targets, DlqTopic(client, msg.publish.topic), msg.publish.payload, msg.publish.qos,
                            false, now, cfg);
    PublishRecordsNothing(ts', targets, DlqTopic(client, msg.publish.topic), msg.publish.payload, msg.publish.qos,
                          false, now, cfg);
    var first: Run := [(Journal(AppendDeadLetter(RecordOf(ts, client, msg, reason))), now)];
    RecordsMore(first, rest);
    assert first[..0] == [];
    assert Records(first) == [RecordOf(ts, client, msg, reason)];
    if |reason| < 0x1_0000 && |client| < 0x1_0000 && |msg.publish.topic| < 0x1_0000 {
      RecordReadsBack(ts, client, msg, reason);
    }
  }

  /** Dead-lettering a list of messages leaves one record for each, in order, that reads back as the message. */
  lemma {:induction false} OneRecordEach(h: HubState, run: Run, dead: seq<(Text, DeadMsg)>, reason: Text, now: int,
                                         cfg: Config)
    requires IsDeadLetters(h, run, dead, reason, now, cfg)
    requires forall i :: 0 <= i < |dead| ==> !IsDlqTopic(dead[i].1.publish.topic)
    ensures |Records(run)| == |dead|
    ensures forall i :: 0 <= i < |dead| ==> IsRecord(Records(run)[i], dead[i].0, dead[i].1, reason)
    decreases |dead|
  {
    hide IsRecord, IsDlqTopic, IsDeadLetter, AfterAll;
    if dead != [] {
      var n := |dead| - 1;
      var before: Run, last: Run :|
        && run == before + last && IsDeadLetters(h, before, dead[..n], reason, now, cfg)
        && IsDeadLetter(AfterAll(h, before, cfg), last, dead[n].0, dead[n].1, reason, now, cfg);
      assert forall i :: 0 <= i < n ==> dead[..n][i] == dead[i];
      OneRecordEach(h, before, dead[..n], reason, now, cfg);
      OneRecord(AfterAll(h, before, cfg), last, dead[n].0, dead[n].1, reason, now, cfg);
      RecordsMore(before, last);
    }
  }

  // ---- what a publish journals ----

  /**
   * A publish journals its message once, exactly when the log is on and the topic does not begin with `$`,
   * under the configured bound; so a dead letter is never journalled. What is journalled reads back as the
   * message if its topic is one MQTT allows.
   */
  lemma PublishJournals(ts: U64, targets: seq<R.Target>, topic: Text, payload: Bytes, qos: QoS, retain: bool, now: int,
                        cfg: Config)
    ensures var run := PublishRun(ts, targets, topic, payload, qos, retain, now, cfg);
            && Replay.OneBound(run, cfg.eventLogMax)
            && (if cfg.eventLogMax > 0 && !(topic != [] && topic[0] == DOLLAR)
                then |Replay.Events(run)| == 1
                     && (|topic| < 0x1_0000 ==> DecodeEvent(Replay.Events(run)[0]) == Some((topic, payload, qos)))
                else Replay.Events(run) == [])
  {
    hide EncodeEvent, DecodeEvent;
    var front := FrontRun(ts, topic, payload, qos, retain, now, cfg);
    var copies := CopyRun(targets, topic, payload, qos, now);
    EventRoundTripExactly(ts, topic, qos, payload);
    EventsMore(front, copies);
    NoEvents(copies);
    FrontEvents(ts, topic, payload, qos, retain, now, cfg);
    hide FrontRun, CopyRun, Replay.Events;
    assert Replay.Events(front) + [] == Replay.Events(front);
    FrontBound(ts, topic, payload, qos, retain, now, cfg);
    assert Replay.OneBound(copies, cfg.eventLogMax);
  }

  lemma FrontBound(ts: U64, topic: Text, payload: Bytes, qos: QoS, retain: bool, now: int, cfg: Config)
    ensures Replay.OneBound(FrontRun(ts, topic, payload, qos, retain, now, cfg), cfg.eventLogMax)
  {
    hide EncodeEvent;
  }

  lemma FrontEvents(ts: U64, topic: Text, payload: Bytes, qos: QoS, retain: bool, now: int, cfg: Config)
    ensures Replay.Events(FrontRun(ts, topic, payload, qos, retain, now, cfg))
         == if cfg.eventLogMax > 0 && !(topic != [] && topic[0] == DOLLAR) then [EncodeEvent(ts, topic, qos, payload)]
            else []
  {
    hide EncodeEvent, Replay.Events;
    var r1: Run := if retain then [(Retain(topic, payload, qos), now)] else [];
    var r2: Run := if cfg.eventLogMax > 0 && !StartsWith(topic, [DOLLAR])
                   then [(Journal(AppendEvent(EncodeEvent(ts, topic, qos, payload), cfg.eventLogMax)), now)] else [];
    var r3: Run := [(Route(topic), now)];
    EventsMore(r1 + r2, r3);
    EventsMore(r1, r2);
    NoEvents(r1);
    NoEvents(r3);
    OneEvent(AppendEvent(EncodeEvent(ts, topic, qos, payload), cfg.eventLogMax), now);
    NoEvents([]);
    assert StartsWith(topic, [DOLLAR]) <==> topic != [] && topic[0] == DOLLAR;
  }

  lemma OneEvent(op: PersistOp, now: int)
    requires op.AppendEvent?
    ensures Replay.Events([(Journal(op), now)]) == [op.blob]
  {
    assert [(Journal(op), now)][..0] == [];
  }

  lemma {:induction false} EventsMore(a: Run, b: Run)
    ensures Replay.Events(a + b) == Replay.Events(a) + Replay.Events(b)
  {
    if b == [] {
      assert a + b == a && Replay.Events(a) + [] == Replay.Events(a);
    } else {
      var n := |b| - 1;
      assert (a + b)[..|a + b| - 1] == a + b[..n] && (a + b)[|a + b| - 1] == b[n];
      EventsMore(a, b[..n]);
    }
  }

  lemma {:induction false} NoEvents(run: Run)
    requires forall i :: 0 <= i < |run| ==> !run[i].0.Journal?
    ensures Replay.Events(run) == []
  {
    if run != [] {
      NoEvents(run[..|run| - 1]);
    }
  }
}
