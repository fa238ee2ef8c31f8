/**
 * Every session in the broker's table has a full account: a run of the session from its creation that
 * ends in exactly the state found in the table. What is proved of session runs therefore holds of it.
 */
module Accounts {
  import opened Basics
  import opened Sessions
  import opened Codec
  import D = Delivery
  import G = Guarantees
  import opened Broker
  import opened Table

  /** A session's creation and everything that happened to it since. */
  datatype Story = Story(client: Text, tx: Option<seq<Packet>>, expiry: U32, generation: nat, born: int, trace: D.Trace)

  function LedgerOf(story: Story, cfg: RetryConfig): (led: D.Ledger)
    ensures |led.ids| == |led.s.inflight|
  {
    D.AfterTrace(D.Start(story.client, story.tx, story.expiry, story.generation, cfg, story.born), story.trace)
  }

  predicate Tells(story: Story, s: SessionState, cfg: RetryConfig, now: int) {
    && D.Monotone(story.born, story.trace) && D.Clock(story.born, story.trace) <= now
    && var led := LedgerOf(story, cfg);
       led.s == s && led.open && led.cfg == cfg
  }

  ghost predicate Accounted(s: SessionState, cfg: RetryConfig, now: int) {
    exists story :: Tells(story, s, cfg, now)
  }

  lemma CreatedAccounted(client: Text, tx: Option<seq<Packet>>, expiry: U32, generation: nat, cfg: RetryConfig,
                         now: int)
    ensures Accounted(NewSession(client, tx, expiry, generation), cfg, now)
  {
    assert Tells(Story(client, tx, expiry, generation, now, []), NewSession(client, tx, expiry, generation), cfg, now);
  }

  lemma RecordSteps(led: D.Ledger, act: Act, now: int)
    requires |led.ids| == |led.s.inflight| && led.open
    ensures var led' := D.Record(led, D.Live(act), now);
            led'.open && led'.cfg == led.cfg && led'.s == Stepped(led.s, act, now, led.cfg)
  {
    hide D.Kept, D.Pick, D.Burials, D.SetOf, Sweep, Sent, Received, Delivered, Ticked, Retransmitted;
  }

  lemma ActAccounted(s: SessionState, act: Act, cfg: RetryConfig, before: int, now: int)
    requires Accounted(s, cfg, before) && before <= now
    ensures Accounted(Stepped(s, act, now, cfg), cfg, now)
  {
    hide Stepped, D.Record, D.Start;
    var story :| Tells(story, s, cfg, before);
    var longer := story.(trace := story.trace + [(D.Live(act), now)]);
    assert longer.trace[..|story.trace|] == story.trace;
    RecordSteps(LedgerOf(story, cfg), act, now);
    assert Tells(longer, Stepped(s, act, now, cfg), cfg, now);
  }

  lemma LaterAccounted(s: SessionState, cfg: RetryConfig, before: int, now: int)
    requires Accounted(s, cfg, before) && before <= now
    ensures Accounted(s, cfg, now)
  {
    hide LedgerOf, D.Monotone;
    var story :| Tells(story, s, cfg, before);
    assert Tells(story, s, cfg, now);
  }

  lemma {:induction false} ActsAccounted(s: SessionState, acts: seq<Act>, cfg: RetryConfig, before: int, now: int)
    requires Accounted(s, cfg, before) && before <= now
    ensures Accounted(SteppedAll(s, acts, now, cfg), cfg, now)
    decreases |acts|
  {
    hide Accounted, Stepped;
    if acts == [] {
      LaterAccounted(s, cfg, before, now);
    } else {
      ActAccounted(s, acts[0], cfg, before, now);
      ActsAccounted(Stepped(s, acts[0], now, cfg), acts[1..], cfg, now, now);
    }
  }

  /** Whatever is proved of every session run holds of an accounted session. */
  lemma AccountedIsReached(s: SessionState, cfg: RetryConfig, now: int) returns (led: D.Ledger)
    requires Accounted(s, cfg, now)
    ensures G.Reached(led) && D.Inv(led) && led.s == s && led.cfg == cfg && led.open
  {
    var story :| Tells(story, s, cfg, now);
    led := LedgerOf(story, cfg);
    assert G.Reached(led);
    G.ReachedInv(led);
  }

  /** The queue of such a session holds only entries the blob format can express, up to their lengths. */
  lemma QueueIsStorable(s: SessionState, cfg: RetryConfig, now: int)
    requires Accounted(s, cfg, now)
    ensures s.nextId != 0
    ensures forall k :: 0 <= k < |s.inflight| ==> Storable(s.inflight[k])
  {
    var led := AccountedIsReached(s, cfg, now);
    hide G.Reached, D.Conserved, D.Timely, Accounted;
    forall k | 0 <= k < |s.inflight| ensures Storable(s.inflight[k]) {
      assert D.EntryOk(s.inflight[k], led.ids[k], led.msgs[led.ids[k]]);
    }
  }

  // ---- over the table ----

  ghost predicate AllAccounted(h: HubState, cfg: RetryConfig, now: int) {
    forall id :: id in h.byId ==> Accounted(h.byId[id], cfg, now)
  }

  lemma StepAccounts(h: HubState, step: Step, before: int, now: int, cfg: Config)
    requires AllAccounted(h, cfg.retry, before) && before <= now && Inverse(h)
    ensures AllAccounted(After(h, step, now, cfg), cfg.retry, now)
  {
    hide Accounted, Inverse, Stepped, SteppedAll, SavesAny, NewSession;
    var h' := After(h, step, now, cfg);
    forall id | id in h'.byId ensures Accounted(h'.byId[id], cfg.retry, now) {
      if id in h.byId {
        LaterAccounted(h.byId[id], cfg.retry, before, now);
      }
      match step
      case Connect(client, _, expiry) =>
        CreatedAccounted(client, Some([]), expiry, h.generation + 1, cfg.retry, now);
        if id in h.byId {
          ActAccounted(h.byId[id], Resume(expiry, h.generation + 1), cfg.retry, before, now);
        }
      case Leave(_, _) =>
        if id in h.byId {
          ActAccounted(h.byId[id], Detach, cfg.retry, before, now);
          DetachIs(h.byId[id], now, cfg.retry);
        }
      case Touch(_, acts) =>
        if id in h.byId {
          ActsAccounted(h.byId[id], acts, cfg.retry, before, now);
        }
      case _ =>
    }
  }

  lemma DetachIs(s: SessionState, now: int, cfg: RetryConfig)
    ensures Stepped(s, Detach, now, cfg) == s.(tx := None)
  {
  }

  /** The clock of a run never runs backwards. */
  predicate Clocked(start: int, run: Run) {
    forall i :: 0 <= i < |run| ==> start <= run[i].1 && (i > 0 ==> run[i - 1].1 <= run[i].1)
  }

  function EndOf(start: int, run: Run): int {
    if run == [] then start else run[|run| - 1].1
  }

  /** In every reachable state of the broker, every session in the table is accounted for. */
  lemma {:induction false} EverySessionIsAccounted(h: HubState, run: Run, cfg: Config, start: int)
    requires TableOk(h) && AllAccounted(h, cfg.retry, start) && LegalRun(h, run, cfg) && Clocked(start, run)
    ensures AllAccounted(AfterAll(h, run, cfg), cfg.retry, EndOf(start, run))
  {
    hide After, TableOk, Legal, LegalRun, AllAccounted;
    if run != [] {
      var n := |run| - 1;
      LegalLast(h, run, cfg);
      assert forall i :: 0 <= i < n ==> run[..n][i] == run[i];
      EverySessionIsAccounted(h, run[..n], cfg, start);
      EveryRunKeepsTable(h, run[..n], cfg);
      TableInverse(AfterAll(h, run[..n], cfg));
      StepAccounts(AfterAll(h, run[..n], cfg), run[n].0, EndOf(start, run[..n]), run[n].1, cfg);
    }
  }

  lemma TableInverse(h: HubState)
    requires TableOk(h)
    ensures Inverse(h)
  {
  }

  // ---- leaving the table ----

  /** How a session's account is closed by the step that takes it out of the table. */
  function Ending(step: Step): D.Event {
    if step.Purge? then D.Expire else D.Discard
  }

  lemma StoryOf(s: SessionState, cfg: RetryConfig, before: int, e: D.Event, now: int)
      returns (led: D.Ledger, ended: D.Ledger)
    requires Accounted(s, cfg, before) && before <= now
    ensures G.Reached(led) && led.s == s && led.cfg == cfg && led.open && |led.ids| == |led.s.inflight|
    ensures ended == D.Record(led, e, now) && G.Reached(ended)
  {
    hide D.Record, D.Start;
    var story :| Tells(story, s, cfg, before);
    led := LedgerOf(story, cfg);
    var longer := story.(trace := story.trace + [(e, now)]);
    assert longer.trace[..|story.trace|] == story.trace;
    ended := LedgerOf(longer, cfg);
    assert D.Monotone(longer.born, longer.trace);
  }

  lemma OnlyTheseEnd(h: HubState, step: Step, now: int, cfg: Config, id: ClientId)
    requires id in h.byId && id !in After(h, step, now, cfg).byId
    ensures step.Purge? || step.Leave? || (step.Connect? && step.cleanStart)
  {
    hide Stepped, SteppedAll, SavesAny, Snapshot;
  }

  /**
   * Message `n` is dropped when its session goes: it is queued then, and, at a purge, it waits for PUBCOMP
   * or is itself a dead letter.
   */
  predicate DroppedAt(led: D.Ledger, step: Step, n: nat)
    requires |led.ids| == |led.s.inflight|
  {
    exists k :: 0 <= k < |led.ids| && led.ids[k] == n
      && (step.Purge? ==>
            led.s.inflight[k].state.Qos2AwaitComp? || IsDlqTopic(led.s.inflight[k].state.publish.topic))
  }

  /**
   * A session leaves the table only by a purge, by leaving with an expiry interval of 0, or by a clean
   * start. Its account is closed then, and every message it ever queued has been acknowledged,
   * dead-lettered once or dropped. A purge dead-letters what the session had not delivered; the other
   * two dead-letter nothing.
   */
  lemma LeavingClosesTheAccount(h: HubState, step: Step, before: int, now: int, cfg: Config, id: ClientId)
      returns (led: D.Ledger, ended: D.Ledger)
    requires AllAccounted(h, cfg.retry, before) && before <= now
    requires id in h.byId && id !in After(h, step, now, cfg).byId
    ensures step.Purge? || step.Leave? || (step.Connect? && step.cleanStart)
    ensures G.Reached(led) && led.s == h.byId[id] && led.open && |led.ids| == |led.s.inflight|
    ensures ended == D.Record(led, Ending(step), now) && D.Inv(ended) && !ended.open && ended.msgs == led.msgs
    ensures forall n :: 0 <= n < |ended.msgs| ==>
      G.One(n in ended.acked) + G.TimesBuried(ended.dead, n) + G.One(n in ended.dropped) == 1
    ensures ended.dead == led.dead + if step.Purge? then D.Burials(Drain, led.s.inflight, led.ids, now) else []
    ensures step.Purge? ==> |ended.dead| == |led.dead| + |Buried(Drain, h.byId[id].inflight)|
    ensures forall n :: n in ended.dropped <==> n in led.dropped || DroppedAt(led, step, n)
  {
    OnlyTheseEnd(h, step, now, cfg, id);
    hide After, Accounted;
    led, ended := StoryOf(h.byId[id], cfg.retry, before, Ending(step), now);
    CloseAccount(led, Ending(step), now);
    G.ReachedInv(ended);
    hide G.Reached, D.Inv, D.Record;
    EndedDrops(led, step, now);
    EndedAccounts(ended);
  }

  lemma EndedDrops(led: D.Ledger, step: Step, now: int)
    requires G.Reached(led) && led.open && |led.ids| == |led.s.inflight|
    ensures forall n :: n in D.Record(led, Ending(step), now).dropped <==> n in led.dropped || DroppedAt(led, step, n)
  {
    hide G.Reached, D.Record, IsDlqTopic;
    forall n ensures n in D.Record(led, Ending(step), now).dropped <==> n in led.dropped || DroppedAt(led, step, n) {
      G.ClosingDrops(led, Ending(step), now, n);
    }
  }

  /** With nothing queued, every message has been acknowledged, dead-lettered once or dropped. */
  lemma EndedAccounts(ended: D.Ledger)
    requires G.Reached(ended) && ended.ids == []
    ensures forall n :: 0 <= n < |ended.msgs| ==>
      G.One(n in ended.acked) + G.TimesBuried(ended.dead, n) + G.One(n in ended.dropped) == 1
  {
    hide G.Reached;
    forall n | 0 <= n < |ended.msgs|
      ensures G.One(n in ended.acked) + G.TimesBuried(ended.dead, n) + G.One(n in ended.dropped) == 1
    {
      G.EachMessageInOnePlace(ended, n);
      NoneQueued(n);
    }
  }

  lemma NoneQueued(n: nat)
    ensures G.Times([], n) == 0
  {
  }

  lemma CloseAccount(led: D.Ledger, e: D.Event, now: int)
    requires G.Reached(led) && led.open && |led.ids| == |led.s.inflight| && !e.Live?
    ensures var ended := D.Record(led, e, now);
            && !ended.open && ended.ids == [] && ended.msgs == led.msgs
            && ended.dead == led.dead + (if e.Expire? then D.Burials(Drain, led.s.inflight, led.ids, now) else [])
            && (e.Expire? ==> |ended.dead| == |led.dead| + |Buried(Drain, led.s.inflight)|)
  {
    G.ReachedInv(led);
    hide G.Reached, D.Conserved, D.Timely, D.Kept, D.Pick, D.SetOf, D.EntryOk;
    G.BurialsAreDeadLetters(Drain, led.s.inflight, led.ids, led.msgs, now);
    hide D.Burials, Buried;
    assert led.dead + [] == led.dead;
  }
}
