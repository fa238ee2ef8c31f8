/** What the ledger of a session means for its messages: the delivery guarantees, read off every run. */
module Guarantees {
  import opened Basics
  import opened Sessions
  import opened Delivery

  ghost predicate Reached(led: Ledger) {
    exists clientId: Text, tx, expiry: U32, generation: nat, cfg, clock, trace ::
      Monotone(clock, trace) && led == AfterTrace(Start(clientId, tx, expiry, generation, cfg, clock), trace)
  }

  lemma ReachedInv(led: Ledger)
    requires Reached(led)
    ensures Inv(led)
  {
    var clientId: Text, tx, expiry: U32, generation: nat, cfg, clock, trace :|
      Monotone(clock, trace) && led == AfterTrace(Start(clientId, tx, expiry, generation, cfg, clock), trace);
    StartInv(clientId, tx, expiry, generation, cfg, clock);
    EveryRunKeeps(Start(clientId, tx, expiry, generation, cfg, clock), trace);
  }

  // ---- conservation ----

  function One(b: bool): nat { if b then 1 else 0 }

  function TimesBuried(dead: seq<Burial>, n: nat): nat {
    if dead == [] then 0 else TimesBuried(dead[..|dead| - 1], n) + One(dead[|dead| - 1].serial == n)
  }

  function Times(ids: seq<nat>, n: nat): nat {
    if ids == [] then 0 else Times(ids[..|ids| - 1], n) + One(ids[|ids| - 1] == n)
  }

  lemma {:induction false} CountDistinct(ids: seq<nat>, n: nat)
    requires forall i, j :: 0 <= i < j < |ids| ==> ids[i] != ids[j]
    ensures Times(ids, n) == One(n in SetOf(ids))
  {
    if ids != [] {
      var k := |ids| - 1;
      CountDistinct(ids[..k], n);
      assert ids == ids[..k] + [ids[k]];
    }
  }

  lemma {:induction false} CountBurials(dead: seq<Burial>, n: nat)
    requires forall i, j :: 0 <= i < j < |dead| ==> dead[i].serial != dead[j].serial
    ensures TimesBuried(dead, n) == One(n in DeadSet(dead))
  {
    if dead != [] {
      var k := |dead| - 1;
      CountBurials(dead[..k], n);
      assert dead == dead[..k] + [dead[k]];
      assert DeadSet(dead) == DeadSet(dead[..k]) + {dead[k].serial};
    }
  }

  /**
   * In every run each QoS 1/2 delivery is in exactly one place, once: queued, acknowledged,
   * dead-lettered, or dropped with its session. A `$dlq/` message is never dead-lettered.
   */
  lemma EachMessageInOnePlace(led: Ledger, n: nat)
    requires Reached(led) && n < |led.msgs|
    ensures Times(led.ids, n) + One(n in led.acked) + TimesBuried(led.dead, n) + One(n in led.dropped) == 1
    ensures IsDlqTopic(led.msgs[n].topic) ==> TimesBuried(led.dead, n) == 0
  {
    ReachedInv(led);
    CountDistinct(led.ids, n);
    CountBurials(led.dead, n);
    assert n in Below(|led.msgs|);
    if n in DeadSet(led.dead) {
      var b :| b in led.dead && b.serial == n;
      var i :| 0 <= i < |led.dead| && led.dead[i] == b;
      assert FairBurial(led.dead[i], led.msgs[n], led.cfg);
    }
  }

  /** The messages a pass hands over for dead-lettering are the buried deliveries, as first sent. */
  lemma {:induction false} BurialsAreDeadLetters(pass: Pass, q: seq<Entry>, ids: seq<nat>, msgs: seq<Msg>, at: int)
    requires |ids| == |q|
    requires forall k :: 0 <= k < |q| ==> ids[k] < |msgs| && EntryOk(q[k], ids[k], msgs[ids[k]])
    ensures |Burials(pass, q, ids, at)| == |Buried(pass, q)|
    ensures forall i :: 0 <= i < |Buried(pass, q)| ==>
              var b := Burials(pass, q, ids, at)[i];
              b.serial < |msgs| && Buried(pass, q)[i] == DeadMsg(Original(msgs[b.serial], b.serial), b.attempts)
  {
    if q != [] {
      var n := |q| - 1;
      BurialsAreDeadLetters(pass, q[..n], ids[..n], msgs, at);
      assert EntryOk(q[n], ids[n], msgs[ids[n]]);
    }
  }

  // ---- no early dead letters ----

  /**
   * With m = max(1, max_attempts): whatever reconnects re-arm the retry clock, the timer dead-letters
   * a message after exactly m attempts, and not before the first m back-offs have passed since it was
   * enqueued.
   */
  lemma NeverDeadLetteredEarly(led: Ledger, i: nat)
    requires Reached(led) && i < |led.dead| && led.dead[i].byTimer
    ensures led.dead[i].serial < |led.msgs|
    ensures led.dead[i].attempts == Max(1, led.cfg.maxAttempts)
    ensures led.dead[i].at >= led.msgs[led.dead[i].serial].born + Elapsed(led.cfg, Max(1, led.cfg.maxAttempts))
  {
    ReachedInv(led);
    assert FairBurial(led.dead[i], led.msgs[led.dead[i].serial], led.cfg);
  }

  // ---- ordering ----

  /** The packet a reconnect sends for a delivery: its PUBLISH as a duplicate, or its PUBREL. */
  function Repeat(m: Msg, serial: nat, undelivered: bool): Packet {
    if undelivered then PublishPacket(Original(m, serial).(dup := true)) else PubRel(PidOf(serial))
  }

  /**
   * In every run the queue is in allocation order, each entry waits with the message as first sent
   * (never marked as a duplicate), and a reconnect puts exactly one packet per entry, in that order, on
   * the new connection.
   */
  lemma RetransmissionInOrder(led: Ledger, expiry: U32, generation: nat, now: int)
    requires Reached(led)
    ensures |led.ids| == |led.s.inflight| && Increasing(led.ids)
    ensures forall k :: 0 <= k < |led.ids| ==>
              led.ids[k] < |led.msgs| && EntryOk(led.s.inflight[k], led.ids[k], led.msgs[led.ids[k]])
    ensures var sent := Stepped(led.s, Resume(expiry, generation), now, led.cfg).tx.value;
            && |sent| == |led.ids|
            && forall k :: 0 <= k < |sent| ==>
                 sent[k] == Repeat(led.msgs[led.ids[k]], led.ids[k], Undelivered(led.s.inflight[k]))
  {
    ReachedInv(led);
    hide Stepped, Sent, Reached, Conserved, Timely, EntryOk;
    ResumeSends(led.s, expiry, generation, now, led.cfg);
    ResentInOrder(led.s.inflight, led.ids, led.msgs, Rearm(now, led.cfg));
  }

  lemma ResumeSends(s: SessionState, expiry: U32, generation: nat, now: int, cfg: RetryConfig)
    ensures Stepped(s, Resume(expiry, generation), now, cfg).tx == Some(Sent(Rearm(now, cfg), s.inflight))
  {
    hide Sent, Sweep;
    assert [] + Sent(Rearm(now, cfg), s.inflight) == Sent(Rearm(now, cfg), s.inflight);
  }

  lemma ResentInOrder(q: seq<Entry>, ids: seq<nat>, msgs: seq<Msg>, pass: Pass)
    requires pass.Rearm? && |ids| == |q|
    requires forall k :: 0 <= k < |q| ==> ids[k] < |msgs| && EntryOk(q[k], ids[k], msgs[ids[k]])
    ensures |Sent(pass, q)| == |q|
    ensures forall k :: 0 <= k < |q| ==> Sent(pass, q)[k] == Repeat(msgs[ids[k]], ids[k], Undelivered(q[k]))
  {
    RearmSendsEach(pass, q);
    forall k | 0 <= k < |q| ensures Sent(pass, q)[k] == Repeat(msgs[ids[k]], ids[k], Undelivered(q[k])) {
      assert EntryOk(q[k], ids[k], msgs[ids[k]]);
    }
  }

  lemma {:induction false} RearmSendsEach(pass: Pass, q: seq<Entry>)
    requires pass.Rearm?
    ensures |Sent(pass, q)| == |q| && forall k :: 0 <= k < |q| ==> Sent(pass, q)[k] == Again(q[k])
  {
    if q != [] {
      RearmSendsEach(pass, q[..|q| - 1]);
    }
  }

  // ---- the packet-id window ----

  /** One acknowledgement takes out exactly the entries of its kind whose serial is that id in the cycle. */
  lemma AckTakesOut(led: Ledger, pid: U16, k: nat)
    requires Ordered(led) && k < |led.ids|
    ensures Verdict(Puback(pid), led.s.inflight[k]).None?
       <==> led.s.inflight[k].state.Qos1? && PidOf(led.ids[k]) == pid
    ensures Verdict(Pubcomp(pid), led.s.inflight[k]).None?
       <==> led.s.inflight[k].state.Qos2AwaitComp? && PidOf(led.ids[k]) == pid
  {
    assert EntryOk(led.s.inflight[k], led.ids[k], led.msgs[led.ids[k]]);
  }

  predicate Window(led: Ledger) {
    led.ids != [] ==> |led.msgs| - led.ids[0] <= 65535
  }

  lemma PidsDistinct(m: nat, n: nat)
    requires m < n < m + 65535
    ensures PidOf(m) != PidOf(n)
  {
  }

  /**
   * While at most 65535 ids have been allocated from the oldest queued entry on, queued ids are
   * distinct and one PUBACK or PUBCOMP removes at most one entry.
   */
  lemma WindowKeepsIdsApart(led: Ledger, ack: Pass)
    requires Reached(led) && Window(led) && (ack.Puback? || ack.Pubcomp?)
    ensures |led.ids| == |led.s.inflight|
    ensures forall k, l :: 0 <= k < l < |led.ids| ==> PidOf(led.ids[k]) != PidOf(led.ids[l])
    ensures |Sweep(ack, led.s.inflight)| >= |led.s.inflight| - 1
  {
    ReachedInv(led);
    forall k, l | 0 <= k < l < |led.ids| ensures PidOf(led.ids[k]) != PidOf(led.ids[l]) {
      assert led.ids[0] <= led.ids[k];
      PidsDistinct(led.ids[k], led.ids[l]);
    }
    var q := led.s.inflight;
    if j :| 0 <= j < |q| && Verdict(ack, q[j]).None? {
      forall k | 0 <= k < |q| && k != j ensures Verdict(ack, q[k]).Some? {
        AckTakesOut(led, ack.pid, k);
        AckTakesOut(led, ack.pid, j);
      }
      KeepsAllBut(ack, q, j);
    } else {
      KeepsAllBut(ack, q, |q|);
    }
  }

  /** A pass that takes out at most the entry at `j` leaves all the others. */
  lemma {:induction false} KeepsAllBut(pass: Pass, q: seq<Entry>, j: nat)
    requires forall k :: 0 <= k < |q| && k != j ==> Verdict(pass, q[k]).Some?
    ensures |Sweep(pass, q)| >= |q| - One(j < |q|)
  {
    if q != [] {
      var n := |q| - 1;
      assert forall k :: 0 <= k < n ==> q[..n][k] == q[k];
      KeepsAllBut(pass, q[..n], j);
    }
  }

  const FLOOD: (Event, int) := (Live(Deliver([], [], AtLeastOnce, false)), 0)

  function Flood(n: nat): (t: Trace)
    ensures |t| == n && forall i :: 0 <= i < n ==> t[i] == FLOOD
  {
    if n == 0 then [] else Flood(n - 1) + [FLOOD]
  }

  predicate Flooded(led: Ledger, n: nat) {
    && Ordered(led) && led.open && |led.msgs| == |led.ids| == n
    && (forall k :: 0 <= k < n ==> led.ids[k] == k && led.s.inflight[k].state.Qos1?)
  }

  lemma FloodStep(led: Ledger, n: nat)
    requires Flooded(led, n)
    ensures Flooded(Record(led, FLOOD.0, FLOOD.1), n + 1)
  {
    DeliverKeepsOrder(led, FLOOD.0.act, 0);
    var led' := Record(led, FLOOD.0, FLOOD.1);
    forall k | 0 <= k < n + 1 ensures led'.ids[k] == k && led'.s.inflight[k].state.Qos1? {
      if k < n {
        assert led'.ids[k] == led.ids[k] && led'.s.inflight[k] == led.s.inflight[k];
      }
    }
  }

  lemma {:induction false} FloodQueues(led: Ledger, n: nat)
    requires Flooded(led, 0)
    ensures Flooded(AfterTrace(led, Flood(n)), n)
  {
    if n > 0 {
      FloodQueues(led, n - 1);
      assert Flood(n)[..n - 1] == Flood(n - 1);
      FloodStep(AfterTrace(led, Flood(n - 1)), n - 1);
    }
  }

  /** The bound is sharp: with one id more the window is lost, and one PUBACK acknowledges two messages. */
  lemma WindowIsSharp() returns (led: Ledger)
    ensures Reached(led) && |led.ids| == |led.s.inflight| == 65536 && |led.msgs| - led.ids[0] == 65536
    ensures Verdict(Puback(1), led.s.inflight[0]).None? && Verdict(Puback(1), led.s.inflight[65535]).None?
  {
    var first := Start([], None, 1, 1, RetryConfig(5, 5, 60), 0);
    StartInv([], None, 1, 1, RetryConfig(5, 5, 60), 0);
    FloodQueues(first, 65536);
    led := AfterTrace(first, Flood(65536));
    assert Monotone(0, Flood(65536));
    AckTakesOut(led, 1, 0);
    AckTakesOut(led, 1, 65535);
  }

  // ---- retry progress ----

  /** Every message that may still die has made between one and m attempts, as in every run. */
  predicate Counted(q: seq<Entry>, cfg: RetryConfig) {
    forall k :: 0 <= k < |q| && Mortal(q[k]) ==> 1 <= q[k].attempts <= Allowed(cfg)
  }

  function Remaining(e: Entry, cfg: RetryConfig): int {
    if Mortal(e) then Allowed(cfg) + 1 - e.attempts else 0
  }

  /** The attempts still ahead of the messages that may die. */
  function Work(q: seq<Entry>, cfg: RetryConfig): int {
    if q == [] then 0 else Work(q[..|q| - 1], cfg) + Remaining(q[|q| - 1], cfg)
  }

  lemma EntryProgress(e: Entry, now: int, cfg: RetryConfig)
    requires Mortal(e) ==> 1 <= e.attempts <= Allowed(cfg)
    ensures match Verdict(Retry(now, cfg), e)
            case None => Mortal(e) && e.nextDue <= now && Remaining(e, cfg) > 0
            case Some(e') =>
              && (Mortal(e') <==> Mortal(e))
              && (Mortal(e') ==> 1 <= e'.attempts <= Allowed(cfg))
              && (Mortal(e) && e.nextDue <= now ==> e'.attempts == e.attempts + 1 && e.attempts < cfg.maxAttempts)
              && (e.nextDue > now ==> e' == e)
  {
  }

  lemma SweepCounted(q: seq<Entry>, now: int, cfg: RetryConfig)
    requires Counted(q, cfg)
    ensures Counted(Sweep(Retry(now, cfg), q), cfg)
  {
    var r, ks := Sweep(Retry(now, cfg), q), Kept(Retry(now, cfg), q);
    SweepPartitions(Retry(now, cfg), q);
    forall k | 0 <= k < |r| && Mortal(r[k]) ensures 1 <= r[k].attempts <= Allowed(cfg) {
      EntryProgress(q[ks[k]], now, cfg);
    }
  }

  lemma WorkOfAppend(q: seq<Entry>, e: Entry, cfg: RetryConfig)
    ensures Work(q + [e], cfg) == Work(q, cfg) + Remaining(e, cfg)
  {
    assert (q + [e])[..|q|] == q;
  }

  predicate DueMortal(q: seq<Entry>, now: int) {
    exists k :: 0 <= k < |q| && Mortal(q[k]) && q[k].nextDue <= now
  }

  lemma LeftDecreases(e: Entry, now: int, cfg: RetryConfig)
    requires Mortal(e) ==> 1 <= e.attempts <= Allowed(cfg)
    ensures var after := match Verdict(Retry(now, cfg), e) case Some(e') => Remaining(e', cfg) case None => 0;
            0 <= after <= Remaining(e, cfg) && (Mortal(e) && e.nextDue <= now ==> after < Remaining(e, cfg))
  {
    EntryProgress(e, now, cfg);
  }

  lemma DueMortalLast(q: seq<Entry>, now: int)
    requires q != []
    ensures var n := |q| - 1;
            DueMortal(q, now) ==> DueMortal(q[..n], now) || (Mortal(q[n]) && q[n].nextDue <= now)
  {
    var n := |q| - 1;
    if k :| 0 <= k < |q| && Mortal(q[k]) && q[k].nextDue <= now && k < n {
      assert q[..n][k] == q[k];
    }
  }

  lemma {:induction false} WorkDecreases(q: seq<Entry>, now: int, cfg: RetryConfig)
    requires Counted(q, cfg)
    ensures 0 <= Work(Sweep(Retry(now, cfg), q), cfg) <= Work(q, cfg)
    ensures DueMortal(q, now) ==> Work(Sweep(Retry(now, cfg), q), cfg) < Work(q, cfg)
  {
    if q != [] {
      var pass, n := Retry(now, cfg), |q| - 1;
      assert forall k :: 0 <= k < n ==> q[..n][k] == q[k];
      WorkDecreases(q[..n], now, cfg);
      LeftDecreases(q[n], now, cfg);
      DueMortalLast(q, now);
      var swept := Sweep(pass, q[..n]);
      match Verdict(pass, q[n])
      case Some(e) =>
        WorkOfAppend(swept, e, cfg);
      case None =>
        assert swept + [] == swept;
    }
  }

  /** The queue after ticks at the given times, with nothing else happening. */
  function TickedQueue(q: seq<Entry>, cfg: RetryConfig, times: seq<int>): seq<Entry> {
    if times == [] then q
    else
      var n := |times| - 1;
      Sweep(Retry(times[n], cfg), TickedQueue(q, cfg, times[..n]))
  }

  predicate AllDue(q: seq<Entry>, now: int) {
    forall k :: 0 <= k < |q| ==> q[k].nextDue <= now
  }

  /** Every tick finds every queued entry due. */
  predicate DueThroughout(q: seq<Entry>, cfg: RetryConfig, times: seq<int>) {
    forall i :: 0 <= i < |times| ==> AllDue(TickedQueue(q, cfg, times[..i]), times[i])
  }

  lemma {:induction false} AttemptsGrow(q: seq<Entry>, cfg: RetryConfig, times: seq<int>)
    requires Counted(q, cfg) && DueThroughout(q, cfg, times)
    ensures var r := TickedQueue(q, cfg, times);
            Counted(r, cfg) && forall k :: 0 <= k < |r| && Mortal(r[k]) ==> r[k].attempts > |times|
  {
    if times != [] {
      var n := |times| - 1;
      var earlier, now := times[..n], times[n];
      assert DueThroughout(q, cfg, earlier) by {
        forall i | 0 <= i < n ensures AllDue(TickedQueue(q, cfg, earlier[..i]), earlier[i]) {
          assert earlier[..i] == times[..i];
        }
      }
      AttemptsGrow(q, cfg, earlier);
      var b := TickedQueue(q, cfg, earlier);
      SweepCounted(b, now, cfg);
      SweepPartitions(Retry(now, cfg), b);
      var r, ks := TickedQueue(q, cfg, times), Kept(Retry(now, cfg), b);
      assert AllDue(b, now);
      forall k | 0 <= k < |r| && Mortal(r[k]) ensures r[k].attempts > |times| {
        EntryProgress(b[ks[k]], now, cfg);
      }
    }
  }

  /** With no new deliveries, m ticks that find everything due leave no message that may still die. */
  lemma RetriesEnd(led: Ledger, times: seq<int>)
    requires Reached(led) && |times| == Max(1, led.cfg.maxAttempts)
    requires DueThroughout(led.s.inflight, led.cfg, times)
    ensures var r := TickedQueue(led.s.inflight, led.cfg, times);
            forall k :: 0 <= k < |r| ==> !Mortal(r[k])
  {
    ReachedCounted(led);
    AttemptsGrow(led.s.inflight, led.cfg, times);
  }

  lemma ReachedCounted(led: Ledger)
    requires Reached(led)
    ensures Counted(led.s.inflight, led.cfg)
  {
    ReachedInv(led);
    forall k | 0 <= k < |led.s.inflight| && Mortal(led.s.inflight[k])
      ensures 1 <= led.s.inflight[k].attempts <= Allowed(led.cfg)
    {
      assert InTime(led.s.inflight[k], led.msgs[led.ids[k]].born, led.clock, led.cfg);
    }
  }

  /** Every tick that finds such a message due brings the end nearer, and no tick puts it off. */
  lemma RetriesProgress(led: Ledger, now: int)
    requires Reached(led)
    ensures var swept := Sweep(Retry(now, led.cfg), led.s.inflight);
            && 0 <= Work(swept, led.cfg) <= Work(led.s.inflight, led.cfg)
            && (DueMortal(led.s.inflight, now) ==> Work(swept, led.cfg) < Work(led.s.inflight, led.cfg))
  {
    ReachedCounted(led);
    WorkDecreases(led.s.inflight, now, led.cfg);
  }

  // ---- the back-off ----

  /** The back-off as documented: the base doubled for every attempt after the first, up to the cap. */
  function Documented(cfg: RetryConfig, attempt: nat): nat
    requires attempt >= 1
  {
    Min(Doubled(cfg.base, attempt - 1), cfg.cap)
  }

  lemma {:induction false} DoubledGrows(d: nat, a: nat, b: nat)
    requires a <= b
    ensures Doubled(d, a) <= Doubled(d, b)
    ensures a < b && d > 0 ==> Doubled(d, a) < Doubled(d, b)
    ensures d == 0 ==> Doubled(d, b) == 0
    ensures d > 0 ==> Doubled(d, a) > 0
    decreases b
  {
    if b > 0 {
      DoubledGrows(d, if a > 0 then a - 1 else 0, b - 1);
    }
  }

  /** The doubling stops after the 21st attempt: the back-off is the documented one exactly when that cannot show. */
  lemma BackoffAsDocumentedExactly(cfg: RetryConfig, attempt: U32)
    requires attempt >= 1 && cfg.cap <= DURATION_MAX
    ensures Backoff(cfg, attempt) == Documented(cfg, attempt)
       <==> attempt <= 21 || cfg.base == 0 || cfg.cap <= Doubled(cfg.base, 20)
  {
    hide Doubled;
    if attempt > 21 {
      DoubledGrows(cfg.base, 20, attempt - 1);
    }
  }

  lemma BackoffStopsDoubling()
    ensures var cfg := RetryConfig(30, 1, 0x20_0000);
            Backoff(cfg, 22) == 0x10_0000 && Documented(cfg, 22) == 0x20_0000
  {
    var cfg := RetryConfig(30, 1, 0x20_0000);
    DoubledIs();
  }

  /** Doubling 1 is a power of two, for the sizes used above. */
  lemma DoubledIs()
    ensures Doubled(1, 20) == 0x10_0000 && Doubled(1, 21) == 0x20_0000
  {
    assert Doubled(1, 5) == 32;
    assert Doubled(1, 10) == 0x400;
    assert Doubled(1, 15) == 0x8000;
    assert Doubled(1, 20) == 0x10_0000;
  }

  // ---- one turn of the timer ----

  predicate Exhausted(e: Entry, now: int, cfg: RetryConfig) {
    e.nextDue <= now && !e.state.Qos2AwaitComp? && !IsDlqTopic(e.state.publish.topic) && e.attempts >= cfg.maxAttempts
  }

  /** The positions a pass sends a packet for, in queue order. */
  function SentAt(pass: Pass, q: seq<Entry>): (ks: seq<nat>)
    ensures forall k :: 0 <= k < |ks| ==> ks[k] < |q|
  {
    if q == [] then []
    else SentAt(pass, q[..|q| - 1]) + if Sends(pass, q[|q| - 1]) then [|q| - 1] else []
  }

  /** The positions a pass takes out for dead-lettering, in queue order. */
  function GoneAt(pass: Pass, q: seq<Entry>): (ks: seq<nat>)
    ensures forall k :: 0 <= k < |ks| ==> ks[k] < |q| && Undelivered(q[ks[k]])
  {
    if q == [] then []
    else
      var n := |q| - 1;
      GoneAt(pass, q[..n]) + if Buries(pass, q[n]) && Undelivered(q[n]) then [n] else []
  }

  lemma {:induction false} SentAtExactly(pass: Pass, q: seq<Entry>)
    ensures Increasing(SentAt(pass, q)) && |Sent(pass, q)| == |SentAt(pass, q)|
    ensures forall i :: 0 <= i < |SentAt(pass, q)| ==> Sent(pass, q)[i] == Again(q[SentAt(pass, q)[i]])
    ensures forall j :: 0 <= j < |q| ==> (j in SentAt(pass, q) <==> Sends(pass, q[j]))
  {
    hide Sends, Again;
    if q != [] {
      var n := |q| - 1;
      SentAtExactly(pass, q[..n]);
      var before := SentAt(pass, q[..n]);
      assert n !in before;
      forall j | 0 <= j < |q| ensures j in SentAt(pass, q) <==> Sends(pass, q[j]) {
        assert j < n ==> q[..n][j] == q[j];
      }
    }
  }

  lemma {:induction false} GoneAtMembers(pass: Pass, q: seq<Entry>)
    ensures Increasing(GoneAt(pass, q))
    ensures forall j :: 0 <= j < |q| ==> (j in GoneAt(pass, q) <==> Buries(pass, q[j]) && Undelivered(q[j]))
  {
    hide Buries, Undelivered;
    if q != [] {
      var n := |q| - 1;
      GoneAtMembers(pass, q[..n]);
      var before, last := GoneAt(pass, q[..n]), Buries(pass, q[n]) && Undelivered(q[n]);
      assert n !in before;
      assert GoneAt(pass, q) == before + if last then [n] else [];
      hide GoneAt;
      forall j | 0 <= j < |q| ensures j in GoneAt(pass, q) <==> Buries(pass, q[j]) && Undelivered(q[j]) {
        assert j < n ==> q[..n][j] == q[j];
      }
    }
  }

  lemma {:induction false} GoneAtLetters(pass: Pass, q: seq<Entry>)
    ensures |Buried(pass, q)| == |GoneAt(pass, q)|
    ensures forall i :: 0 <= i < |GoneAt(pass, q)| ==>
      var e := q[GoneAt(pass, q)[i]]; Buried(pass, q)[i] == DeadMsg(e.state.publish, e.attempts)
  {
    hide Buries;
    if q != [] {
      GoneAtLetters(pass, q[..|q| - 1]);
    }
  }

  lemma TimerVerdict(e: Entry, now: int, cfg: RetryConfig)
    ensures Verdict(Retry(now, cfg), e)
         == if Exhausted(e, now, cfg) then None else if now < e.nextDue then Some(e) else Some(Bumped(e, now, cfg))
    ensures Sends(Retry(now, cfg), e) <==> e.nextDue <= now && !Exhausted(e, now, cfg)
    ensures Buries(Retry(now, cfg), e) && Undelivered(e) <==> Exhausted(e, now, cfg)
  {
    hide IsDlqTopic, Bumped;
  }

  /** One more attempt, spelled out: the state stays, the attempt is counted, and its back-off starts now. */
  predicate TriedAgain(e: Entry, e': Entry, now: int, cfg: RetryConfig) {
    && e'.state == e.state
    && e'.attempts == (if e.attempts == U32_SIZE - 1 then 0 else e.attempts + 1)
    && e'.nextDue == now + Backoff(cfg, e'.attempts)
  }

  lemma BumpTriesAgain(e: Entry, now: int, cfg: RetryConfig)
    ensures TriedAgain(e, Bumped(e, now, cfg), now, cfg)
  {
    hide Backoff;
  }

  /**
   * A timer pass splits the queue: it takes out exactly the due, undelivered messages outside `$dlq/`
   * that are out of attempts, keeps the rest in order, leaves what is not due as it was and gives what
   * is due one more attempt, the next one due after the back-off of that attempt. An entry waiting for
   * PUBCOMP is never taken out.
   */
  lemma TimerPartitionsQueue(q: seq<Entry>, now: int, cfg: RetryConfig)
    ensures var kept, swept := Kept(Retry(now, cfg), q), Sweep(Retry(now, cfg), q);
            && |swept| == |kept| && Increasing(kept)
            && (forall j :: 0 <= j < |q| ==> (j !in kept <==> Exhausted(q[j], now, cfg)))
            && (forall k :: 0 <= k < |kept| ==>
                  if now < q[kept[k]].nextDue then swept[k] == q[kept[k]]
                  else TriedAgain(q[kept[k]], swept[k], now, cfg))
  {
    SweepPartitions(Retry(now, cfg), q);
    hide Sweep, Kept, Exhausted, Bumped, Verdict, TriedAgain;
    var kept, swept := Kept(Retry(now, cfg), q), Sweep(Retry(now, cfg), q);
    forall j | 0 <= j < |q| ensures j !in kept <==> Exhausted(q[j], now, cfg) {
      TimerVerdict(q[j], now, cfg);
    }
    forall k | 0 <= k < |kept|
      ensures if now < q[kept[k]].nextDue then swept[k] == q[kept[k]] else TriedAgain(q[kept[k]], swept[k], now, cfg)
    {
      TimerVerdict(q[kept[k]], now, cfg);
      BumpTriesAgain(q[kept[k]], now, cfg);
    }
  }

  /**
   * What the pass puts out: one duplicate or PUBREL for each entry that is due and kept, in queue order,
   * and one dead letter, with its message and attempts, for each entry taken out, in queue order.
   */
  lemma TimerSendsAndBuries(q: seq<Entry>, now: int, cfg: RetryConfig)
    ensures var sent, packets := SentAt(Retry(now, cfg), q), Sent(Retry(now, cfg), q);
            && |packets| == |sent| && Increasing(sent)
            && (forall i :: 0 <= i < |sent| ==> packets[i] == Again(q[sent[i]]))
            && (forall j :: 0 <= j < |q| ==>
                  (j in sent <==> q[j].nextDue <= now && j in Kept(Retry(now, cfg), q)))
    ensures var gone, dead := GoneAt(Retry(now, cfg), q), Buried(Retry(now, cfg), q);
            && |dead| == |gone| && Increasing(gone)
            && (forall i :: 0 <= i < |gone| ==>
                  var e := q[gone[i]]; dead[i] == DeadMsg(e.state.publish, e.attempts))
            && (forall j :: 0 <= j < |q| ==> (j in gone <==> j !in Kept(Retry(now, cfg), q)))
  {
    hide Sweep, Kept, Sent, Buried, Exhausted, Bumped, SentAt, GoneAt, Again, Sends, Buries;
    TimerPartitionsQueue(q, now, cfg);
    SentAtExactly(Retry(now, cfg), q);
    GoneAtMembers(Retry(now, cfg), q);
    GoneAtLetters(Retry(now, cfg), q);
    forall j | 0 <= j < |q|
      ensures j in SentAt(Retry(now, cfg), q) <==> q[j].nextDue <= now && j in Kept(Retry(now, cfg), q)
      ensures j in GoneAt(Retry(now, cfg), q) <==> j !in Kept(Retry(now, cfg), q)
    {
      TimerVerdict(q[j], now, cfg);
    }
  }

  // ---- the end of an expired session ----

  lemma DrainVerdict(e: Entry)
    ensures Verdict(Drain, e).Some? ==> Verdict(Drain, e).value == e
    ensures Verdict(Drain, e).None? <==> !e.state.Qos2AwaitComp? && !IsDlqTopic(e.state.publish.topic)
    ensures Buries(Drain, e) && Undelivered(e) <==> Verdict(Drain, e).None?
  {
    hide IsDlqTopic;
  }

  /**
   * Expiry takes out exactly the QoS 1 and QoS 2 messages still waiting for their first answer, outside
   * `$dlq/`, and leaves the rest as it was, in order. Its dead letters are the messages taken out, in
   * order, each with its attempts.
   */
  lemma ExpiryPartitionsQueue(q: seq<Entry>)
    ensures var kept, swept := Kept(Drain, q), Sweep(Drain, q);
            && |swept| == |kept| && Increasing(kept)
            && (forall j :: 0 <= j < |q| ==>
                  (j !in kept <==> !q[j].state.Qos2AwaitComp? && !IsDlqTopic(q[j].state.publish.topic)))
            && (forall k :: 0 <= k < |kept| ==> swept[k] == q[kept[k]])
    ensures var gone, dead := GoneAt(Drain, q), Buried(Drain, q);
            && |dead| == |gone| && Increasing(gone)
            && (forall i :: 0 <= i < |gone| ==>
                  var e := q[gone[i]]; dead[i] == DeadMsg(e.state.publish, e.attempts))
            && (forall j :: 0 <= j < |q| ==> (j in gone <==> j !in Kept(Drain, q)))
  {
    hide Sweep, Kept, Buried, GoneAt, Buries, Verdict, IsDlqTopic;
    SweepPartitions(Drain, q);
    GoneAtMembers(Drain, q);
    GoneAtLetters(Drain, q);
    forall j | 0 <= j < |q|
      ensures j !in Kept(Drain, q) <==> !q[j].state.Qos2AwaitComp? && !IsDlqTopic(q[j].state.publish.topic)
      ensures j in GoneAt(Drain, q) <==> j !in Kept(Drain, q)
    {
      DrainVerdict(q[j]);
    }
    forall k | 0 <= k < |Kept(Drain, q)| ensures Sweep(Drain, q)[k] == q[Kept(Drain, q)[k]] {
      DrainVerdict(q[Kept(Drain, q)[k]]);
    }
  }

  /** Closing an account drops what is queued, except what an expiry has dead-lettered. */
  lemma ClosingDrops(led: Ledger, e: Event, now: int, n: nat)
    requires Reached(led) && led.open && |led.ids| == |led.s.inflight| && !e.Live?
    ensures n in Record(led, e, now).dropped <==>
      || n in led.dropped
      || exists k :: 0 <= k < |led.ids| && led.ids[k] == n
           && (e.Expire? ==>
                 led.s.inflight[k].state.Qos2AwaitComp? || IsDlqTopic(led.s.inflight[k].state.publish.topic))
  {
    ReachedInv(led);
    hide Reached, Conserved, Timely, Kept, Pick, EntryOk, IsDlqTopic, Verdict, Burials;
    if e.Expire? {
      var rest := Pick(led.ids, Kept(Drain, led.s.inflight));
      forall k | 0 <= k < |led.ids|
        ensures led.ids[k] in SetOf(rest)
           <==> led.s.inflight[k].state.Qos2AwaitComp? || IsDlqTopic(led.s.inflight[k].state.publish.topic)
      {
        GoneExactly(Drain, led.s.inflight, led.ids, k);
        DrainVerdict(led.s.inflight[k]);
      }
      PassShrinks(led, Drain);
    }
  }
}
