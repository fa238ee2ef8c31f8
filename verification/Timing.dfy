/** When a queued message is due: exactly the back-off of its attempts after it was last sent or re-armed. */
module Timing {
  import opened Basics
  import opened Sessions
  import opened Delivery
  import opened Guarantees

  /** The time each queued entry was last sent or re-armed, after one more event. */
  function ArmedAfter(led: Ledger, armed: seq<int>, e: Event, now: int): (r: seq<int>)
    requires |armed| == |led.ids| == |led.s.inflight|
    ensures |r| == |Record(led, e, now).s.inflight|
  {
    if !led.open then armed
    else
      match e
      case Live(act) => ArmedByAct(led, armed, act, now)
      case _ => []
  }

  /**
   * A delivery arms its own entry, a reconnect or a restart arms every entry, the timer arms the entries
   * it finds due, and nothing else arms any.
   */
  function ArmedByAct(led: Ledger, armed: seq<int>, act: Act, now: int): (r: seq<int>)
    requires |armed| == |led.ids| == |led.s.inflight|
    ensures |r| == |RecordAct(led, act, now).s.inflight|
  {
    SteppedQueue(led.s, act, now, led.cfg);
    hide Stepped;
    if act.Deliver? && act.qos != AtMostOnce then armed + [now]
    else if act.Tick? && led.s.tx.None? then armed
    else
      match PassOf(act, now, led.cfg)
      case None => armed
      case Some(pass) =>
        KeptCount(pass, led.s.inflight);
        ArmedByPass(pass, led.s.inflight, armed, now)
  }

  function ArmedByPass(pass: Pass, q: seq<Entry>, armed: seq<int>, now: int): (r: seq<int>)
    requires |armed| == |q|
    ensures |r| == |Kept(pass, q)|
  {
    var kept := Kept(pass, q);
    seq(|kept|, k requires 0 <= k < |kept| =>
      if pass.Rearm? || (pass.Retry? && q[kept[k]].nextDue <= now) then now else armed[kept[k]])
  }

  function ArmedAll(led: Ledger, trace: Trace): (r: seq<int>)
    requires |led.ids| == |led.s.inflight| == 0
    ensures |r| == |AfterTrace(led, trace).s.inflight|
  {
    if trace == [] then []
    else
      var n := |trace| - 1;
      ArmedAfter(AfterTrace(led, trace[..n]), ArmedAll(led, trace[..n]), trace[n].0, trace[n].1)
  }

  /** Every entry is due exactly its back-off after it was armed, and was armed between these two times. */
  predicate DueAsArmed(q: seq<Entry>, armed: seq<int>, cfg: RetryConfig, born: int, clock: int) {
    && |armed| == |q|
    && forall k :: 0 <= k < |q| ==>
         born <= armed[k] <= clock && q[k].nextDue == armed[k] + Backoff(cfg, q[k].attempts)
  }

  lemma FirstBackoff(cfg: RetryConfig)
    ensures Backoff(cfg, 0) == Backoff(cfg, 1)
  {
    hide Doubled;
  }

  lemma ArmedEntry(pass: Pass, e: Entry, armed: int, now: int, cfg: RetryConfig)
    requires Verdict(pass, e).Some? && e.nextDue == armed + Backoff(cfg, e.attempts)
    requires pass.Rearm? || pass.Retry? ==> pass.now == now && pass.cfg == cfg
    ensures var e' := Verdict(pass, e).value;
            var armed' := if pass.Rearm? || (pass.Retry? && e.nextDue <= now) then now else armed;
            e'.nextDue == armed' + Backoff(cfg, e'.attempts)
  {
    FirstBackoff(cfg);
    hide Backoff, IsDlqTopic;
  }

  lemma PassArms(led: Ledger, armed: seq<int>, act: Act, now: int, born: int)
    requires |led.ids| == |led.s.inflight| && DueAsArmed(led.s.inflight, armed, led.cfg, born, led.clock)
    requires born <= led.clock <= now && PassOf(act, now, led.cfg).Some? && !(act.Tick? && led.s.tx.None?)
    ensures DueAsArmed(RecordAct(led, act, now).s.inflight, ArmedByAct(led, armed, act, now), led.cfg, born, now)
  {
    var pass := PassOf(act, now, led.cfg).value;
    SteppedQueue(led.s, act, now, led.cfg);
    SweepArms(pass, led.s.inflight, armed, led.cfg, born, led.clock, now);
    hide Stepped, Sweep, Kept, AfterPass, ArmedByPass, DueAsArmed;
  }

  lemma SweepArms(pass: Pass, q: seq<Entry>, armed: seq<int>, cfg: RetryConfig, born: int, clock: int, now: int)
    requires DueAsArmed(q, armed, cfg, born, clock) && born <= clock <= now
    requires pass.Rearm? || pass.Retry? ==> pass.now == now && pass.cfg == cfg
    ensures DueAsArmed(Sweep(pass, q), ArmedByPass(pass, q, armed, now), cfg, born, now)
  {
    SweepPartitions(pass, q);
    hide Sweep, Kept, Backoff, Verdict;
    var kept, swept := Kept(pass, q), Sweep(pass, q);
    forall k | 0 <= k < |kept|
      ensures swept[k].nextDue == ArmedByPass(pass, q, armed, now)[k] + Backoff(cfg, swept[k].attempts)
    {
      ArmedEntry(pass, q[kept[k]], armed[kept[k]], now, cfg);
    }
  }

  lemma OtherArms(led: Ledger, armed: seq<int>, act: Act, now: int, born: int)
    requires |led.ids| == |led.s.inflight| && DueAsArmed(led.s.inflight, armed, led.cfg, born, led.clock)
    requires born <= led.clock <= now && (PassOf(act, now, led.cfg).None? || (act.Tick? && led.s.tx.None?))
    ensures DueAsArmed(RecordAct(led, act, now).s.inflight, ArmedByAct(led, armed, act, now), led.cfg, born, now)
  {
    hide Backoff, Sweep, Sent;
  }

  lemma EventArms(led: Ledger, armed: seq<int>, e: Event, now: int, born: int)
    requires |led.ids| == |led.s.inflight| && DueAsArmed(led.s.inflight, armed, led.cfg, born, led.clock)
    requires born <= led.clock <= now
    ensures DueAsArmed(Record(led, e, now).s.inflight, ArmedAfter(led, armed, e, now), led.cfg, born,
                       Record(led, e, now).clock)
    ensures Record(led, e, now).cfg == led.cfg
  {
    if led.open && e.Live? {
      var act := e.act;
      if PassOf(act, now, led.cfg).Some? && !(act.Tick? && led.s.tx.None?) {
        PassArms(led, armed, act, now, born);
      } else {
        OtherArms(led, armed, act, now, born);
      }
    }
    hide Stepped, Backoff, Kept, Burials, Pick, ArmedByAct;
  }

  /**
   * In every run of a session, every queued message is due exactly the back-off of its attempts after it
   * was last sent or re-armed: never sooner and never later.
   */
  lemma {:induction false} DueExactlyAfterBackoff(led: Ledger, trace: Trace)
    requires |led.ids| == |led.s.inflight| == 0 && Monotone(led.clock, trace)
    ensures var end := AfterTrace(led, trace);
            && end.cfg == led.cfg && led.clock <= end.clock <= Clock(led.clock, trace)
            && DueAsArmed(end.s.inflight, ArmedAll(led, trace), led.cfg, led.clock, end.clock)
  {
    hide Record, ArmedAfter, DueAsArmed;
    if trace == [] {
      NothingArmed(led);
    } else {
      var n := |trace| - 1;
      assert forall i :: 0 <= i < n ==> trace[..n][i] == trace[i];
      DueExactlyAfterBackoff(led, trace[..n]);
      EventArms(AfterTrace(led, trace[..n]), ArmedAll(led, trace[..n]), trace[n].0, trace[n].1, led.clock);
    }
  }

  lemma NothingArmed(led: Ledger)
    requires led.s.inflight == []
    ensures DueAsArmed(led.s.inflight, [], led.cfg, led.clock, led.clock)
  {
  }

  /** So in every reached state no message is due later than one back-off of its attempts from now. */
  lemma DueWithinBackoff(led: Ledger, k: nat)
    requires Reached(led) && k < |led.s.inflight|
    ensures led.s.inflight[k].nextDue <= led.clock + Backoff(led.cfg, led.s.inflight[k].attempts)
  {
    hide Backoff, Record;
    var clientId: Text, tx, expiry: U32, generation: nat, cfg, clock, trace :|
      Monotone(clock, trace) && led == AfterTrace(Start(clientId, tx, expiry, generation, cfg, clock), trace);
    DueExactlyAfterBackoff(Start(clientId, tx, expiry, generation, cfg, clock), trace);
  }
}
