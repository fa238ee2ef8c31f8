/**
 * Whole lives of a session. A ledger runs the session's own operations and writes down, beside them,
 * when each QoS 1/2 delivery was enqueued and where it ended.
 */
module Delivery {
  import opened Basics
  import opened Sessions

  // ---- which entries a pass keeps ----

  /** The positions of the entries a pass keeps. */
  function Kept(pass: Pass, q: seq<Entry>): (ks: seq<nat>)
    ensures forall k :: 0 <= k < |ks| ==> ks[k] < |q|
  {
    if q == [] then []
    else
      var n := |q| - 1;
      Kept(pass, q[..n]) + if Verdict(pass, q[n]).Some? then [n] else []
  }

  /** A pass is a one-pass partition: it keeps, in order, exactly the entries its verdict keeps. */
  lemma SweepPartitions(pass: Pass, q: seq<Entry>)
    ensures |Sweep(pass, q)| == |Kept(pass, q)|
    ensures forall k :: 0 <= k < |Kept(pass, q)| ==> Verdict(pass, q[Kept(pass, q)[k]]) == Some(Sweep(pass, q)[k])
    ensures forall k, l :: 0 <= k < l < |Kept(pass, q)| ==> Kept(pass, q)[k] < Kept(pass, q)[l]
    ensures forall j :: 0 <= j < |q| ==> (j in Kept(pass, q) <==> Verdict(pass, q[j]).Some?)
  {
    KeptEntries(pass, q);
    KeptExactly(pass, q);
  }

  lemma {:induction false} KeptCount(pass: Pass, q: seq<Entry>)
    ensures |Sweep(pass, q)| == |Kept(pass, q)|
  {
    if q != [] {
      KeptCount(pass, q[..|q| - 1]);
    }
  }

  lemma {:induction false} KeptEntries(pass: Pass, q: seq<Entry>)
    ensures |Sweep(pass, q)| == |Kept(pass, q)|
    ensures forall k :: 0 <= k < |Kept(pass, q)| ==> Verdict(pass, q[Kept(pass, q)[k]]) == Some(Sweep(pass, q)[k])
    ensures forall k, l :: 0 <= k < l < |Kept(pass, q)| ==> Kept(pass, q)[k] < Kept(pass, q)[l]
  {
    if q != [] {
      KeptEntries(pass, q[..|q| - 1]);
    }
  }

  lemma {:induction false} KeptExactly(pass: Pass, q: seq<Entry>)
    ensures forall j :: 0 <= j < |q| ==> (j in Kept(pass, q) <==> Verdict(pass, q[j]).Some?)
  {
    if q != [] {
      var n := |q| - 1;
      KeptExactly(pass, q[..n]);
      var before, last := Kept(pass, q[..n]), Verdict(pass, q[n]).Some?;
      assert Kept(pass, q) == before + if last then [n] else [];
      forall j | 0 <= j < |q| ensures j in Kept(pass, q) <==> Verdict(pass, q[j]).Some? {
        if j < n {
          assert q[..n][j] == q[j];
        }
      }
    }
  }

  function Pick(ids: seq<nat>, ks: seq<nat>): (r: seq<nat>)
    requires forall k :: 0 <= k < |ks| ==> ks[k] < |ids|
    ensures |r| == |ks| && forall k :: 0 <= k < |ks| ==> r[k] == ids[ks[k]]
  {
    if ks == [] then [] else Pick(ids, ks[..|ks| - 1]) + [ids[ks[|ks| - 1]]]
  }

  // ---- the ledger ----

  /** A QoS 1/2 delivery as it was enqueued. */
  datatype Msg = Msg(topic: Text, payload: Bytes, qos: QoS, retain: bool, born: int)

  datatype Burial = Burial(serial: nat, attempts: U32, at: int, byTimer: bool)

  /**
   * `ids[k]` is the serial number of the k-th queued entry: its place among all QoS 1/2 deliveries.
   * `acked`, `dead` and `dropped` collect the serials that left the queue.
   */
  datatype Ledger = Ledger(
    s: SessionState, cfg: RetryConfig, clock: int, msgs: seq<Msg>, ids: seq<nat>,
    acked: set<nat>, dead: seq<Burial>, dropped: set<nat>, open: bool)

  datatype Event = Live(act: Act) | Discard | Expire

  function SetOf(xs: seq<nat>): set<nat> {
    set x | x in xs
  }

  function Below(n: nat): (s: set<nat>)
    ensures forall k: nat :: k in s <==> k < n
  {
    if n == 0 then {} else Below(n - 1) + {n - 1}
  }

  function DeadSet(dead: seq<Burial>): set<nat> {
    set b | b in dead :: b.serial
  }

  /** The burials of a pass over a queue with the given serials, in queue order. */
  function Burials(pass: Pass, q: seq<Entry>, ids: seq<nat>, at: int): (bs: seq<Burial>)
    requires |ids| == |q|
  {
    if q == [] then []
    else
      var n := |q| - 1;
      Burials(pass, q[..n], ids[..n], at)
      + if Buries(pass, q[n]) then [Burial(ids[n], q[n].attempts, at, pass.Retry?)] else []
  }

  function Start(clientId: Text, tx: Option<seq<Packet>>, expiry: U32, generation: nat, cfg: RetryConfig, clock: int)
    : Ledger
  {
    Ledger(NewSession(clientId, tx, expiry, generation), cfg, clock, [], [], {}, [], {}, true)
  }

  function AfterPass(led: Ledger, pass: Pass, at: int): Ledger
    requires |led.ids| == |led.s.inflight|
  {
    var q := led.s.inflight;
    var rest := Pick(led.ids, Kept(pass, q));
    var gone := SetOf(led.ids) - SetOf(rest);
    led.(ids := rest,
         acked := if pass.Puback? || pass.Pubcomp? then led.acked + gone else led.acked,
         dead := led.dead + Burials(pass, q, led.ids, at))
  }

  /** How each act changes the queue: by its pass, by one more entry, or in place. */
  lemma SteppedQueue(s: SessionState, act: Act, now: int, cfg: RetryConfig)
    ensures var q := Stepped(s, act, now, cfg).inflight;
            if act.Deliver? && act.qos != AtMostOnce then |q| == |s.inflight| + 1
            else if act.Tick? && s.tx.None? then q == s.inflight
            else if PassOf(act, now, cfg).Some? then q == Sweep(PassOf(act, now, cfg).value, s.inflight)
            else |q| == |s.inflight|
  {
    hide Sweep, Sent, Backoff;
  }

  function RecordAct(led: Ledger, act: Act, now: int): (r: Ledger)
    requires |led.ids| == |led.s.inflight|
    ensures |r.ids| == |r.s.inflight|
  {
    var s' := Stepped(led.s, act, now, led.cfg);
    SteppedQueue(led.s, act, now, led.cfg);
    hide Stepped;
    if act.Deliver? && act.qos != AtMostOnce then
      led.(s := s', ids := led.ids + [|led.msgs|],
           msgs := led.msgs + [Msg(act.topic, act.payload, act.qos, act.retain, now)])
    else if act.Tick? && led.s.tx.None? then led
    else
      match PassOf(act, now, led.cfg)
      case Some(pass) =>
        KeptCount(pass, led.s.inflight);
        AfterPass(led, pass, now).(s := s')
      case None => led.(s := s')
  }

  function Record(led: Ledger, e: Event, now: int): (r: Ledger)
    requires |led.ids| == |led.s.inflight|
    ensures |r.ids| == |r.s.inflight| && r.clock == if led.open then now else led.clock
  {
    if !led.open then led
    else
      match e
      case Live(act) => RecordAct(led, act, now).(clock := now)
      case _ =>
        var drained := if e.Expire? then AfterPass(led, Drain, now) else led;
        drained.(clock := now, dropped := led.dropped + SetOf(drained.ids), ids := [], open := false,
                 s := led.s.(inflight := []))
  }

  // ---- what every run keeps ----

  /** Packet ids are handed out in a cycle of 65535, starting from 1. */
  function PidOf(serial: nat): (pid: U16)
    ensures 1 <= pid <= 65535
  {
    serial % 65535 + 1
  }

  /** The PUBLISH first sent for a delivery: never marked as a duplicate. */
  function Original(m: Msg, serial: nat): Publish {
    MakePublish(m.topic, m.payload, m.qos, Some(PidOf(serial)), m.retain)
  }

  predicate EntryOk(e: Entry, serial: nat, m: Msg) {
    m.qos != AtMostOnce
    && (e.state == StateFor(Original(m, serial)) || (m.qos == ExactlyOnce && e.state == Qos2AwaitComp(PidOf(serial))))
  }

  /** Ordering: the queue is in allocation order and each entry is the message allocated there. */
  predicate Ordered(led: Ledger) {
    && |led.ids| == |led.s.inflight|
    && led.s.nextId == PidOf(|led.msgs|)
    && (forall k :: 0 <= k < |led.ids| ==>
          led.ids[k] < |led.msgs| && EntryOk(led.s.inflight[k], led.ids[k], led.msgs[led.ids[k]]))
    && (forall k, l :: 0 <= k < l < |led.ids| ==> led.ids[k] < led.ids[l])
  }

  /** The first `n` numbers, dealt into four piles. */
  predicate Apart(live: set<nat>, acked: set<nat>, dead: set<nat>, dropped: set<nat>, n: nat) {
    live + acked + dead + dropped == Below(n) && live !! acked !! dead !! dropped
  }

  /** Conservation: every serial is in exactly one place, and is buried at most once. */
  predicate Conserved(led: Ledger) {
    && Apart(SetOf(led.ids), led.acked, DeadSet(led.dead), led.dropped, |led.msgs|)
    && (forall i, j :: 0 <= i < j < |led.dead| ==> led.dead[i].serial != led.dead[j].serial)
  }

  /** The sum of the first `n` back-offs. */
  function Elapsed(cfg: RetryConfig, n: nat): (d: nat)
    requires n < U32_SIZE
  {
    if n == 0 then 0 else Elapsed(cfg, n - 1) + Backoff(cfg, n)
  }

  function Allowed(cfg: RetryConfig): (m: U32)
    ensures m >= 1
  {
    Max(1, cfg.maxAttempts)
  }

  predicate InTime(e: Entry, born: int, clock: int, cfg: RetryConfig) {
    Mortal(e) ==>
      && 1 <= e.attempts <= Allowed(cfg)
      && born + Elapsed(cfg, e.attempts - 1) <= clock
      && born + Elapsed(cfg, e.attempts) <= e.nextDue
  }

  predicate FairBurial(b: Burial, m: Msg, cfg: RetryConfig) {
    && !IsDlqTopic(m.topic)
    && (b.byTimer ==> b.attempts == Allowed(cfg) && m.born + Elapsed(cfg, Allowed(cfg)) <= b.at)
  }

  /** Timing: attempts and due times lag the clock by the back-offs already waited. */
  predicate Timely(led: Ledger) {
    && |led.ids| == |led.s.inflight|
    && (forall k :: 0 <= k < |led.ids| ==>
          led.ids[k] < |led.msgs|
          && InTime(led.s.inflight[k], led.msgs[led.ids[k]].born, led.clock, led.cfg))
    && (forall i :: 0 <= i < |led.dead| ==>
          led.dead[i].serial < |led.msgs| && FairBurial(led.dead[i], led.msgs[led.dead[i].serial], led.cfg))
  }

  predicate Inv(led: Ledger) {
    Ordered(led) && Conserved(led) && Timely(led)
  }

  // ---- a pass keeps them ----

  lemma {:induction false} BurialsOf(pass: Pass, q: seq<Entry>, ids: seq<nat>, at: int)
    requires |ids| == |q|
    requires forall k, l :: 0 <= k < l < |ids| ==> ids[k] < ids[l]
    ensures forall b :: b in Burials(pass, q, ids, at) ==>
              exists j :: 0 <= j < |q| && Buries(pass, q[j]) && b == Burial(ids[j], q[j].attempts, at, pass.Retry?)
    ensures forall j :: 0 <= j < |q| && Buries(pass, q[j]) ==>
              Burial(ids[j], q[j].attempts, at, pass.Retry?) in Burials(pass, q, ids, at)
    ensures forall i, j :: 0 <= i < j < |Burials(pass, q, ids, at)| ==>
              Burials(pass, q, ids, at)[i].serial < Burials(pass, q, ids, at)[j].serial
  {
    if q != [] {
      var n := |q| - 1;
      var q', ids' := q[..n], ids[..n];
      BurialsOf(pass, q', ids', at);
      var before, bs := Burials(pass, q', ids', at), Burials(pass, q, ids, at);
      forall b | b in bs
        ensures exists j :: 0 <= j < |q| && Buries(pass, q[j]) && b == Burial(ids[j], q[j].attempts, at, pass.Retry?)
      {
        if b in before {
          var j :| 0 <= j < n && Buries(pass, q'[j]) && b == Burial(ids'[j], q'[j].attempts, at, pass.Retry?);
          assert q'[j] == q[j] && ids'[j] == ids[j];
        }
      }
      forall j | 0 <= j < |q| && Buries(pass, q[j])
        ensures Burial(ids[j], q[j].attempts, at, pass.Retry?) in bs
      {
        if j < n {
          assert q'[j] == q[j] && ids'[j] == ids[j];
        }
      }
      forall i | 0 <= i < |before| ensures before[i].serial < ids[n] {
        assert before[i] in before;
      }
    }
  }

  predicate Increasing(ids: seq<nat>) {
    forall k, l :: 0 <= k < l < |ids| ==> ids[k] < ids[l]
  }

  /** The serials a pass takes out are those of the entries its verdict takes out. */
  lemma GoneExactly(pass: Pass, q: seq<Entry>, ids: seq<nat>, j: nat)
    requires |ids| == |q| && Increasing(ids) && j < |q|
    ensures ids[j] in SetOf(Pick(ids, Kept(pass, q))) <==> Verdict(pass, q[j]).Some?
  {
    SweepPartitions(pass, q);
    var ks := Kept(pass, q);
    var rest := Pick(ids, ks);
    if j in ks {
      var k :| 0 <= k < |ks| && ks[k] == j;
      assert rest[k] == ids[j];
    } else {
      forall k | 0 <= k < |rest| ensures rest[k] != ids[j] {
        assert rest[k] == ids[ks[k]] && ks[k] != j;
        if ks[k] < j {
          assert ids[ks[k]] < ids[j];
        } else {
          assert ids[j] < ids[ks[k]];
        }
      }
    }
  }

  /** No pass changes what an entry is waiting for. */
  lemma VerdictKeepsState(pass: Pass, e: Entry)
    ensures Verdict(pass, e).Some? ==> Verdict(pass, e).value.state == e.state
  {
  }

  lemma PassKeepsOrder(led: Ledger, pass: Pass, s': SessionState)
    requires Ordered(led)
    requires s'.inflight == Sweep(pass, led.s.inflight) && s'.nextId == led.s.nextId
    ensures Ordered(AfterPass(led, pass, 0).(s := s'))
  {
    hide Verdict, Burials;
    var q, ks := led.s.inflight, Kept(pass, led.s.inflight);
    var rest := Pick(led.ids, ks);
    SweepPartitions(pass, q);
    forall k | 0 <= k < |rest|
      ensures rest[k] < |led.msgs| && EntryOk(s'.inflight[k], rest[k], led.msgs[rest[k]])
    {
      var j := ks[k];
      VerdictKeepsState(pass, q[j]);
      assert EntryOk(q[j], led.ids[j], led.msgs[led.ids[j]]);
    }
    assert Increasing(rest);
  }

  lemma Deal(live: set<nat>, acked: set<nat>, dead: set<nat>, dropped: set<nat>, n: nat, rest: set<nat>)
    requires Apart(live, acked, dead, dropped, n) && rest <= live
    ensures Apart(rest, acked + (live - rest), dead, dropped, n)
    ensures Apart(rest, acked, dead + (live - rest), dropped, n)
    ensures Apart(rest, acked, dead, dropped + (live - rest), n)
  {
    assert rest + (live - rest) == live;
  }

  lemma PassConserves(led: Ledger, pass: Pass, at: int)
    requires Ordered(led) && Conserved(led)
    ensures Conserved(AfterPass(led, pass, at))
  {
    if pass.Retry? || pass.Drain? {
      BurialConserves(led, pass, at);
    } else {
      NoBurials(pass, led.s.inflight, led.ids, at);
      assert led.dead + [] == led.dead;
      PassShrinks(led, pass);
      var rest := SetOf(Pick(led.ids, Kept(pass, led.s.inflight)));
      if pass.Rearm? {
        RearmKeepsAll(led, pass);
      } else {
        Deal(SetOf(led.ids), led.acked, DeadSet(led.dead), led.dropped, |led.msgs|, rest);
      }
    }
  }

  lemma BurialConserves(led: Ledger, pass: Pass, at: int)
    requires Ordered(led) && Conserved(led) && (pass.Retry? || pass.Drain?)
    ensures Conserved(AfterPass(led, pass, at))
  {
    var bs := Burials(pass, led.s.inflight, led.ids, at);
    var rest := SetOf(Pick(led.ids, Kept(pass, led.s.inflight)));
    assert DeadSet(led.dead + bs) == DeadSet(led.dead) + DeadSet(bs);
    PassShrinks(led, pass);
    Deal(SetOf(led.ids), led.acked, DeadSet(led.dead), led.dropped, |led.msgs|, rest);
    PassBuries(led, pass, at);
    DeadDistinct(led, bs);
  }

  lemma PassShrinks(led: Ledger, pass: Pass)
    requires Ordered(led)
    ensures SetOf(Pick(led.ids, Kept(pass, led.s.inflight))) <= SetOf(led.ids)
  {
  }

  lemma RearmKeepsAll(led: Ledger, pass: Pass)
    requires Ordered(led) && pass.Rearm?
    ensures SetOf(Pick(led.ids, Kept(pass, led.s.inflight))) == SetOf(led.ids)
  {
    forall n | n in SetOf(led.ids) ensures n in SetOf(Pick(led.ids, Kept(pass, led.s.inflight))) {
      var j :| 0 <= j < |led.ids| && led.ids[j] == n;
      GoneExactly(pass, led.s.inflight, led.ids, j);
    }
  }

  lemma {:induction false} NoBurials(pass: Pass, q: seq<Entry>, ids: seq<nat>, at: int)
    requires |ids| == |q| && !pass.Retry? && !pass.Drain?
    ensures Burials(pass, q, ids, at) == []
  {
    if q != [] {
      NoBurials(pass, q[..|q| - 1], ids[..|q| - 1], at);
    }
  }

  /** The timer and expiry bury exactly the serials they take out of the queue. */
  lemma PassBuries(led: Ledger, pass: Pass, at: int)
    requires Ordered(led) && (pass.Retry? || pass.Drain?)
    ensures DeadSet(Burials(pass, led.s.inflight, led.ids, at))
         == SetOf(led.ids) - SetOf(Pick(led.ids, Kept(pass, led.s.inflight)))
    ensures var bs := Burials(pass, led.s.inflight, led.ids, at);
            forall i, j :: 0 <= i < j < |bs| ==> bs[i].serial != bs[j].serial
  {
    var q, ids := led.s.inflight, led.ids;
    var rest := SetOf(Pick(ids, Kept(pass, q)));
    BurialsOf(pass, q, ids, at);
    forall j | 0 <= j < |q| ensures ids[j] in rest <==> !Buries(pass, q[j]) {
      GoneExactly(pass, q, ids, j);
    }
    BuriedAreGone(pass, q, ids, at, rest);
  }

  lemma BuriedAreGone(pass: Pass, q: seq<Entry>, ids: seq<nat>, at: int, rest: set<nat>)
    requires |ids| == |q| && Increasing(ids) && (pass.Retry? || pass.Drain?)
    requires forall j :: 0 <= j < |q| ==> (ids[j] in rest <==> !Buries(pass, q[j]))
    ensures DeadSet(Burials(pass, q, ids, at)) == SetOf(ids) - rest
  {
    var bs := Burials(pass, q, ids, at);
    BurialsOf(pass, q, ids, at);
    forall n | n in SetOf(ids) - rest ensures n in DeadSet(bs) {
      var j :| 0 <= j < |ids| && ids[j] == n;
      assert Burial(ids[j], q[j].attempts, at, pass.Retry?) in bs;
    }
    forall n | n in DeadSet(bs) ensures n in SetOf(ids) - rest {
      var b :| b in bs && b.serial == n;
    }
  }

  lemma DeadDistinct(led: Ledger, bs: seq<Burial>)
    requires Conserved(led) && DeadSet(bs) <= SetOf(led.ids)
    requires forall i, j :: 0 <= i < j < |bs| ==> bs[i].serial != bs[j].serial
    ensures forall i, j :: 0 <= i < j < |led.dead + bs| ==> (led.dead + bs)[i].serial != (led.dead + bs)[j].serial
  {
    var all := led.dead + bs;
    forall i, j | 0 <= i < j < |all| ensures all[i].serial != all[j].serial {
      if i < |led.dead| && |led.dead| <= j {
        assert all[i] in led.dead && all[j] == bs[j - |led.dead|] && all[j] in bs;
        assert all[i].serial in DeadSet(led.dead) && all[j].serial in DeadSet(bs);
      }
    }
  }

  lemma VerdictInTime(pass: Pass, e: Entry, born: int, clock: int, now: int, cfg: RetryConfig)
    requires InTime(e, born, clock, cfg) && clock <= now
    requires pass.Retry? || pass.Rearm? ==> pass.now == now && pass.cfg == cfg
    ensures Verdict(pass, e).Some? ==> InTime(Verdict(pass, e).value, born, now, cfg)
    ensures pass.Retry? && Verdict(pass, e).None? ==>
              e.attempts == Allowed(cfg) && born + Elapsed(cfg, Allowed(cfg)) <= now
  {
  }

  lemma KeptInTime(led: Ledger, pass: Pass, now: int)
    requires Ordered(led) && Timely(led) && led.clock <= now
    requires pass.Retry? || pass.Rearm? ==> pass.now == now && pass.cfg == led.cfg
    ensures |Sweep(pass, led.s.inflight)| == |Kept(pass, led.s.inflight)|
    ensures var rest := Pick(led.ids, Kept(pass, led.s.inflight));
            forall k :: 0 <= k < |rest| ==>
              rest[k] < |led.msgs|
              && InTime(Sweep(pass, led.s.inflight)[k], led.msgs[rest[k]].born, now, led.cfg)
  {
    var q, ids, ks := led.s.inflight, led.ids, Kept(pass, led.s.inflight);
    var rest := Pick(ids, ks);
    SweepPartitions(pass, q);
    forall k | 0 <= k < |rest|
      ensures rest[k] < |led.msgs|
      ensures InTime(Sweep(pass, q)[k], led.msgs[rest[k]].born, now, led.cfg)
    {
      VerdictInTime(pass, q[ks[k]], led.msgs[ids[ks[k]]].born, led.clock, now, led.cfg);
    }
  }

  lemma BuriedFairly(led: Ledger, pass: Pass, now: int, b: Burial)
    requires Ordered(led) && Timely(led) && led.clock <= now
    requires pass.Retry? || pass.Rearm? ==> pass.now == now && pass.cfg == led.cfg
    requires b in Burials(pass, led.s.inflight, led.ids, now)
    ensures b.serial < |led.msgs| && FairBurial(b, led.msgs[b.serial], led.cfg)
  {
    var q, ids := led.s.inflight, led.ids;
    BurialsOf(pass, q, ids, now);
    var j :| 0 <= j < |q| && Buries(pass, q[j]) && b == Burial(ids[j], q[j].attempts, now, pass.Retry?);
    VerdictInTime(pass, q[j], led.msgs[ids[j]].born, led.clock, now, led.cfg);
    assert EntryOk(q[j], ids[j], led.msgs[ids[j]]);
  }

  lemma PassInTime(led: Ledger, pass: Pass, now: int, s': SessionState)
    requires Ordered(led) && Timely(led) && led.clock <= now
    requires pass.Retry? || pass.Rearm? ==> pass.now == now && pass.cfg == led.cfg
    requires s'.inflight == Sweep(pass, led.s.inflight)
    ensures Timely(AfterPass(led, pass, now).(s := s', clock := now))
  {
    hide Verdict, Burials, Kept, InTime, FairBurial, EntryOk, Sweep;
    KeptInTime(led, pass, now);
    var bs := Burials(pass, led.s.inflight, led.ids, now);
    var all := led.dead + bs;
    forall i | 0 <= i < |all|
      ensures all[i].serial < |led.msgs| && FairBurial(all[i], led.msgs[all[i].serial], led.cfg)
    {
      if i >= |led.dead| {
        BuriedFairly(led, pass, now, all[i]);
      }
    }
  }

  // ---- every event keeps them ----

  lemma NextIdIsNextPid(n: nat)
    ensures NextId(PidOf(n)) == PidOf(n + 1)
  {
  }

  lemma DeliverKeepsOrder(led: Ledger, act: Act, now: int)
    requires Ordered(led) && led.open && act.Deliver?
    ensures Ordered(Record(led, Live(act), now))
  {
    hide Backoff, Max, Min;
    NextIdIsNextPid(|led.msgs|);
    var led' := Record(led, Live(act), now);
    forall k | 0 <= k < |led'.ids| ensures EntryOk(led'.s.inflight[k], led'.ids[k], led'.msgs[led'.ids[k]]) {
      if k < |led.ids| {
        assert led'.s.inflight[k] == led.s.inflight[k] && led'.ids[k] == led.ids[k];
      }
    }
  }

  lemma DeliverInTime(led: Ledger, act: Act, now: int)
    requires Timely(led) && led.open && led.clock <= now && act.Deliver?
    ensures Timely(Record(led, Live(act), now))
  {
    var led' := Record(led, Live(act), now);
    assert Elapsed(led.cfg, 1) == Elapsed(led.cfg, 0) + Backoff(led.cfg, 1);
    forall k | 0 <= k < |led'.ids|
      ensures led'.ids[k] < |led'.msgs| && InTime(led'.s.inflight[k], led'.msgs[led'.ids[k]].born, now, led.cfg)
    {
      if k < |led.ids| {
        assert led'.s.inflight[k] == led.s.inflight[k] && led'.ids[k] == led.ids[k];
        assert InTime(led.s.inflight[k], led.msgs[led.ids[k]].born, led.clock, led.cfg);
      }
    }
  }

  lemma DeliverConserves(led: Ledger, act: Act, now: int)
    requires Conserved(led) && |led.ids| == |led.s.inflight| && led.open && act.Deliver?
    ensures Conserved(Record(led, Live(act), now))
  {
    if act.qos != AtMostOnce {
      assert SetOf(led.ids + [|led.msgs|]) == SetOf(led.ids) + {|led.msgs|};
    }
  }

  lemma DeliverKeeps(led: Ledger, act: Act, now: int)
    requires Inv(led) && led.open && led.clock <= now && act.Deliver?
    ensures Inv(Record(led, Live(act), now))
  {
    DeliverKeepsOrder(led, act, now);
    DeliverInTime(led, act, now);
    DeliverConserves(led, act, now);
  }

  lemma PubrecKeeps(led: Ledger, pid: U16, now: int)
    requires Inv(led) && led.open && led.clock <= now
    ensures Inv(Record(led, Live(AckRec(pid)), now))
  {
    var led' := Record(led, Live(AckRec(pid)), now);
    forall k | 0 <= k < |led.ids|
      ensures EntryOk(led'.s.inflight[k], led.ids[k], led.msgs[led.ids[k]])
      ensures InTime(led'.s.inflight[k], led.msgs[led.ids[k]].born, now, led.cfg)
    {
      PubrecEntry(led, pid, k, now);
    }
    assert Ordered(led') && Timely(led');
  }

  lemma PubrecEntry(led: Ledger, pid: U16, k: nat, now: int)
    requires Ordered(led) && Timely(led) && led.clock <= now && k < |led.ids|
    ensures |Received(led.s, pid).inflight| == |led.ids|
    ensures EntryOk(Received(led.s, pid).inflight[k], led.ids[k], led.msgs[led.ids[k]])
    ensures InTime(Received(led.s, pid).inflight[k], led.msgs[led.ids[k]].born, now, led.cfg)
  {
    assert EntryOk(led.s.inflight[k], led.ids[k], led.msgs[led.ids[k]]);
    assert InTime(led.s.inflight[k], led.msgs[led.ids[k]].born, led.clock, led.cfg);
  }

  lemma PassKeeps(led: Ledger, act: Act, now: int)
    requires Inv(led) && led.open && led.clock <= now && PassOf(act, now, led.cfg).Some?
    ensures Inv(Record(led, Live(act), now))
  {
    if !(act.Tick? && led.s.tx.None?) {
      var pass := PassOf(act, now, led.cfg).value;
      var s' := Stepped(led.s, act, now, led.cfg);
      PassKeepsOrder(led, pass, s');
      PassConserves(led, pass, now);
      PassInTime(led, pass, now, s');
    }
  }

  lemma EndKeeps(led: Ledger, e: Event, now: int)
    requires Inv(led) && led.open && led.clock <= now && !e.Live?
    ensures Inv(Record(led, e, now))
  {
    hide Verdict, Burials, Kept, InTime, EntryOk, Sweep, Stepped;
    if e.Discard? {
      Deal(SetOf(led.ids), led.acked, DeadSet(led.dead), led.dropped, |led.msgs|, {});
    } else {
      var s' := led.s.(inflight := Sweep(Drain, led.s.inflight));
      PassInTime(led, Drain, now, s');
      BurialConserves(led, Drain, now);
      var d := AfterPass(led, Drain, now);
      Deal(SetOf(d.ids), d.acked, DeadSet(d.dead), d.dropped, |d.msgs|, {});
    }
  }

  lemma RecordKeeps(led: Ledger, e: Event, now: int)
    requires Inv(led) && led.clock <= now
    ensures Inv(Record(led, e, now))
  {
    if led.open {
      match e
      case Live(act) =>
        if act.Deliver? {
          DeliverKeeps(led, act, now);
        } else if act.AckRec? {
          PubrecKeeps(led, act.pid, now);
        } else if PassOf(act, now, led.cfg).Some? {
          PassKeeps(led, act, now);
        }
      case _ => EndKeeps(led, e, now);
    }
  }

  // ---- whole runs ----

  type Trace = seq<(Event, int)>

  function AfterTrace(led: Ledger, trace: Trace): (r: Ledger)
    requires |led.ids| == |led.s.inflight|
    ensures |r.ids| == |r.s.inflight|
  {
    if trace == [] then led
    else
      var n := |trace| - 1;
      Record(AfterTrace(led, trace[..n]), trace[n].0, trace[n].1)
  }

  /** The clock never runs backwards. */
  predicate Monotone(clock: int, trace: Trace) {
    forall i :: 0 <= i < |trace| ==> clock <= trace[i].1 && (i > 0 ==> trace[i - 1].1 <= trace[i].1)
  }

  function Clock(clock: int, trace: Trace): int {
    if trace == [] then clock else trace[|trace| - 1].1
  }

  /** Every run of a session from its creation keeps order, conserves messages and is never early. */
  lemma {:induction false} EveryRunKeeps(led: Ledger, trace: Trace)
    requires Inv(led) && Monotone(led.clock, trace)
    ensures Inv(AfterTrace(led, trace))
    ensures AfterTrace(led, trace).clock <= Clock(led.clock, trace)
  {
    hide Record, Conserved, Timely;
    if trace != [] {
      var n := |trace| - 1;
      assert forall i :: 0 <= i < n ==> trace[..n][i] == trace[i];
      EveryRunKeeps(led, trace[..n]);
      RecordKeeps(AfterTrace(led, trace[..n]), trace[n].0, trace[n].1);
    }
  }

  lemma StartInv(clientId: Text, tx: Option<seq<Packet>>, expiry: U32, generation: nat, cfg: RetryConfig, clock: int)
    ensures Inv(Start(clientId, tx, expiry, generation, cfg, clock))
  {
  }
}
