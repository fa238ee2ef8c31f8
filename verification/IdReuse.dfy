/**
 * Packet ids come round after 65535 deliveries, and nothing checks that an id is free (`allocate_id` in
 * crates/relay-server/src/hub.rs): exactly when that costs a QoS 2 message, and that it does happen.
 */
module IdReuse {
  import opened Basics
  import opened Sessions
  import opened Delivery
  import opened ExactlyOnce

  // ---- why the id must be unused ----

  /** Nothing queued, nothing on the way, and a live connection. */
  predicate Quiet(net: Net) {
    net.led.s.tx == Some([]) && net.toS == [] && net.led.s.inflight == [] && net.led.ids == [] && net.led.open
  }

  function Handshake(topic: Text, payload: Bytes, retain: bool, now: int): NetTrace {
    [(Local(Deliver(topic, payload, ExactlyOnce, retain)), now), (Receive, now), (Answer, now), (Receive, now),
     (Answer, now)]
  }

  /** The state in the middle of a handshake: one message queued, one packet or answer on the way. */
  predicate Midway(net: Net, net': Net, m: Msg, state: Inflight, tx: seq<Packet>, toS: seq<Ack>, now: int)
  {
    var n := |net.led.msgs|;
    && net'.led.msgs == net.led.msgs + [m] && net'.led.ids == [n] && net'.led.open && net'.led.clock == now
    && |net'.led.s.inflight| == 1 && net'.led.s.inflight[0].state == state
    && net'.led.s.tx == Some(tx) && net'.toS == toS
  }

  lemma HandshakeSends(net: Net, topic: Text, payload: Bytes, retain: bool, now: int)
    requires Quiet(net) && Ordered(net.led)
    ensures var n, m := |net.led.msgs|, Msg(topic, payload, ExactlyOnce, retain, now);
            var net1 := Next(net, Handshake(topic, payload, retain, now)[0].0, now);
            && net1.incoming == net.incoming && net1.routed == net.routed
            && Midway(net, net1, m, Qos2AwaitRec(Original(m, n)), [PublishPacket(Original(m, n))], [], now)
  {
    hide Backoff;
    var n, m := |net.led.msgs|, Msg(topic, payload, ExactlyOnce, retain, now);
    var net1 := Next(net, Handshake(topic, payload, retain, now)[0].0, now);
    assert net1.led.ids == [n];
    assert net1.led.s.tx.value == [PublishPacket(Original(m, n))];
  }

  lemma HandshakeReceives(net: Net, net1: Net, m: Msg, now: int)
    requires var p := Original(m, |net.led.msgs|);
             Midway(net, net1, m, Qos2AwaitRec(p), [PublishPacket(p)], [], now) && m.qos == ExactlyOnce
    ensures var n := |net.led.msgs|;
            var net2 := Next(net1, Receive, now);
            && Midway(net, net2, m, Qos2AwaitRec(Original(m, n)), [], [PubRec(PidOf(n))], now)
            && net2.incoming == net1.incoming + {PidOf(n)}
            && net2.routed == net1.routed + if PidOf(n) in net1.incoming then [] else [n]
  {
    var n := |net.led.msgs|;
    LatestAfter(n, PidOf(n));
    if PidOf(n) in net1.incoming {
      assert net1.incoming + {PidOf(n)} == net1.incoming;
      assert net1.routed + [] == net1.routed;
    }
    assert Next(net1, Receive, now).toS == [PubRec(PidOf(n))];
    assert Next(net1, Receive, now).led.s.tx.value == [];
  }

  lemma HandshakeReleases(net: Net, net2: Net, m: Msg, now: int)
    requires Midway(net, net2, m, Qos2AwaitRec(Original(m, |net.led.msgs|)), [], [PubRec(PidOf(|net.led.msgs|))], now)
    ensures var n := |net.led.msgs|;
            var net3 := Next(net2, Answer, now);
            && Midway(net, net3, m, Qos2AwaitComp(PidOf(n)), [PubRel(PidOf(n))], [], now)
            && net3.incoming == net2.incoming && net3.routed == net2.routed
  {
    var n := |net.led.msgs|;
    assert Awaits(net2.led.s.inflight[0], PidOf(n));
    assert FirstAwaiting(net2.led.s.inflight, PidOf(n)) == 0;
    assert Next(net2, Answer, now).led.s.tx.value == [PubRel(PidOf(n))];
    assert Next(net2, Answer, now).toS == [];
  }

  lemma HandshakeCompletes(net: Net, net3: Net, m: Msg, now: int)
    requires Midway(net, net3, m, Qos2AwaitComp(PidOf(|net.led.msgs|)), [PubRel(PidOf(|net.led.msgs|))], [], now)
    ensures var n := |net.led.msgs|;
            var net4 := Next(net3, Receive, now);
            && Midway(net, net4, m, Qos2AwaitComp(PidOf(n)), [], [PubComp(PidOf(n))], now)
            && net4.routed == net3.routed
            && n in Next(net4, Answer, now).led.acked && Next(net4, Answer, now).routed == net3.routed
  {
    var n := |net.led.msgs|;
    var net4 := Next(net3, Receive, now);
    assert net4.toS == [PubComp(PidOf(n))];
    assert net4.led.s.tx.value == [];
    hide Sweep, Kept;
    CompletedIsAcked(net4.led, PidOf(n), now);
  }

  lemma CompletedIsAcked(led: Ledger, pid: U16, now: int)
    requires led.open && |led.ids| == |led.s.inflight| == 1 && led.s.inflight[0].state == Qos2AwaitComp(pid)
    ensures led.ids[0] in Record(led, Live(AckComp(pid)), now).acked
  {
    hide Sweep, Kept;
    GoneExactly(Pubcomp(pid), led.s.inflight, led.ids, 0);
  }

  /**
   * On a quiet connection the handshake of a QoS 2 message always completes, and the message is
   * published on if and only if the receiver does not still hold its id: a reused id is lost silently.
   */
  lemma HandshakeDeliversExactlyWhenFresh(net: Net, topic: Text, payload: Bytes, retain: bool, now: int)
    requires NetInv(net) && Quiet(net) && net.led.clock <= now
    ensures NetLegal(net, Handshake(topic, payload, retain, now), false)
    ensures var n := |net.led.msgs|;
            var r := RunNet(net, Handshake(topic, payload, retain, now));
            n in r.led.acked && (n in r.routed <==> PidOf(n) !in net.incoming)
  {
    NotYetRouted(net);
    hide NetInv, Record, Ordered, TakePacket, Latest;
    var m := Msg(topic, payload, ExactlyOnce, retain, now);
    var trace := Handshake(topic, payload, retain, now);
    var net1 := Next(net, trace[0].0, now);
    HandshakeSends(net, topic, payload, retain, now);
    var net2 := Next(net1, Receive, now);
    HandshakeReceives(net, net1, m, now);
    var net3 := Next(net2, Answer, now);
    HandshakeReleases(net, net2, m, now);
    var net4 := Next(net3, Receive, now);
    HandshakeCompletes(net, net3, m, now);
    var net5 := Next(net4, Answer, now);
    RunFive(net, trace, net1, net2, net3, net4, net5, now);
  }

  lemma NotYetRouted(net: Net)
    requires NetInv(net)
    ensures |net.led.msgs| !in net.routed && Sized(net) && Ordered(net.led)
  {
  }

  lemma RunFive(net: Net, trace: NetTrace, net1: Net, net2: Net, net3: Net, net4: Net, net5: Net, now: int)
    requires |trace| == 5 && forall i :: 0 <= i < 5 ==> trace[i].1 == now
    requires Sized(net) && Enabled(net, trace[0].0) && net.led.clock <= now && net1 == Next(net, trace[0].0, now)
    requires Sized(net1) && Enabled(net1, trace[1].0) && net1.led.clock <= now && net2 == Next(net1, trace[1].0, now)
    requires Sized(net2) && Enabled(net2, trace[2].0) && net2.led.clock <= now && net3 == Next(net2, trace[2].0, now)
    requires Sized(net3) && Enabled(net3, trace[3].0) && net3.led.clock <= now && net4 == Next(net3, trace[3].0, now)
    requires Sized(net4) && Enabled(net4, trace[4].0) && net4.led.clock <= now && net5 == Next(net4, trace[4].0, now)
    ensures NetLegal(net, trace, false) && RunNet(net, trace) == net5
  {
    hide Next, Enabled, Sized;
    var t1, t2, t3, t4 := trace[1..], trace[2..], trace[3..], trace[4..];
    assert t1[1..] == t2 && t2[1..] == t3 && t3[1..] == t4 && t4[1..] == [];
    assert NetLegal(net5, [], false);
    assert NetLegal(net4, t4, false) && RunNet(net4, t4) == net5;
    assert NetLegal(net3, t3, false) && RunNet(net3, t3) == net5;
    assert NetLegal(net2, t2, false) && RunNet(net2, t2) == net5;
    assert NetLegal(net1, t1, false) && RunNet(net1, t1) == net5;
  }

  // ---- a held id does come round again ----

  const ONE_TRY: RetryConfig := RetryConfig(1, 1, 1)
  const ORPHAN: NetTrace :=
    [(Connect(1, 1), 0), (Local(Deliver([], [], ExactlyOnce, false)), 0), (Receive, 0), (Cut, 0)]
  const BURY: NetTrace := [(Connect(1, 2), 0), (Local(Tick), 1), (Cut, 1), (Connect(1, 3), 1)]
  const FILL: (NetStep, int) := (Local(Deliver([], [], AtLeastOnce, false)), 0)

  function Filling(n: nat): (t: NetTrace)
    ensures |t| == n
  {
    if n == 0 then [] else [FILL] + Filling(n - 1)
  }

  /** Offline with `n` messages queued after one attempt each, the receiver holding id 1. */
  predicate Backlog(net: Net, n: nat) {
    && |net.led.ids| == |net.led.s.inflight| == |net.led.msgs| == n && net.led.open && net.led.clock == 0
    && (forall k :: 0 <= k < n ==> Mortal(net.led.s.inflight[k]) && net.led.s.inflight[k].attempts == 1)
    && net.led.s.tx == None && net.toS == [] && net.incoming == {1} && net.led.cfg == ONE_TRY
  }

  lemma {:induction false} FillingBacklog(net: Net, n: nat, k: nat)
    requires Backlog(net, n)
    ensures NetLegal(net, Filling(k), false) && Backlog(RunNet(net, Filling(k)), n + k)
    decreases k
  {
    if k > 0 {
      FillStep(net, n);
      hide Next, Backlog;
      assert Filling(k)[1..] == Filling(k - 1);
      FillingBacklog(Next(net, FILL.0, 0), n + 1, k - 1);
    }
  }

  lemma FillStep(net: Net, n: nat)
    requires Backlog(net, n)
    ensures Sized(net) && Enabled(net, FILL.0) && net.led.clock <= 0 && Backlog(Next(net, FILL.0, 0), n + 1)
  {
    hide Backoff;
    var net' := Next(net, FILL.0, 0);
    forall k | 0 <= k < n + 1 ensures Mortal(net'.led.s.inflight[k]) && net'.led.s.inflight[k].attempts == 1 {
      if k < n {
        assert net'.led.s.inflight[k] == net.led.s.inflight[k];
      }
    }
  }

  lemma {:induction false} RunMore(net: Net, t: NetTrace, u: NetTrace)
    requires NetLegal(net, t, false) && NetLegal(RunNet(net, t), u, false)
    ensures NetLegal(net, t + u, false) && RunNet(net, t + u) == RunNet(RunNet(net, t), u)
    decreases |t|
  {
    hide Next, Enabled;
    if t == [] {
      assert t + u == u;
    } else {
      assert (t + u)[1..] == t[1..] + u;
      RunMore(Next(net, t[0].0, t[0].1), t[1..], u);
    }
  }

  lemma RunStep(net: Net, trace: NetTrace, rest: NetTrace)
    requires trace != [] && rest == trace[1..]
    requires Sized(net) && Enabled(net, trace[0].0) && net.led.clock <= trace[0].1
    requires NetLegal(Next(net, trace[0].0, trace[0].1), rest, false)
    ensures NetLegal(net, trace, false)
    ensures RunNet(net, trace) == RunNet(Next(net, trace[0].0, trace[0].1), rest)
  {
    hide Next, Enabled;
  }

  lemma ReconnectIs(expiry: U32, generation: nat)
    ensures var init := InitNet([], 1, 0, ONE_TRY, 0);
            var net := Next(init, Connect(expiry, generation), 0);
            net == init.(led := init.led.(s := init.led.s.(tx := Some([]), expiry := expiry, generation := generation)))
  {
    var init := InitNet([], 1, 0, ONE_TRY, 0);
    assert init.led.s.inflight == [];
    assert Next(init, Connect(expiry, generation), 0).led.ids == [];
    assert init.led.dead + [] == init.led.dead;
  }

  lemma Orphaned(net: Net, net2: Net)
    requires Midway(net, net2, Msg([], [], ExactlyOnce, false, 0),
                    Qos2AwaitRec(Original(Msg([], [], ExactlyOnce, false, 0), 0)), [], [PubRec(1)], 0)
    requires net.led.msgs == [] && net2.led.s.inflight[0].attempts == 1 && net2.incoming == {1}
    requires net2.led.cfg == ONE_TRY
    ensures Backlog(Next(net2, Cut, 0), 1)
  {
  }

  lemma OrphanBacklog()
    ensures var init := InitNet([], 1, 0, ONE_TRY, 0);
            NetLegal(init, ORPHAN, false) && Backlog(RunNet(init, ORPHAN), 1)
  {
    hide Record, Backlog, Ordered, TakePacket, PidOf;
    var init := InitNet([], 1, 0, ONE_TRY, 0);
    var m := Msg([], [], ExactlyOnce, false, 0);
    ReconnectIs(1, 1);
    var net0 := Next(init, ORPHAN[0].0, 0);
    InitOrdered(net0);
    var net1 := Next(net0, ORPHAN[1].0, 0);
    HandshakeSends(net0, [], [], false, 0);
    HandshakeReceives(net0, net1, m, 0);
    var net2 := Next(net1, Receive, 0);
    OrphanAttempts(net0);
    Orphaned(net0, net2);
    assert ORPHAN[1..][1..] == ORPHAN[2..] && ORPHAN[2..][1..] == ORPHAN[3..] && ORPHAN[3..][1..] == [];
    RunStep(net2, ORPHAN[3..], []);
    RunStep(net1, ORPHAN[2..], ORPHAN[3..]);
    RunStep(net0, ORPHAN[1..], ORPHAN[2..]);
    RunStep(init, ORPHAN, ORPHAN[1..]);
  }

  lemma InitOrdered(net: Net)
    requires net.led.msgs == [] && net.led.ids == [] && net.led.s.inflight == [] && net.led.s.nextId == 1
    ensures Ordered(net.led)
  {
  }

  lemma OrphanAttempts(net: Net)
    requires Quiet(net) && Ordered(net.led)
    ensures var net1 := Next(net, ORPHAN[1].0, 0);
            && |net1.led.s.inflight| == 1 && net1.led.s.inflight[0].attempts == 1
            && net1.led.cfg == net.led.cfg
  {
    hide Backoff;
  }

  lemma {:induction false} SweptAway(pass: Pass, q: seq<Entry>)
    requires forall k :: 0 <= k < |q| ==> Verdict(pass, q[k]).None?
    ensures Sweep(pass, q) == [] && Kept(pass, q) == []
  {
    hide Verdict;
    if q != [] {
      SweptAway(pass, q[..|q| - 1]);
    }
  }

  /** Every entry is on its last attempt and due at 1. */
  predicate LastChance(net: Net, n: nat) {
    && |net.led.ids| == |net.led.s.inflight| && |net.led.msgs| == n && net.led.open
    && (forall k :: 0 <= k < |net.led.s.inflight| ==>
          var e := net.led.s.inflight[k]; Mortal(e) && e.attempts == 1 && e.nextDue <= 1)
    && net.led.s.tx.Some? && net.toS == [] && net.incoming == {1} && net.led.cfg == ONE_TRY && net.led.clock <= 1
  }

  lemma BacklogConnects(net: Net, n: nat)
    requires Backlog(net, n)
    ensures LastChance(Next(net, BURY[0].0, 0), n)
  {
    var pass := Rearm(0, ONE_TRY);
    var net' := Next(net, BURY[0].0, 0);
    assert Backoff(ONE_TRY, 1) == 1 by {
      assert Doubled(1, 0) == 1;
    }
    SweepPartitions(pass, net.led.s.inflight);
    forall k | 0 <= k < |net'.led.s.inflight|
      ensures var e := net'.led.s.inflight[k]; Mortal(e) && e.attempts == 1 && e.nextDue <= 1
    {
      var j := Kept(pass, net.led.s.inflight)[k];
      assert net'.led.s.inflight[k] == Rearmed(net.led.s.inflight[j], 0, ONE_TRY);
    }
  }

  lemma LastChanceGone(net: Net, n: nat)
    requires LastChance(net, n)
    ensures var net' := Next(net, Local(Tick), 1);
            net'.led.s.inflight == [] && LastChance(net', n)
  {
    SweptAway(Retry(1, ONE_TRY), net.led.s.inflight);
    hide Sweep, Sent, Kept;
  }

  lemma Rejoined(net: Net, n: nat)
    requires LastChance(net, n) && net.led.s.inflight == []
    ensures var cut := Next(net, Cut, 1);
            var net' := Next(cut, BURY[3].0, 1);
            && Sized(cut) && cut.led.clock <= 1
            && Quiet(net') && |net'.led.msgs| == n && net'.incoming == {1}
  {
    var cut := Next(net, Cut, 1);
    assert cut.led.ids == [];
    assert Next(cut, BURY[3].0, 1).led.s.tx.value == [];
  }

  lemma BuryQuiets(net: Net, n: nat)
    requires Backlog(net, n)
    ensures NetLegal(net, BURY, false)
    ensures var r := RunNet(net, BURY); Quiet(r) && |r.led.msgs| == n && r.incoming == {1}
  {
    hide Record, Mortal;
    var net1 := Next(net, BURY[0].0, 0);
    BacklogConnects(net, n);
    var net2 := Next(net1, BURY[1].0, 1);
    LastChanceGone(net1, n);
    var net3 := Next(net2, BURY[2].0, 1);
    Rejoined(net2, n);
    assert BURY[1..][1..] == BURY[2..] && BURY[2..][1..] == BURY[3..] && BURY[3..][1..] == [];
    RunStep(net3, BURY[3..], []);
    RunStep(net2, BURY[2..], BURY[3..]);
    RunStep(net1, BURY[1..], BURY[2..]);
    RunStep(net, BURY, BURY[1..]);
  }

  /**
   * The wrapped counter does reach an id the receiver still holds, without any id having been reused
   * before: the next QoS 2 message would be completed and never published on.
   */
  lemma HeldIdComesRound() returns (net: Net, trace: NetTrace)
    ensures NetLegal(InitNet([], 1, 0, ONE_TRY, 0), trace, true)
    ensures NetLegal(InitNet([], 1, 0, ONE_TRY, 0), trace, false)
    ensures net == RunNet(InitNet([], 1, 0, ONE_TRY, 0), trace)
    ensures NetInv(net) && Quiet(net) && PidOf(|net.led.msgs|) in net.incoming
  {
    hide NetInv, Backlog, Quiet;
    var init := InitNet([], 1, 0, ONE_TRY, 0);
    OrphanBacklog();
    var net1 := RunNet(init, ORPHAN);
    FillingBacklog(net1, 1, 65534);
    var net2 := RunNet(net1, Filling(65534));
    BuryQuiets(net2, 65535);
    RunMore(init, ORPHAN, Filling(65534));
    RunMore(init, ORPHAN + Filling(65534), BURY);
    trace := ORPHAN + Filling(65534) + BURY;
    net := RunNet(init, trace);
    InitOk([], 1, 0, ONE_TRY, 0);
    FewIdsAreFresh(init, trace);
    RunKeeps(init, trace);
  }
}
