/**
 * The two halves of QoS 2 delivery (section 4.3.3 of MQTT 5.0) put together: a sending session, with
 * its timer and its reconnects, and a receiver that follows the broker's inbound rule, over a
 * connection that delivers in order until it is cut.
 */
module ExactlyOnce {
  import opened Basics
  import opened Sessions
  import opened Delivery
  import opened Guarantees

  datatype Ack = PubAck(pid: U16) | PubRec(pid: U16) | PubComp(pid: U16)

  /**
   * The session's channel holds the packets on their way to the receiver, `toS` the answers on their
   * way back. `incoming` is the receiver's dedup set. `routed` lists the serials of the messages the
   * receiver has published on, `content` the PUBLISH packets it did it from.
   */
  datatype Net = Net(led: Ledger, toS: seq<Ack>, incoming: set<U16>, routed: seq<nat>, content: seq<Publish>)

  datatype NetStep =
    | Local(act: Act)
    | Connect(expiry: U32, generation: nat)
    | Cut
    | Restart
    | Receive
    | Answer

  function InTransit(s: SessionState): seq<Packet> {
    if s.tx.Some? then s.tx.value else []
  }

  /** The last delivery that was given this packet id. */
  function Latest(n: nat, pid: U16): (r: Option<nat>)
    ensures r.Some? ==> r.value < n && PidOf(r.value) == pid
  {
    if n == 0 then None else if PidOf(n - 1) == pid then Some(n - 1) else Latest(n - 1, pid)
  }

  /** What the receiver does with a PUBLISH: always publish QoS 1, publish QoS 2 unless the id is held. */
  function TakePublish(net: Net, p: Publish): Net {
    if p.qos == AtMostOnce || p.packetId.None? then net
    else
      var pid := p.packetId.value;
      var answered := net.(toS := net.toS + [if p.qos == AtLeastOnce then PubAck(pid) else PubRec(pid)]);
      if p.qos == ExactlyOnce && pid in net.incoming then answered
      else
        answered.(incoming := if p.qos == ExactlyOnce then net.incoming + {pid} else net.incoming,
                  routed := net.routed + (match Latest(|net.led.msgs|, pid) case Some(m) => [m] case None => []),
                  content := net.content + [p])
  }

  function TakePacket(net: Net, packet: Packet): Net {
    match packet
    case PublishPacket(p) => TakePublish(net, p)
    case PubRel(pid) => net.(incoming := net.incoming - {pid}, toS := net.toS + [PubComp(pid)])
  }

  function ActFor(ack: Ack): Act {
    match ack
    case PubAck(pid) => AckPub(pid)
    case PubRec(pid) => AckRec(pid)
    case PubComp(pid) => AckComp(pid)
  }

  predicate Sized(net: Net) {
    |net.led.ids| == |net.led.s.inflight|
  }

  /** The acts of a session that need no packet from its peer. */
  predicate IsLocal(act: Act) {
    act.Deliver? || act.Tick? || (act.Push? && act.publish.qos == AtMostOnce && act.publish.packetId == None)
  }

  predicate Enabled(net: Net, step: NetStep) {
    match step
    case Local(act) => IsLocal(act)
    case Receive => InTransit(net.led.s) != []
    case Answer => net.toS != []
    case _ => true
  }

  function Next(net: Net, step: NetStep, now: int): (r: Net)
    requires Sized(net) && Enabled(net, step)
    ensures Sized(r)
  {
    match step
    case Local(act) => net.(led := Record(net.led, Live(act), now))
    case Connect(expiry, generation) => net.(led := Record(net.led, Live(Resume(expiry, generation)), now), toS := [])
    case Cut => net.(led := Record(net.led, Live(Detach), now), toS := [])
    case Restart => net.(led := Record(net.led, Live(Reload), now), toS := [])
    case Receive =>
      var tx := InTransit(net.led.s);
      var taken := TakePacket(net, tx[0]);
      taken.(led := net.led.(s := net.led.s.(tx := Some(tx[1..]))))
    case Answer => net.(led := Record(net.led, Live(ActFor(net.toS[0])), now), toS := net.toS[1..])
  }

  /** The id about to be given out is in use nowhere: not queued, not on the way, not held by the receiver. */
  predicate FreshId(net: Net)
    requires Sized(net)
  {
    var pid := PidOf(|net.led.msgs|);
    && pid !in net.incoming
    && (forall k :: 0 <= k < |net.led.ids| ==> PidOf(net.led.ids[k]) != pid)
    && (forall i :: 0 <= i < |InTransit(net.led.s)| ==> PacketPid(InTransit(net.led.s)[i]) != Some(pid))
    && (forall i :: 0 <= i < |net.toS| ==> net.toS[i].pid != pid)
  }

  function PacketPid(p: Packet): Option<U16> {
    match p
    case PublishPacket(pub) => pub.packetId
    case PubRel(pid) => Some(pid)
  }

  // ---- the invariant ----

  predicate Unconfirmed(led: Ledger, m: nat)
    requires |led.ids| == |led.s.inflight|
  {
    exists k :: 0 <= k < |led.ids| && led.ids[k] == m && Undelivered(led.s.inflight[k])
  }

  predicate Owns(led: Ledger, m: nat) {
    Latest(|led.msgs|, PidOf(m)) == Some(m)
  }

  /** `m` is the current owner of `pid`, of the given quality of service, and has been published on. */
  predicate Served(net: Net, pid: U16, m: nat, qos: QoS) {
    Latest(|net.led.msgs|, pid) == Some(m) && net.led.msgs[m].qos == qos && m in net.routed
  }

  predicate IsQosPublish(p: Packet, pid: U16) {
    p.PublishPacket? && p.publish.packetId == Some(pid)
  }

  predicate QueueOk(net: Net)
    requires Sized(net)
  {
    forall k :: 0 <= k < |net.led.ids| ==>
      Owns(net.led, net.led.ids[k]) && (Undelivered(net.led.s.inflight[k]) || net.led.ids[k] in net.routed)
  }

  predicate PacketOk(net: Net, p: Packet)
    requires Sized(net)
  {
    match p
    case PublishPacket(pub) =>
      (pub.qos == AtMostOnce && pub.packetId == None)
      || (pub.packetId.Some?
          && var owner := Latest(|net.led.msgs|, pub.packetId.value);
             owner.Some? && pub.(dup := false) == Original(net.led.msgs[owner.value], owner.value)
             && pub.qos != AtMostOnce)
    case PubRel(pid) =>
      var owner := Latest(|net.led.msgs|, pid);
      owner.Some? && Served(net, pid, owner.value, ExactlyOnce) && !Unconfirmed(net.led, owner.value)
  }

  /** No PUBLISH travels behind the PUBREL of its id. */
  predicate InOrder(tx: seq<Packet>) {
    forall i, j :: 0 <= i < j < |tx| && tx[i].PubRel? ==> !IsQosPublish(tx[j], tx[i].pid)
  }

  predicate TransitOk(net: Net)
    requires Sized(net)
  {
    var tx := InTransit(net.led.s);
    InOrder(tx) && forall i :: 0 <= i < |tx| ==> PacketOk(net, tx[i])
  }

  predicate AcksOk(net: Net) {
    forall i :: 0 <= i < |net.toS| ==>
      var owner := Latest(|net.led.msgs|, net.toS[i].pid);
      owner.Some? && Served(net, net.toS[i].pid, owner.value, if net.toS[i].PubAck? then AtLeastOnce else ExactlyOnce)
  }

  predicate IncomingOk(net: Net) {
    forall pid :: pid in net.incoming ==>
      var owner := Latest(|net.led.msgs|, pid);
      owner.Some? && Served(net, pid, owner.value, ExactlyOnce)
  }

  /** Once the receiver has let go of a message, nothing can make it publish the message again. */
  predicate ReleasedOk(net: Net)
    requires Sized(net)
  {
    forall m :: m in net.routed && LetGo(net, m) ==> Gone(net, m)
  }

  /** A current QoS 2 message whose id the receiver does not hold. */
  predicate LetGo(net: Net, m: nat) {
    m < |net.led.msgs| && net.led.msgs[m].qos == ExactlyOnce && Owns(net.led, m) && PidOf(m) !in net.incoming
  }

  predicate Gone(net: Net, m: nat)
    requires Sized(net)
  {
    !Unconfirmed(net.led, m)
    && forall i :: 0 <= i < |InTransit(net.led.s)| ==> !IsQosPublish(InTransit(net.led.s)[i], PidOf(m))
  }

  predicate RoutedOk(net: Net) {
    && |net.content| == |net.routed|
    && (forall i :: 0 <= i < |net.routed| ==>
          net.routed[i] < |net.led.msgs|
          && net.content[i].(dup := false) == Original(net.led.msgs[net.routed[i]], net.routed[i]))
    && (forall i, j :: 0 <= i < j < |net.routed| && net.routed[i] == net.routed[j] ==>
          net.led.msgs[net.routed[i]].qos == AtLeastOnce)
    && (forall m :: m in net.led.acked ==> m in net.routed)
  }

  predicate NetInv(net: Net) {
    && Delivery.Inv(net.led) && net.led.open
    && QueueOk(net) && TransitOk(net) && AcksOk(net) && IncomingOk(net) && ReleasedOk(net) && RoutedOk(net)
  }

  // ---- what the sender repeats ----

  /** The queue of `led'` is what is left of the queue of `led`. */
  predicate Shrunk(led: Ledger, led': Ledger)
    requires |led.ids| == |led.s.inflight| && |led'.ids| == |led'.s.inflight|
  {
    && led'.msgs == led.msgs && led'.open
    && (forall j :: 0 <= j < |led'.ids| ==> ComesFrom(led, led'.ids[j], led'.s.inflight[j]))
  }

  predicate ComesFrom(led: Ledger, m: nat, e: Entry)
    requires |led.ids| == |led.s.inflight|
  {
    exists k :: 0 <= k < |led.ids| && led.ids[k] == m && (Undelivered(e) ==> Undelivered(led.s.inflight[k]))
  }

  predicate Repeats(led: Ledger, p: Packet)
    requires |led.ids| == |led.s.inflight|
  {
    exists k :: 0 <= k < |led.ids| && p == Again(led.s.inflight[k])
  }

  /** What the sender may put on the wire: a repeat, or the PUBREL of a message already published on. */
  predicate Sendable(net: Net, p: Packet)
    requires Sized(net)
  {
    Repeats(net.led, p) || (p.PubRel? && PacketOk(net, p))
  }

  lemma SendableOk(net: Net, p: Packet)
    requires Sized(net) && Ordered(net.led) && QueueOk(net) && Sendable(net, p)
    ensures PacketOk(net, p)
  {
    if Repeats(net.led, p) {
      var k :| 0 <= k < |net.led.ids| && p == Again(net.led.s.inflight[k]);
      AgainOk(net, k);
    }
  }

  lemma UnconfirmedShrinks(led: Ledger, led': Ledger, m: nat)
    requires |led.ids| == |led.s.inflight| && |led'.ids| == |led'.s.inflight|
    requires Shrunk(led, led') && Unconfirmed(led', m)
    ensures Unconfirmed(led, m)
  {
    var j :| 0 <= j < |led'.ids| && led'.ids[j] == m && Undelivered(led'.s.inflight[j]);
    assert ComesFrom(led, led'.ids[j], led'.s.inflight[j]);
  }

  /** What the queue can send again is right, whatever is queued. */
  lemma AgainOk(net: Net, k: nat)
    requires Sized(net) && Ordered(net.led) && QueueOk(net) && k < |net.led.ids|
    ensures PacketOk(net, Again(net.led.s.inflight[k]))
    ensures PacketPid(Again(net.led.s.inflight[k])) == Some(PidOf(net.led.ids[k]))
  {
    var m, e := net.led.ids[k], net.led.s.inflight[k];
    assert EntryOk(e, m, net.led.msgs[m]) && Owns(net.led, m);
  }

  /** A repeated PUBLISH belongs to a queued message still waiting for its first answer. */
  lemma RepeatedPublish(net: Net, p: Packet, pid: U16) returns (m: nat)
    requires Sized(net) && Ordered(net.led) && QueueOk(net) && Repeats(net.led, p) && IsQosPublish(p, pid)
    ensures Latest(|net.led.msgs|, pid) == Some(m) && PidOf(m) == pid && Unconfirmed(net.led, m)
  {
    var k :| 0 <= k < |net.led.ids| && p == Again(net.led.s.inflight[k]);
    m := net.led.ids[k];
    AgainOk(net, k);
    assert Owns(net.led, m);
  }

  lemma PublishUnconfirmed(net: Net, p: Packet, m: nat)
    requires Sized(net) && Ordered(net.led) && QueueOk(net) && Sendable(net, p) && Owns(net.led, m)
    ensures IsQosPublish(p, PidOf(m)) ==> Unconfirmed(net.led, m)
  {
    if IsQosPublish(p, PidOf(m)) {
      var m' := RepeatedPublish(net, p, PidOf(m));
    }
  }

  lemma PacketStaysOk(net: Net, net': Net, p: Packet)
    requires Sized(net) && Sized(net') && PacketOk(net, p)
    requires Shrunk(net.led, net'.led) && net'.routed == net.routed
    ensures PacketOk(net', p)
  {
    if p.PubRel? {
      var m := Latest(|net.led.msgs|, p.pid).value;
      if Unconfirmed(net'.led, m) {
        UnconfirmedShrinks(net.led, net'.led, m);
      }
    }
  }

  lemma BatchInOrder(net: Net, base: seq<Packet>, batch: seq<Packet>)
    requires Sized(net) && Ordered(net.led) && QueueOk(net)
    requires InOrder(base) && forall i :: 0 <= i < |base| ==> PacketOk(net, base[i])
    requires forall i :: 0 <= i < |batch| ==> Sendable(net, batch[i])
    ensures InOrder(base + batch)
  {
    var tx := base + batch;
    forall i, j | 0 <= i < j < |tx| && tx[i].PubRel? ensures !IsQosPublish(tx[j], tx[i].pid) {
      if j >= |base| && IsQosPublish(tx[j], tx[i].pid) {
        assert tx[j] == batch[j - |base|];
        var m := RepeatedPublish(net, tx[j], tx[i].pid);
        assert PacketOk(net, tx[i]) by {
          if i >= |base| {
            SendableOk(net, batch[i - |base|]);
          }
        }
        assert false;
      }
    }
  }

  lemma BatchGone(net: Net, net': Net, base: seq<Packet>, batch: seq<Packet>, m: nat)
    requires Sized(net) && Ordered(net.led) && QueueOk(net) && Gone(net, m) && Owns(net.led, m)
    requires Sized(net') && Shrunk(net.led, net'.led)
    requires base == [] || base == InTransit(net.led.s)
    requires forall i :: 0 <= i < |batch| ==> Sendable(net, batch[i])
    requires InTransit(net'.led.s) == base + batch
    ensures Gone(net', m)
  {
    var tx := base + batch;
    if Unconfirmed(net'.led, m) {
      UnconfirmedShrinks(net.led, net'.led, m);
    }
    forall i | 0 <= i < |tx| ensures !IsQosPublish(tx[i], PidOf(m)) {
      if i >= |base| {
        assert Sendable(net, batch[i - |base|]);
        PublishUnconfirmed(net, tx[i], m);
      }
    }
  }

  /** A sender that only forgets entries and repeats packets keeps the invariant. */
  lemma ResendKeeps(net: Net, net': Net, base: seq<Packet>, batch: seq<Packet>)
    requires NetInv(net) && Delivery.Inv(net'.led)
    requires net' == net.(led := net'.led, toS := net'.toS)
    requires net'.toS == [] || net'.toS == net.toS || (net.toS != [] && net'.toS == net.toS[1..])
    requires Shrunk(net.led, net'.led)
    requires base == [] || base == InTransit(net.led.s)
    requires forall i :: 0 <= i < |batch| ==> Sendable(net, batch[i])
    requires InTransit(net'.led.s) == base + batch
    requires forall m :: m in net'.led.acked ==> m in net.routed
    requires forall j :: 0 <= j < |net'.led.ids| ==>
               Undelivered(net'.led.s.inflight[j]) || net'.led.ids[j] in net.routed
    ensures NetInv(net')
  {
    hide Delivery.Conserved, Delivery.Timely, PacketOk, Latest;
    assert QueueOk(net') by {
      forall j | 0 <= j < |net'.led.ids|
        ensures Owns(net'.led, net'.led.ids[j])
        ensures Undelivered(net'.led.s.inflight[j]) || net'.led.ids[j] in net'.routed
      {
        assert ComesFrom(net.led, net'.led.ids[j], net'.led.s.inflight[j]);
      }
    }
    var tx := base + batch;
    assert TransitOk(net') by {
      BatchInOrder(net, base, batch);
      forall i | 0 <= i < |tx| ensures PacketOk(net', tx[i]) {
        if i >= |base| {
          SendableOk(net, batch[i - |base|]);
        }
        PacketStaysOk(net, net', tx[i]);
      }
    }
    assert AcksOk(net');
    assert ReleasedOk(net') by {
      forall m | m in net'.routed && LetGo(net', m) ensures Gone(net', m) {
        assert LetGo(net, m);
        BatchGone(net, net', base, batch, m);
      }
    }
  }

  // ---- each step of the sender ----

  lemma {:induction false} SentRepeats(pass: Pass, q: seq<Entry>, i: nat) returns (k: nat)
    requires i < |Sent(pass, q)|
    ensures k < |q| && Sent(pass, q)[i] == Again(q[k])
  {
    hide Sends, Again;
    var n := |q| - 1;
    if i < |Sent(pass, q[..n])| {
      k := SentRepeats(pass, q[..n], i);
      assert q[..n][k] == q[k];
    } else {
      k := n;
    }
  }

  /** The message was queued before, waiting for the same answer. */
  predicate Stays(led: Ledger, m: nat, e: Entry)
    requires |led.ids| == |led.s.inflight|
  {
    exists k :: 0 <= k < |led.ids| && led.ids[k] == m && led.s.inflight[k].state == e.state
  }

  lemma KeptStays(led: Ledger, pass: Pass, j: nat)
    requires |led.ids| == |led.s.inflight| && j < |Kept(pass, led.s.inflight)|
    ensures |Sweep(pass, led.s.inflight)| == |Kept(pass, led.s.inflight)|
    ensures Stays(led, Pick(led.ids, Kept(pass, led.s.inflight))[j], Sweep(pass, led.s.inflight)[j])
  {
    hide Verdict;
    SweepPartitions(pass, led.s.inflight);
    var k := Kept(pass, led.s.inflight)[j];
    VerdictKeepsState(pass, led.s.inflight[k]);
  }

  /** After a pass, the queue is what is left of the old one. */
  lemma PassForgets(led: Ledger, act: Act, now: int)
    requires Ordered(led) && led.open && PassOf(act, now, led.cfg).Some?
    ensures Shrunk(led, Record(led, Live(act), now))
    ensures forall j :: 0 <= j < |Record(led, Live(act), now).ids| ==>
              Stays(led, Record(led, Live(act), now).ids[j], Record(led, Live(act), now).s.inflight[j])
  {
    hide Stepped, Burials, Sweep, Kept, EntryOk, PidOf, Pick;
    var led' := Record(led, Live(act), now);
    SteppedQueue(led.s, act, now, led.cfg);
    forall j | 0 <= j < |led'.ids| ensures Stays(led, led'.ids[j], led'.s.inflight[j]) {
      if act.Tick? && led.s.tx.None? {
        assert led.ids[j] == led'.ids[j];
      } else {
        KeptStays(led, PassOf(act, now, led.cfg).value, j);
      }
    }
    forall j | 0 <= j < |led'.ids| ensures ComesFrom(led, led'.ids[j], led'.s.inflight[j]) {
      assert Stays(led, led'.ids[j], led'.s.inflight[j]);
    }
  }

  lemma ConfirmedStayRouted(net: Net, led': Ledger)
    requires Sized(net) && QueueOk(net) && |led'.ids| == |led'.s.inflight|
    requires forall j :: 0 <= j < |led'.ids| ==> Stays(net.led, led'.ids[j], led'.s.inflight[j])
    ensures forall j :: 0 <= j < |led'.ids| ==> Undelivered(led'.s.inflight[j]) || led'.ids[j] in net.routed
  {
    forall j | 0 <= j < |led'.ids| ensures Undelivered(led'.s.inflight[j]) || led'.ids[j] in net.routed {
      assert Stays(net.led, led'.ids[j], led'.s.inflight[j]);
    }
  }

  /** What the passes of the timer, a reconnect or a restart put on the wire. */
  lemma PassTransit(led: Ledger, act: Act, now: int) returns (base: seq<Packet>, batch: seq<Packet>)
    requires Ordered(led) && led.open && PassOf(act, now, led.cfg).Some?
    ensures base == [] || base == InTransit(led.s)
    ensures InTransit(Record(led, Live(act), now).s) == base + batch
    ensures forall i :: 0 <= i < |batch| ==> Repeats(led, batch[i])
  {
    var pass := PassOf(act, now, led.cfg).value;
    base := if act.Resume? || act.Reload? then [] else InTransit(led.s);
    batch := if act.Resume? || (act.Tick? && led.s.tx.Some?) then Sent(pass, led.s.inflight) else [];
    forall i | 0 <= i < |batch| ensures Repeats(led, batch[i]) {
      var k := SentRepeats(pass, led.s.inflight, i);
    }
    TransitAfter(led, act, now, base, batch);
  }

  lemma TransitAfter(led: Ledger, act: Act, now: int, base: seq<Packet>, batch: seq<Packet>)
    requires Ordered(led) && led.open && PassOf(act, now, led.cfg).Some?
    requires base == if act.Resume? || act.Reload? then [] else InTransit(led.s)
    requires batch == if act.Resume? || (act.Tick? && led.s.tx.Some?)
                      then Sent(PassOf(act, now, led.cfg).value, led.s.inflight) else []
    ensures InTransit(Record(led, Live(act), now).s) == base + batch
  {
    hide Sweep, Sent, Burials, Kept, Pick, SetOf, EntryOk;
    assert InTransit(led.s) + [] == InTransit(led.s);
  }

  lemma AnsweredEntry(net: Net, j: nat, pass: Pass)
    requires Sized(net) && Ordered(net.led) && QueueOk(net) && AcksOk(net)
    requires net.toS != [] && j < |net.led.ids| && Verdict(pass, net.led.s.inflight[j]).None?
    requires (net.toS[0].PubAck? && pass == Puback(net.toS[0].pid))
          || (net.toS[0].PubComp? && pass == Pubcomp(net.toS[0].pid))
    ensures net.led.ids[j] in net.routed
  {
    var m := net.led.ids[j];
    assert EntryOk(net.led.s.inflight[j], m, net.led.msgs[m]) && Owns(net.led, m);
  }

  /** The serials an answer takes out of the queue have been published on. */
  lemma AnsweredWereRouted(net: Net, now: int)
    requires NetInv(net) && net.toS != [] && !net.toS[0].PubRec?
    ensures forall m :: m in Record(net.led, Live(ActFor(net.toS[0])), now).acked ==> m in net.routed
  {
    hide Delivery.Conserved, Delivery.Timely, TransitOk, ReleasedOk, IncomingOk, AcksOk, Stepped, Verdict, Kept,
         Burials;
    var led, pass := net.led, PassOf(ActFor(net.toS[0]), now, net.led.cfg).value;
    forall m | m in SetOf(led.ids) - SetOf(Pick(led.ids, Kept(pass, led.s.inflight))) ensures m in net.routed {
      var j :| 0 <= j < |led.ids| && led.ids[j] == m;
      GoneExactly(pass, led.s.inflight, led.ids, j);
      AnsweredEntry(net, j, pass);
    }
  }

  lemma PassStepKeeps(net: Net, act: Act, now: int, toS: seq<Ack>)
    requires NetInv(net) && PassOf(act, now, net.led.cfg).Some? && net.led.clock <= now
    requires toS == [] || toS == net.toS || (net.toS != [] && toS == net.toS[1..])
    requires forall m :: m in Record(net.led, Live(act), now).acked ==> m in net.routed
    ensures NetInv(net.(led := Record(net.led, Live(act), now), toS := toS))
  {
    hide TransitOk, AcksOk, ReleasedOk, IncomingOk, RoutedOk, Record, Sendable;
    var net' := net.(led := Record(net.led, Live(act), now), toS := toS);
    RecordKeeps(net.led, Live(act), now);
    PassForgets(net.led, act, now);
    ConfirmedStayRouted(net, net'.led);
    var base, batch := PassTransit(net.led, act, now);
    forall i | 0 <= i < |batch| ensures Sendable(net, batch[i]) {
      RepeatIsSendable(net, batch[i]);
    }
    ResendKeeps(net, net', base, batch);
  }

  lemma RepeatIsSendable(net: Net, p: Packet)
    requires Sized(net) && Repeats(net.led, p)
    ensures Sendable(net, p)
  {
  }

  /** Acts that leave the queue alone and put at most a QoS 0 packet on the wire, or drop the wire. */
  lemma QuietKeeps(net: Net, net': Net)
    requires NetInv(net) && Delivery.Inv(net'.led) && net'.led.open
    requires net' == net.(led := net'.led, toS := net'.toS) && (net'.toS == [] || net'.toS == net.toS)
    requires net'.led.msgs == net.led.msgs && net'.led.ids == net.led.ids && net'.led.acked == net.led.acked
    requires net'.led.s.inflight == net.led.s.inflight
    requires InTransit(net'.led.s) == [] || InTransit(net'.led.s) == InTransit(net.led.s)
    ensures NetInv(net')
  {
    hide Delivery.Conserved, Delivery.Timely, TransitOk, ReleasedOk, IncomingOk, AcksOk, RoutedOk;
    var base := InTransit(net'.led.s);
    assert base + [] == base;
    forall j | 0 <= j < |net'.led.ids| ensures ComesFrom(net.led, net'.led.ids[j], net'.led.s.inflight[j]) {
      assert net.led.ids[j] == net'.led.ids[j];
    }
    AckedRouted(net);
    ResendKeeps(net, net', base, []);
  }

  lemma AckedRouted(net: Net)
    requires RoutedOk(net)
    ensures forall m :: m in net.led.acked ==> m in net.routed
  {
  }

  /** A QoS 0 packet does not matter to anyone. */
  lemma PlainSendKeeps(net: Net, net': Net, p: Publish)
    requires NetInv(net) && Delivery.Inv(net'.led) && net'.led.open && p.qos == AtMostOnce && p.packetId == None
    requires net' == net.(led := net'.led)
    requires net'.led.msgs == net.led.msgs && net'.led.ids == net.led.ids && net'.led.acked == net.led.acked
    requires net'.led.s.inflight == net.led.s.inflight
    requires InTransit(net'.led.s) == InTransit(net.led.s) + [PublishPacket(p)]
    ensures NetInv(net')
  {
    hide Delivery.Conserved, Delivery.Timely, Latest;
    forall i | 0 <= i < |InTransit(net'.led.s)| ensures PacketOk(net', InTransit(net'.led.s)[i]) {
      if i < |InTransit(net.led.s)| {
        assert PacketOk(net, InTransit(net.led.s)[i]);
      }
    }
    forall m | m in net'.routed && LetGo(net', m) ensures Gone(net', m) {
      assert LetGo(net, m) && Gone(net, m);
    }
    assert QueueOk(net') && TransitOk(net') && AcksOk(net') && IncomingOk(net') && ReleasedOk(net') && RoutedOk(net');
  }

  // ---- a new delivery ----

  /** The ledger with one delivery more: a new serial at the end of the queue and of the wire. */
  predicate Grown(led: Ledger, led': Ledger)
    requires |led.ids| == |led.s.inflight| && |led'.ids| == |led'.s.inflight|
  {
    var n := |led.msgs|;
    && |led'.msgs| == n + 1 && led'.msgs[..n] == led.msgs && led'.msgs[n].qos != AtMostOnce
    && |led'.ids| == |led.ids| + 1 && led'.ids == led.ids + [n]
    && led'.s.inflight[..|led.ids|] == led.s.inflight && Undelivered(led'.s.inflight[|led.ids|])
    && led'.acked == led.acked && led'.open
    && (InTransit(led'.s) == []
        || InTransit(led'.s) == InTransit(led.s) + [PublishPacket(Original(led'.msgs[n], n))])
    && (InTransit(led'.s) == [] ==> InTransit(led.s) == [])
  }

  lemma DeliverGrows(led: Ledger, act: Act, now: int)
    requires Ordered(led) && led.open && act.Deliver? && act.qos != AtMostOnce
    ensures Grown(led, Record(led, Live(act), now))
  {
    hide Backoff;
  }

  lemma LatestAfter(n: nat, pid: U16)
    ensures Latest(n + 1, pid) == if PidOf(n) == pid then Some(n) else Latest(n, pid)
  {
  }

  lemma UnconfirmedGrows(led: Ledger, led': Ledger, m: nat)
    requires |led.ids| == |led.s.inflight| && |led'.ids| == |led'.s.inflight| && Grown(led, led')
    requires m < |led.msgs| && Unconfirmed(led', m)
    ensures Unconfirmed(led, m)
  {
    var k :| 0 <= k < |led'.ids| && led'.ids[k] == m && Undelivered(led'.s.inflight[k]);
    assert k < |led.ids| && led.ids[k] == m && led.s.inflight[k] == led'.s.inflight[..|led.ids|][k];
  }

  lemma PacketOutlivesDelivery(net: Net, net': Net, p: Packet)
    requires Sized(net) && Sized(net') && Grown(net.led, net'.led) && net' == net.(led := net'.led)
    requires PacketOk(net, p) && PacketPid(p) != Some(PidOf(|net.led.msgs|))
    ensures PacketOk(net', p)
  {
    var n := |net.led.msgs|;
    if PacketPid(p).Some? {
      var pid := PacketPid(p).value;
      LatestAfter(n, pid);
      var m := Latest(n, pid).value;
      assert net'.led.msgs[m] == net'.led.msgs[..n][m];
      if p.PubRel? && Unconfirmed(net'.led, m) {
        UnconfirmedGrows(net.led, net'.led, m);
      }
    }
  }

  lemma TransitOutlivesDelivery(net: Net, net': Net)
    requires Sized(net) && Sized(net') && Grown(net.led, net'.led) && net' == net.(led := net'.led)
    requires FreshId(net) && TransitOk(net)
    ensures TransitOk(net')
  {
    hide PacketOk, Latest;
    var tx, tx', n := InTransit(net.led.s), InTransit(net'.led.s), |net.led.msgs|;
    forall i | 0 <= i < |tx'| ensures PacketOk(net', tx'[i]) {
      if i < |tx| {
        PacketOutlivesDelivery(net, net', tx[i]);
      } else {
        FirstSendOk(net', n);
      }
    }
    forall i, j | 0 <= i < j < |tx'| && tx'[i].PubRel? ensures !IsQosPublish(tx'[j], tx'[i].pid) {
      if j == |tx| {
        assert PacketPid(tx[i]) != Some(PidOf(n));
      }
    }
  }

  lemma FirstSendOk(net: Net, n: nat)
    requires Sized(net) && |net.led.msgs| == n + 1 && net.led.msgs[n].qos != AtMostOnce
    ensures PacketOk(net, PublishPacket(Original(net.led.msgs[n], n)))
  {
    LatestAfter(n, PidOf(n));
  }

  lemma ServedOutlivesDelivery(net: Net, net': Net, pid: U16)
    requires Sized(net) && Sized(net') && Grown(net.led, net'.led) && net' == net.(led := net'.led)
    requires pid != PidOf(|net.led.msgs|) && Latest(|net.led.msgs|, pid).Some?
    ensures Latest(|net'.led.msgs|, pid) == Latest(|net.led.msgs|, pid)
    ensures var m := Latest(|net.led.msgs|, pid).value; net'.led.msgs[m] == net.led.msgs[m]
  {
    var n := |net.led.msgs|;
    LatestAfter(n, pid);
    assert forall m :: 0 <= m < n ==> net'.led.msgs[m] == net'.led.msgs[..n][m];
  }

  lemma GoneOutlivesDelivery(net: Net, net': Net, m: nat)
    requires Sized(net) && Sized(net') && Grown(net.led, net'.led) && net' == net.(led := net'.led)
    requires m < |net.led.msgs| && LetGo(net', m) && (LetGo(net, m) ==> Gone(net, m))
    ensures Gone(net', m)
  {
    var n := |net.led.msgs|;
    LatestAfter(n, PidOf(m));
    assert net'.led.msgs[m] == net'.led.msgs[..n][m];
    assert LetGo(net, m);
    if Unconfirmed(net'.led, m) {
      UnconfirmedGrows(net.led, net'.led, m);
    }
  }

  lemma DeliveryKeeps(net: Net, act: Act, now: int)
    requires NetInv(net) && FreshId(net) && net.led.clock <= now && act.Deliver? && act.qos != AtMostOnce
    ensures NetInv(net.(led := Record(net.led, Live(act), now)))
  {
    hide Record, Latest, TransitOk, Delivery.Conserved, Delivery.Timely;
    var net', n := net.(led := Record(net.led, Live(act), now)), |net.led.msgs|;
    RecordKeeps(net.led, Live(act), now);
    DeliverGrows(net.led, act, now);
    TransitOutlivesDelivery(net, net');
    assert QueueOk(net') by {
      forall k | 0 <= k < |net'.led.ids|
        ensures Owns(net'.led, net'.led.ids[k])
        ensures Undelivered(net'.led.s.inflight[k]) || net'.led.ids[k] in net'.routed
      {
        LatestAfter(n, PidOf(net'.led.ids[k]));
        if k < |net.led.ids| {
          assert net'.led.ids[k] == net.led.ids[k];
          assert net.led.s.inflight[k] == net'.led.s.inflight[..|net.led.ids|][k];
        }
      }
    }
    assert AcksOk(net') by {
      forall i | 0 <= i < |net.toS|
        ensures Latest(n + 1, net.toS[i].pid) == Latest(n, net.toS[i].pid)
        ensures var m := Latest(n, net.toS[i].pid).value; net'.led.msgs[m] == net.led.msgs[m]
      {
        ServedOutlivesDelivery(net, net', net.toS[i].pid);
      }
    }
    assert IncomingOk(net') by {
      forall pid | pid in net.incoming
        ensures Latest(n + 1, pid) == Latest(n, pid)
        ensures var m := Latest(n, pid).value; net'.led.msgs[m] == net.led.msgs[m]
      {
        ServedOutlivesDelivery(net, net', pid);
      }
    }
    assert ReleasedOk(net') by {
      forall m | m in net'.routed && LetGo(net', m) ensures Gone(net', m) {
        GoneOutlivesDelivery(net, net', m);
      }
    }
    assert RoutedOk(net') by {
      assert forall m :: 0 <= m < n ==> net'.led.msgs[m] == net'.led.msgs[..n][m];
    }
  }

  // ---- PUBREC at the sender ----

  lemma InvIgnoresTx(led: Ledger, tx: Option<seq<Packet>>)
    requires Delivery.Inv(led)
    ensures Delivery.Inv(led.(s := led.s.(tx := tx)))
  {
  }

  /** The ledger after PUBREC, before the PUBREL is on the wire. */
  function Confirmed(led: Ledger, pid: U16, now: int): (r: Ledger)
    requires |led.ids| == |led.s.inflight|
    ensures |r.ids| == |r.s.inflight|
  {
    Record(led, Live(AckRec(pid)), now).(s := Received(led.s, pid).(tx := led.s.tx))
  }

  lemma PubrecShape(led: Ledger, pid: U16, now: int)
    requires |led.ids| == |led.s.inflight| && led.open && pid != 0
    ensures var led' := Record(led, Live(AckRec(pid)), now);
            && led'.s == Received(led.s, pid) && led'.ids == led.ids && led'.msgs == led.msgs
            && led'.acked == led.acked && led'.open
            && InTransit(led'.s) == InTransit(led.s) + (if led.s.tx.Some? then [PubRel(pid)] else [])
  {
    assert InTransit(led.s) + [] == InTransit(led.s);
  }

  lemma ConfirmedEntry(net: Net, pid: U16, k: nat)
    requires Sized(net) && Ordered(net.led) && QueueOk(net) && k < |net.led.ids|
    requires Latest(|net.led.msgs|, pid).Some?
    requires Served(net, pid, Latest(|net.led.msgs|, pid).value, ExactlyOnce)
    ensures var q' := Received(net.led.s, pid).inflight;
            && |q'| == |net.led.ids|
            && (Undelivered(q'[k]) ==> Undelivered(net.led.s.inflight[k]))
            && (Undelivered(q'[k]) || net.led.ids[k] in net.routed)
            && (Undelivered(q'[k]) ==> net.led.ids[k] != Latest(|net.led.msgs|, pid).value)
  {
    hide Latest;
    var i, m := FirstAwaiting(net.led.s.inflight, pid), Latest(|net.led.msgs|, pid).value;
    assert EntryOk(net.led.s.inflight[k], net.led.ids[k], net.led.msgs[net.led.ids[k]]);
    assert Owns(net.led, net.led.ids[k]);
    if i < |net.led.ids| {
      assert EntryOk(net.led.s.inflight[i], net.led.ids[i], net.led.msgs[net.led.ids[i]]);
      assert Owns(net.led, net.led.ids[i]);
    }
  }

  lemma ConfirmKeeps(net: Net, net1: Net, now: int)
    requires NetInv(net) && net.led.clock <= now && net.toS != [] && net.toS[0].PubRec? && net.toS[0].pid != 0
    requires net1 == net.(led := Confirmed(net.led, net.toS[0].pid, now), toS := net.toS[1..])
    ensures NetInv(net1)
    ensures PacketOk(net1, PubRel(net.toS[0].pid))
  {
    hide Record, Latest, Received, TransitOk, ReleasedOk, IncomingOk, Delivery.Conserved, Delivery.Timely;
    var pid := net.toS[0].pid;
    RecordKeeps(net.led, Live(AckRec(pid)), now);
    PubrecShape(net.led, pid, now);
    InvIgnoresTx(Record(net.led, Live(AckRec(pid)), now), net.led.s.tx);
    forall k | 0 <= k < |net1.led.ids|
      ensures ComesFrom(net.led, net1.led.ids[k], net1.led.s.inflight[k])
      ensures Undelivered(net1.led.s.inflight[k]) || net1.led.ids[k] in net.routed
      ensures Undelivered(net1.led.s.inflight[k]) ==> net1.led.ids[k] != Latest(|net.led.msgs|, pid).value
    {
      ConfirmedEntry(net, pid, k);
      assert net.led.ids[k] == net1.led.ids[k];
    }
    assert InTransit(net.led.s) + [] == InTransit(net.led.s);
    ResendKeeps(net, net1, InTransit(net.led.s), []);
  }

  lemma PubrecStepKeeps(net: Net, now: int)
    requires NetInv(net) && net.led.clock <= now && net.toS != [] && net.toS[0].PubRec?
    ensures NetInv(net.(led := Record(net.led, Live(AckRec(net.toS[0].pid)), now), toS := net.toS[1..]))
  {
    hide Record, Received, TransitOk, ReleasedOk, IncomingOk, Delivery.Conserved, Delivery.Timely, PacketOk, Latest,
         ComesFrom;
    var pid := net.toS[0].pid;
    assert pid != 0 by {
      assert Latest(|net.led.msgs|, pid).Some?;
    }
    var net' := net.(led := Record(net.led, Live(AckRec(pid)), now), toS := net.toS[1..]);
    var net1 := net.(led := Confirmed(net.led, pid, now), toS := net.toS[1..]);
    ConfirmKeeps(net, net1, now);
    RecordKeeps(net.led, Live(AckRec(pid)), now);
    PubrecShape(net.led, pid, now);
    SameQueueShrunk(net1.led, net'.led);
    ResendKeeps(net1, net', InTransit(net1.led.s), if net.led.s.tx.Some? then [PubRel(pid)] else []);
  }

  lemma SameQueueShrunk(led: Ledger, led': Ledger)
    requires |led.ids| == |led.s.inflight| && |led'.ids| == |led'.s.inflight|
    requires led'.ids == led.ids && led'.s.inflight == led.s.inflight && led'.msgs == led.msgs && led'.open
    ensures Shrunk(led, led')
  {
    forall j | 0 <= j < |led'.ids| ensures ComesFrom(led, led'.ids[j], led'.s.inflight[j]) {
      assert led.ids[j] == led'.ids[j];
    }
  }

  // ---- the receiver ----

  /** Taking the first packet off the wire, while more messages may get published on. */
  predicate Taken(net: Net, net': Net)
    requires Sized(net)
  {
    var tx := InTransit(net.led.s);
    && tx != [] && net'.led == net.led.(s := net.led.s.(tx := Some(tx[1..])))
    && (forall m :: m in net.routed ==> m in net'.routed)
  }

  lemma TakenTransit(net: Net, net': Net)
    requires Sized(net) && Taken(net, net') && TransitOk(net) && QueueOk(net)
    ensures TransitOk(net') && QueueOk(net')
  {
    hide Latest;
    var tx := InTransit(net.led.s);
    forall i | 0 <= i < |tx[1..]| ensures PacketOk(net', tx[1..][i]) {
      assert PacketOk(net, tx[i + 1]);
    }
    forall i, j | 0 <= i < j < |tx[1..]| && tx[1..][i].PubRel? ensures !IsQosPublish(tx[1..][j], tx[1..][i].pid) {
      assert tx[1..][i] == tx[i + 1] && tx[1..][j] == tx[j + 1];
    }
  }

  lemma TakenGone(net: Net, net': Net, m: nat)
    requires Sized(net) && Taken(net, net') && Gone(net, m)
    ensures Gone(net', m)
  {
    var tx := InTransit(net.led.s);
    assert forall i :: 0 <= i < |tx[1..]| ==> tx[1..][i] == tx[i + 1];
  }

  lemma ReceiveRelKeeps(net: Net, net': Net)
    requires NetInv(net) && Taken(net, net') && InTransit(net.led.s)[0].PubRel?
    requires net' == TakePacket(net, InTransit(net.led.s)[0]).(led := net'.led)
    ensures NetInv(net')
  {
    hide Latest, Delivery.Conserved, Delivery.Timely;
    var tx := InTransit(net.led.s);
    var pid := tx[0].pid;
    InvIgnoresTx(net.led, net'.led.s.tx);
    TakenTransit(net, net');
    assert PacketOk(net, tx[0]);
    assert AcksOk(net') by {
      forall i | 0 <= i < |net'.toS|
        ensures Latest(|net.led.msgs|, net'.toS[i].pid).Some?
        ensures Served(net, net'.toS[i].pid, Latest(|net.led.msgs|, net'.toS[i].pid).value,
                       if net'.toS[i].PubAck? then AtLeastOnce else ExactlyOnce)
      {
        if i < |net.toS| {
          assert net'.toS[i] == net.toS[i];
        }
      }
    }
    assert ReleasedOk(net') by {
      forall m | m in net'.routed && LetGo(net', m) ensures Gone(net', m) {
        if PidOf(m) == pid {
          assert forall i :: 0 <= i < |tx[1..]| ==> tx[1..][i] == tx[i + 1];
        } else {
          TakenGone(net, net', m);
        }
      }
    }
    assert IncomingOk(net') && RoutedOk(net');
  }

  lemma AcksGrow(net: Net, net': Net, ack: Ack)
    requires AcksOk(net) && net'.toS == net.toS + [ack] && net'.led.msgs == net.led.msgs
    requires forall m :: m in net.routed ==> m in net'.routed
    requires Latest(|net.led.msgs|, ack.pid).Some?
    requires Served(net', ack.pid, Latest(|net.led.msgs|, ack.pid).value,
                    if ack.PubAck? then AtLeastOnce else ExactlyOnce)
    ensures AcksOk(net')
  {
    hide Latest;
    forall i | 0 <= i < |net'.toS|
      ensures Latest(|net'.led.msgs|, net'.toS[i].pid).Some?
      ensures Served(net', net'.toS[i].pid, Latest(|net'.led.msgs|, net'.toS[i].pid).value,
                     if net'.toS[i].PubAck? then AtLeastOnce else ExactlyOnce)
    {
      if i < |net.toS| {
        assert net'.toS[i] == net.toS[i];
      }
    }
  }

  /** The receiver never publishes a QoS 2 message on twice. */
  lemma FirstTime(net: Net, p: Publish, m: nat)
    requires NetInv(net) && InTransit(net.led.s) != [] && InTransit(net.led.s)[0] == PublishPacket(p)
    requires p.packetId.Some? && Latest(|net.led.msgs|, p.packetId.value) == Some(m)
    requires p.qos == ExactlyOnce && p.packetId.value !in net.incoming
    ensures m !in net.routed
  {
    NetSized(net);
    hide Latest, Delivery.Inv, QueueOk, AcksOk, IncomingOk, RoutedOk;
    assert PacketOk(net, InTransit(net.led.s)[0]);
    assert IsQosPublish(InTransit(net.led.s)[0], PidOf(m)) && LetGo(net, m);
  }

  lemma RoutedGrows(net: Net, net': Net, p: Publish, m: nat)
    requires RoutedOk(net) && net'.led.msgs == net.led.msgs && net'.led.acked == net.led.acked
    requires net'.routed == net.routed + [m] && net'.content == net.content + [p]
    requires m < |net.led.msgs| && p.(dup := false) == Original(net.led.msgs[m], m)
    requires m in net.routed ==> net.led.msgs[m].qos == AtLeastOnce
    ensures RoutedOk(net')
  {
    hide Original;
    forall i, j | 0 <= i < j < |net'.routed| && net'.routed[i] == net'.routed[j]
      ensures net'.led.msgs[net'.routed[i]].qos == AtLeastOnce
    {
      assert net'.routed[i] == net.routed[i];
      if j < |net.routed| {
        assert net'.routed[j] == net.routed[j];
      } else {
        assert net.routed[i] in net.routed;
      }
    }
  }

  lemma ReceivePublishKeeps(net: Net, net': Net, p: Publish)
    requires NetInv(net) && Taken(net, net') && InTransit(net.led.s)[0] == PublishPacket(p)
    requires p.qos != AtMostOnce && (p.qos == ExactlyOnce ==> p.packetId.Some? && p.packetId.value !in net.incoming)
    requires net' == TakePublish(net, p).(led := net'.led)
    ensures NetInv(net')
  {
    hide Latest, Delivery.Conserved, Delivery.Timely, TransitOk, QueueOk, AcksOk;
    InvIgnoresTx(net.led, net'.led.s.tx);
    TakenTransit(net, net');
    HeadOk(net);
    var pid := p.packetId.value;
    var m := Latest(|net.led.msgs|, pid).value;
    if p.qos == ExactlyOnce {
      FirstTime(net, p, m);
    }
    assert net.led.msgs[m].qos == p.qos;
    RoutedGrows(net, net', p, m);
    AcksGrow(net, net', if p.qos == AtLeastOnce then PubAck(pid) else PubRec(pid));
    assert IncomingOk(net') by {
      forall other | other in net'.incoming
        ensures Latest(|net.led.msgs|, other).Some?
        ensures Served(net', other, Latest(|net.led.msgs|, other).value, ExactlyOnce)
      {
      }
    }
    assert ReleasedOk(net') by {
      forall k | k in net'.routed && LetGo(net', k) ensures Gone(net', k) {
        assert k in net.routed && LetGo(net, k);
        TakenGone(net, net', k);
      }
    }
  }

  lemma HeadOk(net: Net)
    requires Sized(net) && TransitOk(net) && InTransit(net.led.s) != []
    ensures PacketOk(net, InTransit(net.led.s)[0])
  {
  }

  lemma ReceiveDupKeeps(net: Net, net': Net, p: Publish)
    requires NetInv(net) && Taken(net, net') && InTransit(net.led.s)[0] == PublishPacket(p)
    requires p.qos == AtMostOnce || (p.qos == ExactlyOnce && p.packetId.Some? && p.packetId.value in net.incoming)
    requires net' == TakePublish(net, p).(led := net'.led)
    ensures NetInv(net')
  {
    hide Latest, Delivery.Conserved, Delivery.Timely, TransitOk, QueueOk, AcksOk;
    InvIgnoresTx(net.led, net'.led.s.tx);
    TakenTransit(net, net');
    if p.qos == ExactlyOnce {
      AcksGrow(net, net', PubRec(p.packetId.value));
    } else {
      SameAcks(net, net');
    }
    assert ReleasedOk(net') by {
      forall k | k in net'.routed && LetGo(net', k) ensures Gone(net', k) {
        assert LetGo(net, k);
        TakenGone(net, net', k);
      }
    }
  }

  lemma SameAcks(net: Net, net': Net)
    requires AcksOk(net) && net'.toS == net.toS && net'.led.msgs == net.led.msgs && net'.routed == net.routed
    ensures AcksOk(net')
  {
  }

  lemma ReceiveKeeps(net: Net, now: int)
    requires NetInv(net) && Enabled(net, Receive)
    ensures NetInv(Next(net, Receive, now))
  {
    hide NetInv, Latest, TakePublish;
    NetSized(net);
    var net' := Next(net, Receive, now);
    HeadOk(net);
    var head := InTransit(net.led.s)[0];
    PublishTaken(net, head);
    match head
    case PubRel(_) => ReceiveRelKeeps(net, net');
    case PublishPacket(p) =>
      if p.qos == AtMostOnce || (p.qos == ExactlyOnce && p.packetId.value in net.incoming) {
        ReceiveDupKeeps(net, net', p);
      } else {
        ReceivePublishKeeps(net, net', p);
      }
  }

  lemma NetSized(net: Net)
    requires NetInv(net)
    ensures Sized(net) && TransitOk(net) && Ordered(net.led) && net.led.open
  {
  }

  lemma PublishTaken(net: Net, head: Packet)
    requires Sized(net) && InTransit(net.led.s) != [] && head == InTransit(net.led.s)[0]
    ensures Taken(net, Next(net, Receive, 0)) && forall now :: Next(net, Receive, now) == Next(net, Receive, 0)
  {
  }

  // ---- every step, and whole runs ----

  predicate Allocates(step: NetStep) {
    step.Local? && step.act.Deliver? && step.act.qos != AtMostOnce
  }

  lemma LocalKeeps(net: Net, act: Act, now: int)
    requires NetInv(net) && net.led.clock <= now && IsLocal(act)
    requires Allocates(Local(act)) ==> FreshId(net)
    ensures NetInv(Next(net, Local(act), now))
  {
    NetSized(net);
    hide TransitOk, AcksOk, IncomingOk, ReleasedOk, QueueOk, Delivery.Inv;
    var net' := Next(net, Local(act), now);
    if Allocates(Local(act)) {
      DeliveryKeeps(net, act, now);
    } else if act.Tick? {
      TickAcks(net.led, now);
      AckedRouted(net);
      PassStepKeeps(net, act, now, net.toS);
    } else {
      hide NetInv;
      RecordKeepsInv(net, Live(act), now);
      PlainShape(net.led, act, now);
      if net.led.s.tx.Some? {
        PlainSendKeeps(net, net', PlainPublish(act));
      } else {
        QuietKeeps(net, net');
      }
    }
  }

  lemma RecordKeepsInv(net: Net, e: Event, now: int)
    requires NetInv(net) && net.led.clock <= now
    ensures Delivery.Inv(Record(net.led, e, now))
  {
    RecordKeeps(net.led, e, now);
  }

  lemma TickAcks(led: Ledger, now: int)
    requires |led.ids| == |led.s.inflight|
    ensures Record(led, Live(Tick), now).acked == led.acked
  {
  }

  function PlainPublish(act: Act): Publish
    requires IsLocal(act) && !Allocates(Local(act)) && !act.Tick?
  {
    if act.Push? then act.publish else MakePublish(act.topic, act.payload, act.qos, None, act.retain)
  }

  lemma PlainShape(led: Ledger, act: Act, now: int)
    requires |led.ids| == |led.s.inflight| && led.open && IsLocal(act) && !Allocates(Local(act)) && !act.Tick?
    ensures var led' := Record(led, Live(act), now);
            && led' == led.(s := led'.s, clock := now) && led'.s.inflight == led.s.inflight
            && InTransit(led'.s) == InTransit(led.s) + if led.s.tx.Some? then [PublishPacket(PlainPublish(act))] else []
  {
    assert InTransit(led.s) + [] == InTransit(led.s);
  }

  /** A reconnect or a restart: a new wire, or none. */
  lemma RejoinKeeps(net: Net, act: Act, now: int)
    requires NetInv(net) && net.led.clock <= now && (act.Resume? || act.Reload?)
    ensures NetInv(net.(led := Record(net.led, Live(act), now), toS := []))
  {
    NetSized(net);
    AckedRouted(net);
    RejoinAcks(net.led, act, now);
    hide NetInv, Record, Ordered, TransitOk, RoutedOk;
    PassStepKeeps(net, act, now, []);
  }

  lemma RejoinAcks(led: Ledger, act: Act, now: int)
    requires |led.ids| == |led.s.inflight| && (act.Resume? || act.Reload?)
    ensures Record(led, Live(act), now).acked == led.acked
  {
  }

  lemma CutKeeps(net: Net, now: int)
    requires NetInv(net) && net.led.clock <= now
    ensures NetInv(Next(net, Cut, now))
  {
    NetSized(net);
    hide NetInv, Ordered, TransitOk;
    RecordKeepsInv(net, Live(Detach), now);
    QuietKeeps(net, Next(net, Cut, now));
  }

  lemma AckKeeps(net: Net, now: int)
    requires NetInv(net) && net.led.clock <= now && net.toS != [] && !net.toS[0].PubRec?
    ensures NetInv(net.(led := Record(net.led, Live(ActFor(net.toS[0])), now), toS := net.toS[1..]))
  {
    NetSized(net);
    AnsweredWereRouted(net, now);
    hide NetInv, Record, Ordered, TransitOk;
    PassStepKeeps(net, ActFor(net.toS[0]), now, net.toS[1..]);
  }

  lemma StepKeeps(net: Net, step: NetStep, now: int)
    requires NetInv(net) && net.led.clock <= now && Enabled(net, step)
    requires Allocates(step) ==> FreshId(net)
    ensures NetInv(Next(net, step, now))
  {
    NetSized(net);
    hide NetInv, FreshId, Record, Ordered, TransitOk;
    match step
    case Local(act) => LocalKeeps(net, act, now);
    case Connect(expiry, generation) => RejoinKeeps(net, Resume(expiry, generation), now);
    case Cut => CutKeeps(net, now);
    case Restart => RejoinKeeps(net, Reload, now);
    case Receive => ReceiveKeeps(net, now);
    case Answer =>
      if net.toS[0].PubRec? {
        PubrecStepKeeps(net, now);
      } else {
        AckKeeps(net, now);
      }
  }

  type NetTrace = seq<(NetStep, int)>

  /** A run the protocol allows; if `strict`, every packet id given out is in use nowhere. */
  predicate NetLegal(net: Net, trace: NetTrace, strict: bool)
    decreases |trace|
  {
    trace == [] || (
      var (step, now) := trace[0];
      && Sized(net) && Enabled(net, step) && net.led.clock <= now
      && (strict && Allocates(step) ==> FreshId(net))
      && NetLegal(Next(net, step, now), trace[1..], strict))
  }

  function RunNet(net: Net, trace: NetTrace): Net
    requires NetLegal(net, trace, false)
    decreases |trace|
  {
    if trace == [] then net else RunNet(Next(net, trace[0].0, trace[0].1), trace[1..])
  }

  lemma {:induction false} FreshIsLegal(net: Net, trace: NetTrace)
    requires NetLegal(net, trace, true)
    ensures NetLegal(net, trace, false)
    decreases |trace|
  {
    if trace != [] {
      FreshIsLegal(Next(net, trace[0].0, trace[0].1), trace[1..]);
    }
  }

  lemma {:induction false} RunKeeps(net: Net, trace: NetTrace)
    requires NetInv(net) && NetLegal(net, trace, true)
    ensures NetLegal(net, trace, false) && NetInv(RunNet(net, trace))
    decreases |trace|
  {
    hide NetInv, FreshId, Next;
    FreshIsLegal(net, trace);
    if trace != [] {
      StepKeeps(net, trace[0].0, trace[0].1);
      RunKeeps(Next(net, trace[0].0, trace[0].1), trace[1..]);
    }
  }

  function InitNet(clientId: Text, expiry: U32, generation: nat, cfg: RetryConfig, clock: int): Net {
    Net(Start(clientId, None, expiry, generation, cfg, clock), [], {}, [], [])
  }

  lemma InitOk(clientId: Text, expiry: U32, generation: nat, cfg: RetryConfig, clock: int)
    ensures NetInv(InitNet(clientId, expiry, generation, cfg, clock))
  {
    StartInv(clientId, None, expiry, generation, cfg, clock);
  }

  /** Position `k` of the queue waits for PUBCOMP. */
  predicate AwaitsComp(led: Ledger, m: nat)
    requires |led.ids| == |led.s.inflight|
  {
    exists k :: 0 <= k < |led.ids| && led.ids[k] == m && led.s.inflight[k].state.Qos2AwaitComp?
  }

  lemma {:induction false} TimesOf(xs: seq<nat>, m: nat)
    ensures m in xs <==> Times(xs, m) >= 1
    ensures (forall i, j :: 0 <= i < j < |xs| && xs[i] == m ==> xs[j] != m) ==> Times(xs, m) <= 1
  {
    if xs != [] {
      var n := |xs| - 1;
      TimesOf(xs[..n], m);
      assert xs == xs[..n] + [xs[n]];
    }
  }

  lemma Verdicts(net: Net, m: nat)
    requires NetInv(net) && m < |net.led.msgs|
    ensures net.led.msgs[m].qos == ExactlyOnce ==> Times(net.routed, m) <= 1
    ensures m in net.led.acked || AwaitsComp(net.led, m) ==> Times(net.routed, m) >= 1
    ensures forall i :: 0 <= i < |net.routed| && net.routed[i] == m ==>
              i < |net.content| && net.content[i].(dup := false) == Original(net.led.msgs[m], m)
  {
    hide TransitOk, AcksOk, IncomingOk, ReleasedOk, Delivery.Conserved, Delivery.Timely;
    TimesOf(net.routed, m);
  }

  /**
   * Exactly once, over every run in which no id is given out while it is still in use: each QoS 2
   * message is published on at most once, and one that waits for PUBCOMP or has been completed exactly
   * once; an acknowledged QoS 1 message at least once; always with the content that was sent.
   */
  lemma ExactlyOnceDelivery(clientId: Text, expiry: U32, generation: nat, cfg: RetryConfig, clock: int,
                            trace: NetTrace, m: nat)
    requires NetLegal(InitNet(clientId, expiry, generation, cfg, clock), trace, true)
    ensures NetLegal(InitNet(clientId, expiry, generation, cfg, clock), trace, false)
    ensures var net := RunNet(InitNet(clientId, expiry, generation, cfg, clock), trace);
            m < |net.led.msgs| ==>
              && Sized(net)
              && (net.led.msgs[m].qos == ExactlyOnce ==> Times(net.routed, m) <= 1)
              && (m in net.led.acked || AwaitsComp(net.led, m) ==> Times(net.routed, m) >= 1)
              && (forall i :: 0 <= i < |net.routed| && net.routed[i] == m ==>
                    i < |net.content| && net.content[i].(dup := false) == Original(net.led.msgs[m], m))
  {
    var init := InitNet(clientId, expiry, generation, cfg, clock);
    InitOk(clientId, expiry, generation, cfg, clock);
    RunKeeps(init, trace);
    if m < |RunNet(init, trace).led.msgs| {
      Verdicts(RunNet(init, trace), m);
    }
  }

  // ---- ids that are never reused ----

  /** While fewer than 65535 ids have been given out, the next one is in use nowhere. */
  lemma UnusedIsFresh(net: Net)
    requires NetInv(net) && |net.led.msgs| < 65535
    ensures FreshId(net)
  {
    hide Delivery.Conserved, Delivery.Timely, ReleasedOk, RoutedOk;
    var n := |net.led.msgs|;
    forall pid: U16 | Latest(n, pid).Some? ensures pid != PidOf(n) {
    }
    forall i | 0 <= i < |InTransit(net.led.s)| ensures PacketPid(InTransit(net.led.s)[i]) != Some(PidOf(n)) {
      assert PacketOk(net, InTransit(net.led.s)[i]);
    }
  }

  lemma {:induction false} MsgsOnlyGrow(net: Net, trace: NetTrace)
    requires NetLegal(net, trace, false)
    ensures |net.led.msgs| <= |RunNet(net, trace).led.msgs|
    decreases |trace|
  {
    if trace != [] {
      MsgsOnlyGrow(Next(net, trace[0].0, trace[0].1), trace[1..]);
      StepGrows(net, trace[0].0, trace[0].1);
    }
  }

  lemma StepGrows(net: Net, step: NetStep, now: int)
    requires Sized(net) && Enabled(net, step)
    ensures |Next(net, step, now).led.msgs| >= |net.led.msgs| + if Allocates(step) && net.led.open then 1 else 0
  {
  }

  lemma {:induction false} FewIdsAreFresh(net: Net, trace: NetTrace)
    requires NetInv(net) && NetLegal(net, trace, false) && |RunNet(net, trace).led.msgs| <= 65535
    ensures NetLegal(net, trace, true)
    decreases |trace|
  {
    hide NetInv, FreshId, Next;
    if trace != [] {
      var (step, now) := trace[0];
      var net' := Next(net, step, now);
      MsgsOnlyGrow(net', trace[1..]);
      StepGrows(net, step, now);
      if Allocates(step) {
        NetSized(net);
        UnusedIsFresh(net);
      }
      StepKeeps(net, step, now);
      FewIdsAreFresh(net', trace[1..]);
    }
  }

  /** Exactly once with no assumption on the wire or the receiver, as long as no packet id is reused. */
  lemma ExactlyOnceWithoutReuse(clientId: Text, expiry: U32, generation: nat, cfg: RetryConfig, clock: int,
                                trace: NetTrace, m: nat)
    requires NetLegal(InitNet(clientId, expiry, generation, cfg, clock), trace, false)
    requires m < |RunNet(InitNet(clientId, expiry, generation, cfg, clock), trace).led.msgs| <= 65535
    ensures var net := RunNet(InitNet(clientId, expiry, generation, cfg, clock), trace);
            && Sized(net)
            && (net.led.msgs[m].qos == ExactlyOnce ==> Times(net.routed, m) <= 1)
            && (m in net.led.acked || AwaitsComp(net.led, m) ==> Times(net.routed, m) >= 1)
            && (forall i :: 0 <= i < |net.routed| && net.routed[i] == m ==>
                  i < |net.content| && net.content[i].(dup := false) == Original(net.led.msgs[m], m))
  {
    InitOk(clientId, expiry, generation, cfg, clock);
    FewIdsAreFresh(InitNet(clientId, expiry, generation, cfg, clock), trace);
    ExactlyOnceDelivery(clientId, expiry, generation, cfg, clock, trace, m);
  }
}
