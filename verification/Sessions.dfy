/**
 * The per-client session: packet ids, the queue of unacknowledged QoS 1/2 messages, acknowledgements,
 * retransmission and timed retry (`Session` in crates/relay-server/src/hub.rs).
 */
module Sessions {
  import opened Basics

  // ---- retry policy; durations and instants are counted in nanoseconds ----

  datatype RetryConfig = RetryConfig(maxAttempts: U32, base: nat, cap: nat)

  const DURATION_MAX: nat := 0xFFFF_FFFF_FFFF_FFFF * 1_000_000_000 + 999_999_999

  /** `d` doubled `n` times: the product with `1 << n`. */
  function Doubled(d: nat, n: nat): nat {
    if n == 0 then d else 2 * Doubled(d, n - 1)
  }

  function Min(a: int, b: int): int { if a <= b then a else b }

  function Max(a: int, b: int): int { if a <= b then b else a }

  function Backoff(cfg: RetryConfig, attempt: U32): (d: nat)
  {
    var shift := Min(Max(attempt - 1, 0), 20);
    Min(Min(Doubled(cfg.base, shift), DURATION_MAX), cfg.cap)
  }

  // ---- packets and in-flight entries ----

  /** `offset` is the `x-replay-offset` user property of a replayed event. */
  datatype Publish = Publish(dup: bool, retain: bool, qos: QoS, topic: Text, packetId: Option<U16>, payload: Bytes,
                             offset: Option<U64>)

  datatype Packet = PublishPacket(publish: Publish) | PubRel(pid: U16)

  datatype Inflight =
    | Qos1(publish: Publish)
    | Qos2AwaitRec(publish: Publish)
    | Qos2AwaitComp(pid: U16)

  datatype Entry = Entry(state: Inflight, attempts: U32, nextDue: int)

  datatype DeadMsg = DeadMsg(publish: Publish, attempts: U32)

  /** `$dlq/` */
  const DLQ: Text := [36, 100, 108, 113, 47]

  predicate IsDlqTopic(topic: Text) {
    StartsWith(topic, DLQ)
  }

  function MakePublish(topic: Text, payload: Bytes, qos: QoS, packetId: Option<U16>, retain: bool): Publish {
    Publish(false, retain, qos, topic, packetId, payload, None)
  }

  predicate Undelivered(e: Entry) {
    !e.state.Qos2AwaitComp?
  }

  /** A message that may still end as a dead letter: undelivered, and not itself a dead letter. */
  predicate Mortal(e: Entry) {
    Undelivered(e) && !IsDlqTopic(e.state.publish.topic)
  }

  /** What is sent again for an entry: its PUBLISH marked as a duplicate, or its PUBREL. */
  function Again(e: Entry): Packet {
    if Undelivered(e) then PublishPacket(e.state.publish.(dup := true)) else PubRel(e.state.pid)
  }

  // ---- one pass over the queue ----

  /** The operations that treat every queued entry by itself. */
  datatype Pass =
    | Puback(pid: U16)
    | Pubcomp(pid: U16)
    | Retry(now: int, cfg: RetryConfig)
    | Rearm(now: int, cfg: RetryConfig)
    | Drain

  /** One more attempt made now; the 32-bit counter wraps. */
  function Bumped(e: Entry, now: int, cfg: RetryConfig): Entry {
    var attempts := (e.attempts + 1) % U32_SIZE;
    Entry(e.state, attempts, now + Backoff(cfg, attempts))
  }

  /** The retry clock started again, without a new attempt. */
  function Rearmed(e: Entry, now: int, cfg: RetryConfig): Entry {
    e.(nextDue := now + Backoff(cfg, Max(e.attempts, 1)))
  }

  /** What a pass makes of one entry; None when it leaves the queue. */
  function Verdict(pass: Pass, e: Entry): Option<Entry> {
    match pass
    case Puback(pid) => if e.state.Qos1? && e.state.publish.packetId == Some(pid) then None else Some(e)
    case Pubcomp(pid) => if e.state.Qos2AwaitComp? && e.state.pid == pid then None else Some(e)
    case Retry(now, cfg) =>
      if now < e.nextDue then Some(e)
      else if Mortal(e) && e.attempts >= cfg.maxAttempts then None
      else Some(Bumped(e, now, cfg))
    case Rearm(now, cfg) => Some(Rearmed(e, now, cfg))
    case Drain => if Mortal(e) then None else Some(e)
  }

  predicate Sends(pass: Pass, e: Entry) {
    match pass
    case Retry(now, cfg) => e.nextDue <= now && Verdict(pass, e).Some?
    case Rearm(_, _) => true
    case _ => false
  }

  predicate Buries(pass: Pass, e: Entry) {
    (pass.Retry? || pass.Drain?) && Verdict(pass, e).None?
  }

  /** The entries a pass keeps, in order. */
  function Sweep(pass: Pass, q: seq<Entry>): seq<Entry> {
    if q == [] then []
    else
      var n := |q| - 1;
      Sweep(pass, q[..n]) + match Verdict(pass, q[n]) case Some(e) => [e] case None => []
  }

  /** The packets a pass sends, in order. */
  function Sent(pass: Pass, q: seq<Entry>): seq<Packet> {
    if q == [] then []
    else
      var n := |q| - 1;
      Sent(pass, q[..n]) + if Sends(pass, q[n]) then [Again(q[n])] else []
  }

  /** The messages a pass removes for dead-lettering, in order. */
  function Buried(pass: Pass, q: seq<Entry>): seq<DeadMsg> {
    if q == [] then []
    else
      var n := |q| - 1;
      Buried(pass, q[..n])
      + if Buries(pass, q[n]) && Undelivered(q[n]) then [DeadMsg(q[n].state.publish, q[n].attempts)] else []
  }

  predicate AnyDue(q: seq<Entry>, now: int) {
    exists i :: 0 <= i < |q| && q[i].nextDue <= now
  }

  // ---- the session and its operations ----

  /** `tx` holds the packets put on the live connection, or None while offline. */
  datatype SessionState = SessionState(
    clientId: Text, tx: Option<seq<Packet>>, nextId: U16, inflight: seq<Entry>, incoming: set<U16>,
    expiry: U32, generation: nat)

  function NewSession(clientId: Text, tx: Option<seq<Packet>>, expiry: U32, generation: nat): SessionState {
    SessionState(clientId, tx, 1, [], {}, expiry, generation)
  }

  /** Packets put on a connection; dropped while offline. */
  function Onto(tx: Option<seq<Packet>>, packets: seq<Packet>): Option<seq<Packet>> {
    if tx.Some? then Some(tx.value + packets) else None
  }

  function SendAll(s: SessionState, packets: seq<Packet>): SessionState {
    s.(tx := Onto(s.tx, packets))
  }

  /** The id after `id`: 65535 is followed by 1, never by 0. */
  function NextId(id: U16): (r: U16)
    ensures r != 0
  {
    var n := (id + 1) % 0x1_0000;
    if n == 0 then 1 else n
  }

  function StateFor(p: Publish): Inflight {
    if p.qos == AtLeastOnce then Qos1(p) else Qos2AwaitRec(p)
  }

  function Delivered(s: SessionState, topic: Text, payload: Bytes, qos: QoS, retain: bool, now: int, cfg: RetryConfig)
    : SessionState
  {
    if qos == AtMostOnce then SendAll(s, [PublishPacket(MakePublish(topic, payload, qos, None, retain))])
    else
      var p := MakePublish(topic, payload, qos, Some(s.nextId), retain);
      SendAll(s.(nextId := NextId(s.nextId), inflight := s.inflight + [Entry(StateFor(p), 1, now + Backoff(cfg, 1))]),
              [PublishPacket(p)])
  }

  function Retransmitted(s: SessionState, now: int, cfg: RetryConfig): SessionState {
    SendAll(s.(inflight := Sweep(Rearm(now, cfg), s.inflight)), Sent(Rearm(now, cfg), s.inflight))
  }

  function Ticked(s: SessionState, now: int, cfg: RetryConfig): SessionState {
    SendAll(s.(inflight := Sweep(Retry(now, cfg), s.inflight)), Sent(Retry(now, cfg), s.inflight))
  }

  predicate Awaits(e: Entry, pid: U16) {
    e.state.Qos2AwaitRec? && e.state.publish.packetId == Some(pid)
  }

  /** Position of the first QoS 2 message still waiting for PUBREC `pid`; the queue length if there is none. */
  function FirstAwaiting(q: seq<Entry>, pid: U16): (i: nat)
    ensures i <= |q|
    ensures forall k :: 0 <= k < i ==> !Awaits(q[k], pid)
    ensures i < |q| ==> Awaits(q[i], pid)
  {
    if q == [] then 0 else if Awaits(q[0], pid) then 0 else 1 + FirstAwaiting(q[1..], pid)
  }

  function Received(s: SessionState, pid: U16): SessionState {
    var i := FirstAwaiting(s.inflight, pid);
    var q := if i < |s.inflight| then s.inflight[i := s.inflight[i].(state := Qos2AwaitComp(pid))] else s.inflight;
    SendAll(s.(inflight := q), if pid != 0 || i < |s.inflight| then [PubRel(pid)] else [])
  }

  /** Everything the broker does to one session while it exists. */
  datatype Act =
    | Deliver(topic: Text, payload: Bytes, qos: QoS, retain: bool)
    | Push(publish: Publish)
    | Resume(expiry: U32, generation: nat)
    | Detach
    | AckPub(pid: U16)
    | AckRec(pid: U16)
    | AckComp(pid: U16)
    | Tick
    | SeenIn(pid: U16)
    | ReleaseIn(pid: U16)
    | Reload

  /** The pass over the queue that an act amounts to, if it is one. */
  function PassOf(act: Act, now: int, cfg: RetryConfig): Option<Pass> {
    match act
    case Resume(_, _) => Some(Rearm(now, cfg))
    case Reload => Some(Rearm(now, cfg))
    case AckPub(pid) => Some(Puback(pid))
    case AckComp(pid) => Some(Pubcomp(pid))
    case Tick => Some(Retry(now, cfg))
    case _ => None
  }

  function Stepped(s: SessionState, act: Act, now: int, cfg: RetryConfig): SessionState {
    match act
    case Deliver(topic, payload, qos, retain) => Delivered(s, topic, payload, qos, retain, now, cfg)
    case Push(p) => SendAll(s, [PublishPacket(p)])
    case Resume(expiry, generation) =>
      Retransmitted(s.(tx := Some([]), expiry := expiry, generation := generation), now, cfg)
    case Detach => s.(tx := None)
    case AckPub(pid) => s.(inflight := Sweep(Puback(pid), s.inflight))
    case AckRec(pid) => Received(s, pid)
    case AckComp(pid) => s.(inflight := Sweep(Pubcomp(pid), s.inflight))
    case Tick => if s.tx.Some? then Ticked(s, now, cfg) else s
    case SeenIn(pid) => s.(incoming := s.incoming + {pid})
    case ReleaseIn(pid) => s.(incoming := s.incoming - {pid})
    case Reload =>
      s.(tx := None, generation := 0, incoming := {}, inflight := Sweep(Rearm(now, cfg), s.inflight))
  }

  /** The session with every field in place, updated as the broker updates it. */
  class Session {
    var clientId: Text
    var tx: Option<seq<Packet>>
    var nextId: U16
    var inflight: seq<Entry>
    var incoming: set<U16>
    var expiry: U32
    var generation: nat

    function State(): SessionState
      reads this
    {
      SessionState(clientId, tx, nextId, inflight, incoming, expiry, generation)
    }

    constructor (s: SessionState)
      ensures State() == s
    {
      clientId, tx, nextId, inflight := s.clientId, s.tx, s.nextId, s.inflight;
      incoming, expiry, generation := s.incoming, s.expiry, s.generation;
    }

    method AllocateId() returns (id: U16)
      requires nextId != 0
      modifies this`nextId
      ensures id == old(nextId) && nextId == NextId(id)
    {
      id := nextId;
      nextId := (nextId + 1) % 0x1_0000;
      if nextId == 0 {
        nextId := 1;
      }
    }

    method Send(packet: Packet)
      modifies this`tx
      ensures State() == SendAll(old(State()), [packet])
    {
      if tx.Some? {
        tx := Some(tx.value + [packet]);
      }
    }

    method Deliver(topic: Text, payload: Bytes, qos: QoS, retain: bool, now: int, cfg: RetryConfig)
      requires nextId != 0
      modifies this
      ensures State() == Delivered(old(State()), topic, payload, qos, retain, now, cfg)
    {
      match qos
      case AtMostOnce =>
        Send(PublishPacket(MakePublish(topic, payload, AtMostOnce, None, retain)));
      case _ =>
        var pid := AllocateId();
        var p := MakePublish(topic, payload, qos, Some(pid), retain);
        var state := if qos == AtLeastOnce then Qos1(p) else Qos2AwaitRec(p);
        inflight := inflight + [Entry(state, 1, now + Backoff(cfg, 1))];
        Send(PublishPacket(p));
    }

    method Retransmit(now: int, cfg: RetryConfig)
      modifies this
      ensures State() == Retransmitted(old(State()), now, cfg)
    {
      hide Backoff, Sweep, Sent;
      ghost var q, pass := inflight, Rearm(now, cfg);
      PassNone(pass, q);
      SendNone(State());
      for i := 0 to |inflight|
        modifies this`inflight, this`tx
        invariant |inflight| == |q|
        invariant forall j :: 0 <= j < i ==> Verdict(pass, q[j]) == Some(inflight[j])
        invariant forall j :: i <= j < |q| ==> inflight[j] == q[j]
        invariant tx == Onto(old(tx), Sent(pass, q[..i]))
      {
        PassStep(pass, q, i);
        var entry := inflight[i];
        inflight := inflight[i := entry.(nextDue := now + Backoff(cfg, Max(entry.attempts, 1)))];
        Send(Again(entry));
        OntoMore(old(tx), Sent(pass, q[..i]), [Again(q[i])]);
      }
      assert q[..|q|] == q;
      SweepAll(pass, q, inflight);
    }

    method OnPuback(pid: U16)
      modifies this`inflight
      ensures State() == old(State()).(inflight := Sweep(Puback(pid), old(inflight)))
    {
      hide Sweep;
      var q := inflight;
      PassNone(Puback(pid), q);
      var kept := [];
      for i := 0 to |q|
        invariant kept == Sweep(Puback(pid), q[..i])
      {
        PassStep(Puback(pid), q, i);
        if !(q[i].state.Qos1? && q[i].state.publish.packetId == Some(pid)) {
          kept := kept + [q[i]];
        }
      }
      assert q[..|q|] == q;
      inflight := kept;
    }

    method OnPubrec(pid: U16)
      modifies this
      ensures State() == Received(old(State()), pid)
    {
      for i := 0 to |inflight|
        invariant State() == old(State())
        invariant forall k :: 0 <= k < i ==> !Awaits(inflight[k], pid)
      {
        if inflight[i].state.Qos2AwaitRec? && inflight[i].state.publish.packetId == Some(pid) {
          inflight := inflight[i := inflight[i].(state := Qos2AwaitComp(pid))];
          Send(PubRel(pid));
          return;
        }
      }
      SendNone(State());
      if pid != 0 {
        Send(PubRel(pid));
      }
    }

    method OnPubcomp(pid: U16)
      modifies this`inflight
      ensures State() == old(State()).(inflight := Sweep(Pubcomp(pid), old(inflight)))
    {
      hide Sweep;
      var q := inflight;
      PassNone(Pubcomp(pid), q);
      var kept := [];
      for i := 0 to |q|
        invariant kept == Sweep(Pubcomp(pid), q[..i])
      {
        PassStep(Pubcomp(pid), q, i);
        if !(q[i].state.Qos2AwaitComp? && q[i].state.pid == pid) {
          kept := kept + [q[i]];
        }
      }
      assert q[..|q|] == q;
      inflight := kept;
    }

    /** One turn of the retry loop, on the entry at `i`. */
    method RetryAt(i: nat, now: int, cfg: RetryConfig)
        returns (dead: Option<DeadMsg>, packet: Option<Packet>, due: bool)
      requires i < |inflight|
      modifies this`inflight
      ensures match Verdict(Retry(now, cfg), old(inflight)[i])
              case None => inflight == old(inflight)[..i] + old(inflight)[i + 1..]
              case Some(e) => inflight == old(inflight)[i := e]
      ensures var e := old(inflight)[i];
              && packet == (if Sends(Retry(now, cfg), e) then Some(Again(e)) else None)
              && dead == (if Buries(Retry(now, cfg), e) then Some(DeadMsg(e.state.publish, e.attempts)) else None)
              && due == (e.nextDue <= now)
              && (dead.Some? ==> Undelivered(e))
    {
      var entry := inflight[i];
      dead, packet, due := None, None, false;
      if now < entry.nextDue {
        return;
      }
      due := true;
      var deadNow := match entry.state
        case Qos1(p) => entry.attempts >= cfg.maxAttempts && !IsDlqTopic(p.topic)
        case Qos2AwaitRec(p) => entry.attempts >= cfg.maxAttempts && !IsDlqTopic(p.topic)
        case Qos2AwaitComp(_) => false;
      if deadNow {
        inflight := inflight[..i] + inflight[i + 1..];
        dead := Some(DeadMsg(entry.state.publish, entry.attempts));
        return;
      }
      var attempts := (entry.attempts + 1) % U32_SIZE;
      inflight := inflight[i := Entry(entry.state, attempts, now + Backoff(cfg, attempts))];
      packet := Some(Again(entry));
    }

    /** The retry loop: an index over the queue that stays put when it removes a dead entry in place. */
    method RetryLoop(now: int, cfg: RetryConfig) returns (dead: seq<DeadMsg>, toSend: seq<Packet>, changed: bool)
      modifies this`inflight
      ensures inflight == Sweep(Retry(now, cfg), old(inflight))
      ensures dead == Buried(Retry(now, cfg), old(inflight)) && toSend == Sent(Retry(now, cfg), old(inflight))
      ensures changed <==> AnyDue(old(inflight), now)
    {
      hide Verdict, Sends, Again, Sweep, Sent, Buried;
      ghost var q, k, pass := inflight, 0, Retry(now, cfg);
      PassNone(pass, q);
      dead, toSend, changed := [], [], false;
      var i := 0;
      while i < |inflight|
        invariant k <= |q| && i == |Sweep(pass, q[..k])|
        invariant inflight == Sweep(pass, q[..k]) + q[k..]
        invariant dead == Buried(pass, q[..k]) && toSend == Sent(pass, q[..k])
        invariant changed <==> AnyDue(q[..k], now)
        decreases |q| - k
      {
        FirstUnswept(pass, q, k, inflight);
        ghost var current := inflight;
        var gone, packet, due := RetryAt(i, now, cfg);
        InPlace(pass, q, k, current, inflight);
        PassStep(pass, q, k);
        DueStep(q, k, now);
        k := k + 1;
        changed := changed || due;
        toSend := toSend + if packet.Some? then [packet.value] else [];
        dead := dead + if gone.Some? then [gone.value] else [];
        if gone.None? {
          // Otherwise the next entry has shifted into this slot.
          i := i + 1;
        }
      }
      assert q[..k] == q;
    }

    method TickRetries(now: int, cfg: RetryConfig) returns (dead: seq<DeadMsg>, changed: bool)
      modifies this
      ensures State() == Ticked(old(State()), now, cfg)
      ensures dead == Buried(Retry(now, cfg), old(inflight))
      ensures changed <==> AnyDue(old(inflight), now)
    {
      var toSend;
      dead, toSend, changed := RetryLoop(now, cfg);
      SendEach(toSend);
    }

    method SendEach(packets: seq<Packet>)
      modifies this`tx
      ensures State() == SendAll(old(State()), packets)
    {
      SendNone(State());
      for j := 0 to |packets|
        invariant tx == Onto(old(tx), packets[..j])
      {
        assert packets[..j + 1] == packets[..j] + [packets[j]];
        OntoMore(old(tx), packets[..j], [packets[j]]);
        Send(packets[j]);
      }
      assert packets[..|packets|] == packets;
    }

    method DrainUndelivered() returns (dead: seq<DeadMsg>)
      modifies this`inflight
      ensures State() == old(State()).(inflight := Sweep(Drain, old(inflight)))
      ensures dead == Buried(Drain, old(inflight))
    {
      hide Sweep, Buried, Sent, IsDlqTopic;
      var q := inflight;
      PassNone(Drain, q);
      dead := [];
      var kept := [];
      for i := 0 to |q|
        invariant kept == Sweep(Drain, q[..i]) && dead == Buried(Drain, q[..i])
      {
        PassStep(Drain, q, i);
        var e := q[i];
        if !e.state.Qos2AwaitComp? && !IsDlqTopic(e.state.publish.topic) {
          dead := dead + [DeadMsg(e.state.publish, e.attempts)];
        } else {
          kept := kept + [e];
        }
      }
      assert q[..|q|] == q;
      inflight := kept;
    }
  }

  lemma {:induction false} SweepAll(pass: Pass, q: seq<Entry>, r: seq<Entry>)
    requires |r| == |q| && forall j :: 0 <= j < |q| ==> Verdict(pass, q[j]) == Some(r[j])
    ensures Sweep(pass, q) == r
  {
    if q != [] {
      var n := |q| - 1;
      SweepAll(pass, q[..n], r[..n]);
      assert r == r[..n] + [r[n]];
    }
  }

  lemma SendNone(s: SessionState)
    ensures SendAll(s, []) == s
  {
    if s.tx.Some? {
      assert s.tx.value + [] == s.tx.value;
    }
  }

  lemma OntoMore(tx: Option<seq<Packet>>, some: seq<Packet>, more: seq<Packet>)
    ensures Onto(Onto(tx, some), more) == Onto(tx, some + more)
  {
    if tx.Some? {
      assert tx.value + (some + more) == tx.value + some + more;
    }
  }

  lemma FirstUnswept(pass: Pass, q: seq<Entry>, k: nat, current: seq<Entry>)
    requires k <= |q| && current == Sweep(pass, q[..k]) + q[k..] && |Sweep(pass, q[..k])| < |current|
    ensures k < |q| && current[|Sweep(pass, q[..k])|] == q[k]
  {
  }

  /** A half-swept queue stays one when its first unswept entry is removed, or replaced, as the verdict says. */
  lemma InPlace(pass: Pass, q: seq<Entry>, k: nat, current: seq<Entry>, next: seq<Entry>)
    requires k < |q| && current == Sweep(pass, q[..k]) + q[k..]
    requires var i := |Sweep(pass, q[..k])|;
             match Verdict(pass, q[k])
             case None => next == current[..i] + current[i + 1..]
             case Some(e) => next == current[i := e]
    ensures next == Sweep(pass, q[..k + 1]) + q[k + 1..]
    ensures |Sweep(pass, q[..k + 1])| == |Sweep(pass, q[..k])| + if Verdict(pass, q[k]).Some? then 1 else 0
  {
    hide Verdict;
    PassStep(pass, q, k);
    var done := Sweep(pass, q[..k]);
    match Verdict(pass, q[k])
    case None =>
      assert next == done + q[k + 1..];
      assert done + [] == done;
    case Some(e) =>
      assert next == (done + [e]) + q[k + 1..];
  }

  lemma PassNone(pass: Pass, q: seq<Entry>)
    ensures Sweep(pass, q[..0]) == [] && Sent(pass, q[..0]) == [] && Buried(pass, q[..0]) == []
  {
  }

  /** A pass over one more entry appends what it makes of that entry. */
  lemma PassStep(pass: Pass, q: seq<Entry>, k: nat)
    requires k < |q|
    ensures Sweep(pass, q[..k + 1])
         == Sweep(pass, q[..k]) + match Verdict(pass, q[k]) case Some(e) => [e] case None => []
    ensures Sent(pass, q[..k + 1]) == Sent(pass, q[..k]) + if Sends(pass, q[k]) then [Again(q[k])] else []
    ensures Buried(pass, q[..k + 1]) == Buried(pass, q[..k])
         + if Buries(pass, q[k]) && Undelivered(q[k]) then [DeadMsg(q[k].state.publish, q[k].attempts)] else []
  {
    hide Verdict, Sends, Buries, Again;
    assert q[..k + 1][..k] == q[..k];
  }

  lemma DueStep(q: seq<Entry>, k: nat, now: int)
    requires k < |q|
    ensures AnyDue(q[..k + 1], now) <==> AnyDue(q[..k], now) || q[k].nextDue <= now
  {
    if AnyDue(q[..k], now) {
      var i :| 0 <= i < k && q[..k][i].nextDue <= now;
      assert q[..k + 1][i] == q[..k][i];
    }
    if AnyDue(q[..k + 1], now) {
      var i :| 0 <= i < k + 1 && q[..k + 1][i].nextDue <= now;
      if i < k {
        assert q[..k][i] == q[..k + 1][i];
      }
    }
    assert q[..k + 1][k] == q[k];
  }
}
