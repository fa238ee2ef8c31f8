/** The binary blobs kept on disk: the in-flight queue and the logged event (crates/relay-server/src/hub.rs). */
module Codec {
  import opened Basics
  import opened Sessions

  // ---- big-endian numbers and the reading cursor ----

  function U16Bytes(n: U16): (b: Bytes)
    ensures |b| == 2
  {
    [n / 0x100, n % 0x100]
  }

  function U32Bytes(n: U32): (b: Bytes)
    ensures |b| == 4
  {
    U16Bytes(n / 0x1_0000) + U16Bytes(n % 0x1_0000)
  }

  function U64Bytes(n: U64): (b: Bytes)
    ensures |b| == 8
  {
    U32Bytes(n / 0x1_0000_0000) + U32Bytes(n % 0x1_0000_0000)
  }

  /** Each reader returns what it read and the bytes after it, or fails when there are too few. */
  function Take(b: Bytes, n: nat): Option<(Bytes, Bytes)> {
    if n <= |b| then Some((b[..n], b[n..])) else None
  }

  function TakeU8(b: Bytes): Option<(Byte, Bytes)> {
    if 1 <= |b| then Some((b[0], b[1..])) else None
  }

  function Word(hi: int, lo: int): (n: int) {
    hi * 0x100 + lo
  }

  function TakeU16(b: Bytes): Option<(U16, Bytes)> {
    if 2 <= |b| then Some((Word(b[0], b[1]), b[2..])) else None
  }

  function TakeU32(b: Bytes): Option<(U32, Bytes)> {
    if 4 <= |b| then Some((Word(b[0], b[1]) * 0x1_0000 + Word(b[2], b[3]), b[4..])) else None
  }

  /** Bytes behind their length, which is cut to 16 bits. */
  function Short(data: Bytes): Bytes {
    U16Bytes(|data| % 0x1_0000) + data
  }

  function TakeShort(b: Bytes): Option<(Bytes, Bytes)> {
    var (n, b') :- TakeU16(b);
    Take(b', n)
  }

  /** Bytes behind their length, which is cut to 32 bits. */
  function Long(data: Bytes): Bytes {
    U32Bytes(|data| % 0x1_0000_0000) + data
  }

  function TakeLong(b: Bytes): Option<(Bytes, Bytes)> {
    var (n, b') :- TakeU32(b);
    Take(b', n)
  }

  lemma U16Back(n: U16, rest: Bytes)
    ensures TakeU16(U16Bytes(n) + rest) == Some((n, rest))
  {
  }

  lemma U32Back(n: U32, rest: Bytes)
    ensures TakeU32(U32Bytes(n) + rest) == Some((n, rest))
  {
  }

  /** A cut length makes the reader return other data: never the bytes that were written. */
  lemma ShortBack(data: Bytes, rest: Bytes)
    ensures |data| < 0x1_0000 ==> TakeShort(Short(data) + rest) == Some((data, rest))
    ensures |data| >= 0x1_0000 ==> TakeShort(Short(data) + rest).Some?
                                   && |TakeShort(Short(data) + rest).value.0| < |data|
  {
    hide U16Bytes, TakeU16;
    U16Back(|data| % 0x1_0000, data + rest);
    assert Short(data) + rest == U16Bytes(|data| % 0x1_0000) + (data + rest);
  }

  lemma LongBack(data: Bytes, rest: Bytes)
    ensures |data| < 0x1_0000_0000 ==> TakeLong(Long(data) + rest) == Some((data, rest))
    ensures |data| >= 0x1_0000_0000 ==> TakeLong(Long(data) + rest).Some?
                                        && |TakeLong(Long(data) + rest).value.0| < |data|
  {
    hide U32Bytes, TakeU32;
    U32Back(|data| % 0x1_0000_0000, data + rest);
    assert Long(data) + rest == U32Bytes(|data| % 0x1_0000_0000) + (data + rest);
  }

  // ---- the in-flight queue ----

  function PublishBody(p: Publish): Bytes {
    U16Bytes(if p.packetId.Some? then p.packetId.value else 0)
    + ([if p.retain then 1 else 0] + (Short(p.topic) + Long(p.payload)))
  }

  function EntryTag(e: Entry): Byte {
    match e.state
    case Qos1(_) => 1
    case Qos2AwaitRec(_) => 2
    case Qos2AwaitComp(_) => 3
  }

  function EncodeEntry(e: Entry): Bytes {
    [EntryTag(e)] + (U32Bytes(e.attempts)
                     + if Undelivered(e) then PublishBody(e.state.publish) else U16Bytes(e.state.pid))
  }

  function EncodeQueue(q: seq<Entry>): Bytes {
    if q == [] then [] else EncodeEntry(q[0]) + EncodeQueue(q[1..])
  }

  function EncodeInflight(nextId: U16, q: seq<Entry>): Bytes {
    U16Bytes(nextId) + EncodeQueue(q)
  }

  /** The bytes left over are a proper tail of the bytes read. */
  predicate Tail(rest: Bytes, b: Bytes) {
    |rest| < |b| && rest == b[|b| - |rest|..]
  }

  function DecodePublish(tag: Byte, attempts: U32, b: Bytes, due: int): (r: Option<(Entry, Bytes)>)
    ensures r.Some? ==> Tail(r.value.1, b)
  {
    hide Word;
    var (pid, b1) :- TakeU16(b);
    if pid == 0 then None else
    var (flags, b2) :- TakeU8(b1);
    var (topic, b3) :- TakeShort(b2);
    var (payload, b4) :- TakeLong(b3);
    var p := MakePublish(topic, payload, if tag == 1 then AtLeastOnce else ExactlyOnce, Some(pid), flags != 0);
    Some((Entry(if tag == 1 then Qos1(p) else Qos2AwaitRec(p), attempts, due), b4))
  }

  function DecodeEntry(b: Bytes, now: int, cfg: RetryConfig): (r: Option<(Entry, Bytes)>)
    ensures r.Some? ==> Tail(r.value.1, b)
  {
    hide Word, Backoff, DecodePublish;
    var (tag, b1) :- TakeU8(b);
    var (attempts, b2) :- TakeU32(b1);
    var due := now + Backoff(cfg, Max(attempts, 1));
    if tag == 1 || tag == 2 then DecodePublish(tag, attempts, b2, due)
    else if tag == 3 then
      var (pid, b3) :- TakeU16(b2);
      if pid == 0 then None else Some((Entry(Qos2AwaitComp(pid), attempts, due), b3))
    else None
  }

  function DecodeQueue(b: Bytes, now: int, cfg: RetryConfig): Option<seq<Entry>>
    decreases |b|
  {
    if b == [] then Some([])
    else
      var (e, rest) :- DecodeEntry(b, now, cfg);
      var q :- DecodeQueue(rest, now, cfg);
      Some([e] + q)
  }

  function DecodeInflight(blob: Bytes, now: int, cfg: RetryConfig): Option<(U16, seq<Entry>)> {
    var (nextId, rest) :- TakeU16(blob);
    var q :- DecodeQueue(rest, now, cfg);
    Some((nextId, q))
  }

  /** A decoded remainder, behind the entries read before it. */
  function Behind(queue: seq<Entry>, rest: Option<seq<Entry>>): Option<seq<Entry>> {
    if rest.Some? then Some(queue + rest.value) else None
  }

  lemma BehindNothing(rest: Option<seq<Entry>>)
    ensures Behind([], rest) == rest
  {
    if rest.Some? {
      assert [] + rest.value == rest.value;
    }
  }

  lemma BehindStep(queue: seq<Entry>, b: Bytes, now: int, cfg: RetryConfig)
    requires b != []
    ensures Behind(queue, DecodeQueue(b, now, cfg))
         == match DecodeEntry(b, now, cfg)
            case None => None
            case Some(p) => Behind(queue + [p.0], DecodeQueue(p.1, now, cfg))
  {
    hide DecodeEntry;
    var whole := DecodeQueue(b, now, cfg);
    if whole.Some? {
      var p := DecodeEntry(b, now, cfg).value;
      var q := DecodeQueue(p.1, now, cfg).value;
      assert queue + ([p.0] + q) == (queue + [p.0]) + q;
    }
  }

  /** The decoder as the broker runs it: one loop over a cursor into the blob. */
  method DecodeInflightBlob(blob: Bytes, now: int, cfg: RetryConfig) returns (r: Option<(U16, seq<Entry>)>)
    ensures r == DecodeInflight(blob, now, cfg)
  {
    hide DecodeEntry, Word;
    var head := TakeU16(blob);
    if head.None? {
      return None;
    }
    var nextId, position := head.value.0, 2;
    var queue: seq<Entry> := [];
    ghost var whole := DecodeQueue(blob[2..], now, cfg);
    BehindNothing(whole);
    while position < |blob|
      invariant position <= |blob|
      invariant whole == Behind(queue, DecodeQueue(blob[position..], now, cfg))
    {
      BehindStep(queue, blob[position..], now, cfg);
      var next := DecodeEntry(blob[position..], now, cfg);
      if next.None? {
        return None;
      }
      var (entry, after) := next.value;
      assert blob[|blob| - |after|..] == after;
      queue := queue + [entry];
      position := |blob| - |after|;
    }
    assert queue + [] == queue;
    return Some((nextId, queue));
  }

  /** An entry as the session writes it: an id that is not 0, and the PUBLISH of its own quality of service. */
  predicate Storable(e: Entry) {
    match e.state
    case Qos1(p) => p.packetId.Some? && p.packetId.value != 0
                    && p == MakePublish(p.topic, p.payload, AtLeastOnce, p.packetId, p.retain)
    case Qos2AwaitRec(p) => p.packetId.Some? && p.packetId.value != 0
                            && p == MakePublish(p.topic, p.payload, ExactlyOnce, p.packetId, p.retain)
    case Qos2AwaitComp(pid) => pid != 0
  }

  /** The lengths the blob has room for. */
  predicate Fits(e: Entry) {
    Undelivered(e) ==> |e.state.publish.topic| < 0x1_0000 && |e.state.publish.payload| < 0x1_0000_0000
  }

  lemma PublishRoundTrip(tag: Byte, attempts: U32, p: Publish, rest: Bytes, due: int)
    requires p.packetId.Some? && p.packetId.value != 0 && |p.payload| < 0x1_0000_0000 && |p.topic| < 0x1_0000
    requires p == MakePublish(p.topic, p.payload, if tag == 1 then AtLeastOnce else ExactlyOnce, p.packetId, p.retain)
    ensures DecodePublish(tag, attempts, PublishBody(p) + rest, due)
         == Some((Entry(if tag == 1 then Qos1(p) else Qos2AwaitRec(p), attempts, due), rest))
  {
    hide U16Bytes, TakeU16, Short, TakeShort, Long, TakeLong;
    var b3 := Long(p.payload) + rest;
    var b2 := Short(p.topic) + b3;
    var b1 := [if p.retain then 1 else 0] + b2;
    assert PublishBody(p) + rest == U16Bytes(p.packetId.value) + b1;
    U16Back(p.packetId.value, b1);
    ShortBack(p.topic, b3);
    LongBack(p.payload, rest);
  }

  lemma EntryRoundTrip(e: Entry, rest: Bytes, now: int, cfg: RetryConfig)
    requires Storable(e) && Fits(e)
    ensures DecodeEntry(EncodeEntry(e) + rest, now, cfg) == Some((Rearmed(e, now, cfg), rest))
  {
    hide U16Bytes, U32Bytes, TakeU16, TakeU32, PublishBody, DecodePublish, Backoff;
    var body := if Undelivered(e) then PublishBody(e.state.publish) else U16Bytes(e.state.pid);
    assert EncodeEntry(e) + rest == [EntryTag(e)] + (U32Bytes(e.attempts) + (body + rest));
    U32Back(e.attempts, body + rest);
    var due := now + Backoff(cfg, Max(e.attempts, 1));
    if Undelivered(e) {
      PublishRoundTrip(EntryTag(e), e.attempts, e.state.publish, rest, due);
    } else {
      U16Back(e.state.pid, rest);
    }
  }

  lemma {:induction false} QueueRoundTrip(q: seq<Entry>, now: int, cfg: RetryConfig)
    requires forall k :: 0 <= k < |q| ==> Storable(q[k]) && Fits(q[k])
    ensures DecodeQueue(EncodeQueue(q), now, cfg) == Some(Sweep(Rearm(now, cfg), q))
  {
    hide EncodeEntry, DecodeEntry, Rearmed;
    if q != [] {
      EntryRoundTrip(q[0], EncodeQueue(q[1..]), now, cfg);
      QueueRoundTrip(q[1..], now, cfg);
      RearmFirst(q, now, cfg);
      EncodedNotEmpty(q[0]);
    } else {
      assert DecodeQueue([], now, cfg) == Some([]);
    }
  }

  lemma EncodedNotEmpty(e: Entry)
    ensures |EncodeEntry(e)| > 0
  {
  }

  lemma {:induction false} RearmFirst(q: seq<Entry>, now: int, cfg: RetryConfig)
    requires q != []
    ensures Sweep(Rearm(now, cfg), q) == [Rearmed(q[0], now, cfg)] + Sweep(Rearm(now, cfg), q[1..])
  {
    hide Rearmed;
    if |q| > 1 {
      var n := |q| - 1;
      RearmFirst(q[..n], now, cfg);
      assert q[..n][1..] == q[1..][..n - 1];
    }
  }

  // ---- exactly which queues survive ----

  /** Cut to 16 or 32 bits, a length that does not fit makes the entry come back different, or not at all. */
  lemma MisfitPublish(tag: Byte, attempts: U32, p: Publish, rest: Bytes, due: int)
    requires p.packetId.Some? && p.packetId.value != 0
    requires |p.topic| >= 0x1_0000 || |p.payload| >= 0x1_0000_0000
    ensures var r := DecodePublish(tag, attempts, PublishBody(p) + rest, due);
            r.Some? ==> Undelivered(r.value.0) && r.value.0.state.publish != p
  {
    hide U16Bytes, TakeU16, Short, TakeShort, Long, TakeLong;
    var b3 := Long(p.payload) + rest;
    var b2 := Short(p.topic) + b3;
    var b1 := [if p.retain then 1 else 0] + b2;
    assert PublishBody(p) + rest == U16Bytes(p.packetId.value) + b1;
    U16Back(p.packetId.value, b1);
    ShortBack(p.topic, b3);
    LongBack(p.payload, rest);
  }

  lemma MisfitEntry(e: Entry, rest: Bytes, now: int, cfg: RetryConfig)
    requires Storable(e) && !Fits(e)
    ensures var r := DecodeEntry(EncodeEntry(e) + rest, now, cfg);
            r.Some? ==> r.value.0.state != e.state
  {
    hide U16Bytes, U32Bytes, TakeU16, TakeU32, PublishBody, DecodePublish, Backoff;
    var body := PublishBody(e.state.publish);
    assert EncodeEntry(e) + rest == [EntryTag(e)] + (U32Bytes(e.attempts) + (body + rest));
    U32Back(e.attempts, body + rest);
    MisfitPublish(EntryTag(e), e.attempts, e.state.publish, rest, now + Backoff(cfg, Max(e.attempts, 1)));
  }

  lemma {:induction false} MisfitQueue(q: seq<Entry>, k: nat, now: int, cfg: RetryConfig)
    requires forall i :: 0 <= i < |q| ==> Storable(q[i])
    requires k < |q| && !Fits(q[k])
    ensures DecodeQueue(EncodeQueue(q), now, cfg) != Some(Sweep(Rearm(now, cfg), q))
  {
    hide EncodeEntry, DecodeEntry, Sweep;
    RearmFirst(q, now, cfg);
    EncodedNotEmpty(q[0]);
    var rest := EncodeQueue(q[1..]);
    if !Fits(q[0]) {
      MisfitEntry(q[0], rest, now, cfg);
      assert Sweep(Rearm(now, cfg), q)[0] == Rearmed(q[0], now, cfg);
      var whole := DecodeQueue(EncodeQueue(q), now, cfg);
      assert whole.Some? ==> whole.value[0] == DecodeEntry(EncodeQueue(q), now, cfg).value.0;
    } else {
      EntryRoundTrip(q[0], rest, now, cfg);
      MisfitQueue(q[1..], k - 1, now, cfg);
      var tail := Sweep(Rearm(now, cfg), q[1..]);
      forall r: seq<Entry> | r != tail ensures [Rearmed(q[0], now, cfg)] + r != [Rearmed(q[0], now, cfg)] + tail {
        assert ([Rearmed(q[0], now, cfg)] + r)[1..] == r;
        assert ([Rearmed(q[0], now, cfg)] + tail)[1..] == tail;
      }
    }
  }

  /**
   * Decoding undoes encoding - the same counter and the same queue, with only the retry clocks started
   * again - if and only if every topic is shorter than 65536 bytes and every payload than 4 GiB.
   */
  lemma InflightRoundTripExactly(nextId: U16, q: seq<Entry>, now: int, cfg: RetryConfig)
    requires forall k :: 0 <= k < |q| ==> Storable(q[k])
    ensures DecodeInflight(EncodeInflight(nextId, q), now, cfg) == Some((nextId, Sweep(Rearm(now, cfg), q)))
       <==> forall k :: 0 <= k < |q| ==> Fits(q[k])
  {
    hide U16Bytes, TakeU16, EncodeQueue, DecodeQueue, Sweep, Fits;
    U16Back(nextId, EncodeQueue(q));
    if k :| 0 <= k < |q| && !Fits(q[k]) {
      MisfitQueue(q, k, now, cfg);
    } else {
      QueueRoundTrip(q, now, cfg);
    }
  }

  // ---- torn blobs ----

  lemma ShortCut(data: Bytes, n: nat)
    requires |data| < 0x1_0000 && n < |Short(data)|
    ensures TakeShort(Short(data)[..n]).None?
  {
    hide U16Bytes, TakeU16;
    if n >= 2 {
      assert Short(data)[..n] == U16Bytes(|data|) + data[..n - 2];
      U16Back(|data|, data[..n - 2]);
    } else {
      TooShort(Short(data)[..n]);
    }
  }

  lemma LongCut(data: Bytes, n: nat)
    requires |data| < 0x1_0000_0000 && n < |Long(data)|
    ensures TakeLong(Long(data)[..n]).None?
  {
    hide U32Bytes, TakeU32;
    if n >= 4 {
      assert Long(data)[..n] == U32Bytes(|data|) + data[..n - 4];
      U32Back(|data|, data[..n - 4]);
    } else {
      TooShort(Long(data)[..n]);
    }
  }

  lemma TooShort(b: Bytes)
    ensures |b| < 2 ==> TakeU16(b).None?
    ensures |b| < 4 ==> TakeU32(b).None?
  {
  }

  lemma PublishCut(tag: Byte, attempts: U32, p: Publish, n: nat, due: int)
    requires p.packetId.Some? && |p.topic| < 0x1_0000 && |p.payload| < 0x1_0000_0000
    requires n < |PublishBody(p)|
    ensures DecodePublish(tag, attempts, PublishBody(p)[..n], due).None?
  {
    hide U16Bytes, TakeU16, Short, TakeShort, Long, TakeLong;
    var flags: Bytes := [if p.retain then 1 else 0];
    var fields := Short(p.topic) + Long(p.payload);
    assert PublishBody(p) == U16Bytes(p.packetId.value) + (flags + fields);
    if n < 2 {
      TooShort(PublishBody(p)[..n]);
    } else {
      assert PublishBody(p)[..n] == U16Bytes(p.packetId.value) + (flags + fields)[..n - 2];
      U16Back(p.packetId.value, (flags + fields)[..n - 2]);
      if n > 2 {
        var m := n - 3;
        assert (flags + fields)[..n - 2][1..] == fields[..m];
        if m < |Short(p.topic)| {
          assert fields[..m] == Short(p.topic)[..m];
          ShortCut(p.topic, m);
        } else {
          var l := m - |Short(p.topic)|;
          assert fields[..m] == Short(p.topic) + Long(p.payload)[..l];
          ShortBack(p.topic, Long(p.payload)[..l]);
          LongCut(p.payload, l);
        }
      }
    }
  }

  lemma EntryCut(e: Entry, n: nat, now: int, cfg: RetryConfig)
    requires Storable(e) && Fits(e) && n < |EncodeEntry(e)|
    ensures DecodeEntry(EncodeEntry(e)[..n], now, cfg).None?
  {
    hide U16Bytes, U32Bytes, TakeU16, TakeU32, PublishBody, DecodePublish, Backoff, Word;
    var body := if Undelivered(e) then PublishBody(e.state.publish) else U16Bytes(e.state.pid);
    assert EncodeEntry(e) == [EntryTag(e)] + (U32Bytes(e.attempts) + body);
    var b := EncodeEntry(e)[..n];
    if 1 <= n < 5 {
      TooShort(b[1..]);
    } else if n >= 5 {
      assert b[1..] == U32Bytes(e.attempts) + body[..n - 5];
      U32Back(e.attempts, body[..n - 5]);
      if Undelivered(e) {
        PublishCut(EntryTag(e), e.attempts, e.state.publish, n - 5, now + Backoff(cfg, Max(e.attempts, 1)));
      } else {
        TooShort(body[..n - 5]);
      }
    }
  }

  lemma {:induction false} QueueCut(q: seq<Entry>, n: nat, now: int, cfg: RetryConfig) returns (k: nat)
    requires forall i :: 0 <= i < |q| ==> Storable(q[i]) && Fits(q[i])
    requires n <= |EncodeQueue(q)|
    ensures k <= |q|
    ensures var r := DecodeQueue(EncodeQueue(q)[..n], now, cfg);
            r.None? || r == Some(Sweep(Rearm(now, cfg), q[..k]))
  {
    hide EncodeEntry, DecodeEntry, Rearmed;
    k := 0;
    if n == 0 {
      assert EncodeQueue(q)[..n] == [] && q[..0] == [];
      assert DecodeQueue([], now, cfg) == Some([]);
    } else {
      var head, rest := EncodeEntry(q[0]), EncodeQueue(q[1..]);
      if n < |head| {
        assert (head + rest)[..n] == head[..n];
        EntryCut(q[0], n, now, cfg);
      } else {
        var m := n - |head|;
        assert (head + rest)[..n] == head + rest[..m];
        EntryRoundTrip(q[0], rest[..m], now, cfg);
        EncodedNotEmpty(q[0]);
        var k' := QueueCut(q[1..], m, now, cfg);
        k := k' + 1;
        assert q[..k][1..] == q[1..][..k'];
        RearmFirst(q[..k], now, cfg);
      }
    }
  }

  /**
   * A torn blob never corrupts a session: every prefix of an encoded blob fails to decode, or yields
   * the same counter with the first entries of the same queue.
   */
  lemma TornBlobIsSafe(nextId: U16, q: seq<Entry>, n: nat, now: int, cfg: RetryConfig)
    requires forall k :: 0 <= k < |q| ==> Storable(q[k]) && Fits(q[k])
    requires n <= |EncodeInflight(nextId, q)|
    ensures var r := DecodeInflight(EncodeInflight(nextId, q)[..n], now, cfg);
            r.None? || exists k :: 0 <= k <= |q| && r == Some((nextId, Sweep(Rearm(now, cfg), q[..k])))
  {
    hide U16Bytes, TakeU16, EncodeQueue, DecodeQueue, Sweep;
    var blob := EncodeInflight(nextId, q);
    if n < 2 {
      TooShort(blob[..n]);
    } else {
      assert blob[..n] == U16Bytes(nextId) + EncodeQueue(q)[..n - 2];
      U16Back(nextId, EncodeQueue(q)[..n - 2]);
      var k := QueueCut(q, n - 2, now, cfg);
    }
  }

  // ---- logged events ----

  function EncodeEvent(ts: U64, topic: Text, qos: QoS, payload: Bytes): Bytes {
    U64Bytes(ts) + ([qos.Level()] + (Short(topic) + payload))
  }

  /** The record kept of a dead letter, for people to read: nothing in the broker decodes it. */
  function EncodeDeadLetter(ts: U64, attempts: U32, reason: Text, client: Text, topic: Text, qos: QoS, payload: Bytes)
    : Bytes
  {
    U64Bytes(ts) + U32Bytes(attempts) + Short(reason) + Short(client) + Short(topic) + [qos.Level()] + payload
  }

  function DecodeEvent(blob: Bytes): Option<(Text, Bytes, QoS)> {
    var (_, b1) :- Take(blob, 8);
    var (level, b2) :- TakeU8(b1);
    var (topic, payload) :- TakeShort(b2);
    Some((topic, payload, match QoS.FromByte(level) case Some(q) => q case None => AtMostOnce))
  }

  /** A logged event reads back as it was published exactly when its topic is shorter than 65536 bytes. */
  lemma EventRoundTripExactly(ts: U64, topic: Text, qos: QoS, payload: Bytes)
    ensures DecodeEvent(EncodeEvent(ts, topic, qos, payload)) == Some((topic, payload, qos)) <==> |topic| < 0x1_0000
  {
    hide U64Bytes, Short, TakeShort;
    var blob, rest := EncodeEvent(ts, topic, qos, payload), [qos.Level()] + (Short(topic) + payload);
    assert blob[8..] == rest && rest[1..] == Short(topic) + payload;
    ShortBack(topic, payload);
  }

  // ---- the layout on disk ----

  /** The number some bytes spell, most significant byte first. */
  function Value(b: Bytes): nat {
    if b == [] then 0 else Value(b[..|b| - 1]) * 0x100 + b[|b| - 1]
  }

  lemma U16Value(n: U16)
    ensures Value(U16Bytes(n)) == n
  {
    var b := U16Bytes(n);
    assert b[..1] == [b[0]] && [b[0]][..0] == [];
    assert Value([b[0]]) == b[0];
  }

  lemma ValueOfTwo(a: Bytes, b: Bytes)
    requires |b| == 2
    ensures Value(a + b) == Value(a) * 0x1_0000 + Value(b)
  {
    var all := a + b;
    assert all[..|a| + 1] == a + [b[0]] && (a + [b[0]])[..|a|] == a;
    assert b[..1] == [b[0]] && [b[0]][..0] == [];
    assert Value([b[0]]) == b[0];
  }

  lemma U32Value(n: U32)
    ensures Value(U32Bytes(n)) == n
  {
    U16Value(n / 0x1_0000);
    U16Value(n % 0x1_0000);
    ValueOfTwo(U16Bytes(n / 0x1_0000), U16Bytes(n % 0x1_0000));
  }

  lemma ShortLayout(data: Bytes, rest: Bytes)
    requires |data| < 0x1_0000
    ensures var b, n := Short(data) + rest, |data|;
            |b| == 2 + n + |rest| && Value(b[..2]) == n && b[2..2 + n] == data && b[2 + n..] == rest
  {
    U16Value(|data|);
    hide U16Bytes, Value;
    var b := Short(data) + rest;
    assert b[..2] == U16Bytes(|data|);
  }

  lemma LongLayout(data: Bytes)
    requires |data| < 0x1_0000_0000
    ensures var b := Long(data); |b| == 4 + |data| && Value(b[..4]) == |data| && b[4..] == data
  {
    U32Value(|data|);
    hide U32Bytes, Value;
    assert Long(data)[..4] == U32Bytes(|data|);
  }

  /** Packet id, retain flag, and topic and payload behind their lengths. */
  predicate LaidOut(b: Bytes, p: Publish) {
    && |b| == 9 + |p.topic| + |p.payload| && p.packetId.Some?
    && Value(b[..2]) == p.packetId.value && b[2] == (if p.retain then 1 else 0)
    && var rest, t := b[3..], |p.topic|;
       && Value(rest[..2]) == t && rest[2..2 + t] == p.topic
       && Value(rest[2 + t..][..4]) == |p.payload| && rest[2 + t..][4..] == p.payload
  }

  lemma BodyLayout(p: Publish)
    requires p.packetId.Some? && |p.topic| < 0x1_0000 && |p.payload| < 0x1_0000_0000
    ensures LaidOut(PublishBody(p), p)
  {
    U16Value(p.packetId.value);
    ShortLayout(p.topic, Long(p.payload));
    LongLayout(p.payload);
    hide U16Bytes, Value, Short, Long;
    var b := PublishBody(p);
    assert b[..2] == U16Bytes(p.packetId.value);
    assert b[3..] == Short(p.topic) + Long(p.payload);
  }

  /**
   * The bytes of a queued message, place by place: the kind, the attempts, and behind these five bytes the
   * message itself. Numbers have their most significant byte first.
   */
  lemma MessageLayout(e: Entry)
    requires Storable(e) && Fits(e) && Undelivered(e)
    ensures var b := EncodeEntry(e);
            && |b| >= 5 && b[0] == (if e.state.Qos1? then 1 else 2) && Value(b[1..5]) == e.attempts
            && LaidOut(b[5..], e.state.publish)
  {
    BodyLayout(e.state.publish);
    U32Value(e.attempts);
    hide U32Bytes, Value, PublishBody, LaidOut, Storable;
    var b := EncodeEntry(e);
    assert b[1..5] == U32Bytes(e.attempts);
    assert b[5..] == PublishBody(e.state.publish);
  }

  /** An entry waiting for PUBCOMP: the kind 3, the attempts and the packet id. */
  lemma ReleaseLayout(e: Entry)
    requires e.state.Qos2AwaitComp?
    ensures var b := EncodeEntry(e);
            |b| == 7 && b[0] == 3 && Value(b[1..5]) == e.attempts && Value(b[5..]) == e.state.pid
  {
    U32Value(e.attempts);
    U16Value(e.state.pid);
    hide U16Bytes, U32Bytes, Value;
    var b := EncodeEntry(e);
    assert b[1..5] == U32Bytes(e.attempts) && b[5..] == U16Bytes(e.state.pid);
  }

  /** A blob is the packet-id counter in two bytes, then the entries one after another. */
  lemma BlobLayout(nextId: U16, e: Entry, q: seq<Entry>)
    ensures var blob, n := EncodeInflight(nextId, [e] + q), |EncodeEntry(e)|;
            && |blob| >= 2 + n && Value(blob[..2]) == nextId && blob[2..2 + n] == EncodeEntry(e)
            && blob[2 + n..] == EncodeQueue(q)
  {
    U16Value(nextId);
    hide U16Bytes, Value, EncodeEntry;
    var blob := EncodeInflight(nextId, [e] + q);
    assert ([e] + q)[1..] == q;
    assert blob == U16Bytes(nextId) + (EncodeEntry(e) + EncodeQueue(q));
    assert blob[..2] == U16Bytes(nextId);
  }

  /** A logged event: eight bytes of time, the QoS, and the topic behind its length; the rest is the payload. */
  lemma EventLayout(ts: U64, topic: Text, qos: QoS, payload: Bytes)
    requires |topic| < 0x1_0000
    ensures var b, t := EncodeEvent(ts, topic, qos, payload), |topic|;
            && |b| == 11 + t + |payload| && b[8] == qos.Level()
            && Value(b[9..11]) == t && b[11..11 + t] == topic && b[11 + t..] == payload
  {
    ShortLayout(topic, payload);
    hide U64Bytes, Value, Short;
    var b := EncodeEvent(ts, topic, qos, payload);
    var rest := Short(topic) + payload;
    assert b[9..] == rest;
    assert b[9..11] == rest[..2] && b[11..11 + |topic|] == rest[2..2 + |topic|];
    assert b[11 + |topic|..] == rest[2 + |topic|..];
  }
}
