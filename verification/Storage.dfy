/** The on-disk tables, the queued writes, and the loaders (crates/relay-server/src/storage.rs). */
module Storage {
  import opened Basics
  import opened EventLog

  /** Each table of the store as a map; a write is one atomic step. */
  datatype Disk = Disk(
    retained: map<Text, Bytes>, sessions: map<Text, U32>, subs: map<Text, Bytes>, inflight: map<Text, Bytes>,
    dead: Log, events: Log)

  const EMPTY: Disk := Disk(map[], map[], map[], map[], map[], map[])

  datatype PersistOp =
    | PutSession(client: Text, expiry: U32)
    | RemoveSession(client: Text)
    | PutSubscription(client: Text, raw: Text, qos: QoS)
    | RemoveSubscription(client: Text, raw: Text)
    | PutInflight(client: Text, blob: Bytes)
    | PutRetained(topic: Text, payload: Bytes, qos: QoS)
    | AppendDeadLetter(blob: Bytes)
    | AppendEvent(blob: Bytes, retention: U64)
    | Flush

  function SubKey(client: Text, raw: Text): Text {
    client + [NUL] + raw
  }

  /** The subscription rows that do not belong to a client. */
  function WithoutPrefix(subs: map<Text, Bytes>, prefix: Text): map<Text, Bytes> {
    map k | k in subs && !StartsWith(k, prefix) :: subs[k]
  }

  function Apply(d: Disk, op: PersistOp): Disk {
    match op
    case PutSession(client, expiry) => d.(sessions := d.sessions[client := expiry])
    case RemoveSession(client) =>
      d.(sessions := d.sessions - {client}, subs := WithoutPrefix(d.subs, client + [NUL]),
         inflight := d.inflight - {client})
    case PutSubscription(client, raw, qos) => d.(subs := d.subs[SubKey(client, raw) := [qos.Level()]])
    case RemoveSubscription(client, raw) => d.(subs := d.subs - {SubKey(client, raw)})
    case PutInflight(client, blob) =>
      d.(inflight := if blob == [] then d.inflight - {client} else d.inflight[client := blob])
    case PutRetained(topic, payload, qos) =>
      d.(retained := if payload == [] then d.retained - {topic} else d.retained[topic := [qos.Level()] + payload])
    case AppendDeadLetter(blob) => d.(dead := Appended(d.dead, blob, 0))
    case AppendEvent(blob, retention) => d.(events := Appended(d.events, blob, retention))
    case Flush => d
  }

  function ApplyAll(d: Disk, ops: seq<PersistOp>): Disk
    decreases |ops|
  {
    if ops == [] then d else ApplyAll(Apply(d, ops[0]), ops[1..])
  }

  lemma {:induction false} ApplyMore(d: Disk, ops: seq<PersistOp>, more: seq<PersistOp>)
    ensures ApplyAll(d, ops + more) == ApplyAll(ApplyAll(d, ops), more)
    decreases |ops|
  {
    hide Apply;
    if ops == [] {
      assert ops + more == more;
    } else {
      assert (ops + more)[1..] == ops[1..] + more;
      ApplyMore(Apply(d, ops[0]), ops[1..], more);
    }
  }

  // ---- what the tables say about one client or topic ----

  function At<V>(m: map<Text, V>, k: Text): Option<V> {
    if k in m then Some(m[k]) else None
  }

  function QosOf(value: Bytes): QoS {
    if value == [] then AtMostOnce
    else
      match QoS.FromByte(value[0])
      case Some(q) => q
      case None => AtMostOnce
  }

  /** The stored QoS of a client's subscription, if it has a row. */
  function SubRow(d: Disk, client: Text, raw: Text): Option<QoS> {
    if SubKey(client, raw) in d.subs then Some(QosOf(d.subs[SubKey(client, raw)])) else None
  }

  /** The client an operation is about, if it is about one. */
  function About(op: PersistOp): Option<Text> {
    match op
    case PutSession(c, _) => Some(c)
    case RemoveSession(c) => Some(c)
    case PutSubscription(c, _, _) => Some(c)
    case RemoveSubscription(c, _) => Some(c)
    case PutInflight(c, _) => Some(c)
    case _ => None
  }

  lemma SubKeyInjective(a: Text, x: Text, b: Text, y: Text)
    requires NUL !in a && NUL !in b && SubKey(a, x) == SubKey(b, y)
    ensures a == b && x == y
  {
    SplitOnceOfJoined(a, NUL, x);
    SplitOnceOfJoined(b, NUL, y);
  }

  /** The rows of one client are those behind its own prefix: no other client's prefix begins them. */
  lemma PrefixIsClient(a: Text, raw: Text, b: Text)
    requires NUL !in a && NUL !in b
    ensures StartsWith(SubKey(a, raw), b + [NUL]) <==> a == b
  {
    var k := SubKey(a, raw);
    assert k[..|a| + 1] == a + [NUL];
    if StartsWith(k, b + [NUL]) {
      var rest := k[|b| + 1..];
      assert k == k[..|b| + 1] + rest;
      assert k == SubKey(b, rest);
      SubKeyInjective(a, raw, b, rest);
    }
  }

  lemma QosBack(q: QoS)
    ensures QosOf([q.Level()]) == q
  {
  }

  /** A write about one client leaves the rows of every other client alone. */
  lemma OthersKeepRows(d: Disk, op: PersistOp, c: Text, raw: Text)
    requires About(op) != Some(c)
    requires NUL !in c && (About(op).Some? ==> NUL !in About(op).value)
    ensures At(Apply(d, op).sessions, c) == At(d.sessions, c)
    ensures At(Apply(d, op).inflight, c) == At(d.inflight, c)
    ensures SubRow(Apply(d, op), c, raw) == SubRow(d, c, raw)
  {
    hide Appended, QosOf;
    if About(op).Some? {
      var b := About(op).value;
      PrefixIsClient(c, raw, b);
      if op.PutSubscription? || op.RemoveSubscription? {
        if SubKey(c, raw) == SubKey(b, op.raw) {
          SubKeyInjective(c, raw, b, op.raw);
        }
      }
    }
  }

  /** What a write about a client does to that client's subscription rows. */
  lemma OwnSubRow(d: Disk, op: PersistOp, raw: Text)
    requires About(op).Some? && NUL !in About(op).value
    ensures SubRow(Apply(d, op), About(op).value, raw)
         == match op
            case RemoveSession(_) => None
            case PutSubscription(_, r, q) => if raw == r then Some(q) else SubRow(d, op.client, raw)
            case RemoveSubscription(_, r) => if raw == r then None else SubRow(d, op.client, raw)
            case _ => SubRow(d, op.client, raw)
  {
    var c := op.client;
    PrefixIsClient(c, raw, c);
    if op.PutSubscription? || op.RemoveSubscription? {
      if SubKey(c, raw) == SubKey(c, op.raw) {
        SubKeyInjective(c, raw, c, op.raw);
      }
    }
    if op.PutSubscription? {
      QosBack(op.qos);
    }
    hide Appended, QosOf;
  }

  // ---- the store, updated in place ----

  datatype Persisted = Persisted(client: Text, expiry: U32, subscriptions: seq<(Text, QoS)>)

  /** The subscription rows that load for a client: those whose key splits at its first NUL into it. */
  predicate Loads(d: Disk, client: Text, raw: Text, qos: QoS) {
    NUL !in client && SubRow(d, client, raw) == Some(qos)
  }

  function Names(out: seq<Persisted>): set<Text> {
    set p | p in out :: p.client
  }

  /** What loading the sessions must return: each session row once, with its subscription rows, each once. */
  ghost predicate IsLoad(d: Disk, out: seq<Persisted>) {
    && (forall i, j :: 0 <= i < j < |out| ==> out[i].client != out[j].client)
    && Names(out) == d.sessions.Keys
    && (forall i :: 0 <= i < |out| ==> LoadsAs(d, out[i]))
  }

  ghost predicate LoadsAs(d: Disk, p: Persisted) {
    && At(d.sessions, p.client) == Some(p.expiry)
    && (forall raw, qos :: (raw, qos) in p.subscriptions <==> Loads(d, p.client, raw, qos))
    && (forall i, j :: 0 <= i < j < |p.subscriptions| ==> p.subscriptions[i].0 != p.subscriptions[j].0)
  }

  class Store {
    var retained: map<Text, Bytes>
    var sessions: map<Text, U32>
    var subs: map<Text, Bytes>
    var inflight: map<Text, Bytes>
    var dead: Log
    var events: Log

    function State(): Disk
      reads this
    {
      Disk(retained, sessions, subs, inflight, dead, events)
    }

    constructor (d: Disk)
      ensures State() == d
    {
      retained, sessions, subs, inflight, dead, events := d.retained, d.sessions, d.subs, d.inflight, d.dead, d.events;
    }

    method DropSession(client: Text)
      modifies this
      ensures State() == Apply(old(State()), RemoveSession(client))
    {
      sessions := sessions - {client};
      var prefix := client + [NUL];
      var keys := set k | k in subs && StartsWith(k, prefix);
      while keys != {}
        modifies this`subs
        invariant forall k :: k in keys ==> k in subs && StartsWith(k, prefix)
        invariant WithoutPrefix(subs, prefix) == WithoutPrefix(old(subs), prefix)
        invariant forall k :: k in subs && StartsWith(k, prefix) ==> k in keys
        decreases |keys|
      {
        var k :| k in keys;
        assert WithoutPrefix(subs - {k}, prefix) == WithoutPrefix(subs, prefix);
        subs := subs - {k};
        keys := keys - {k};
      }
      assert WithoutPrefix(subs, prefix) == subs;
      inflight := inflight - {client};
    }

    method Write(op: PersistOp)
      modifies this
      ensures State() == Apply(old(State()), op)
    {
      hide Appended;
      match op
      case PutSession(client, expiry) => sessions := sessions[client := expiry];
      case RemoveSession(client) => DropSession(client);
      case PutSubscription(client, raw, qos) => subs := subs[SubKey(client, raw) := [qos.Level()]];
      case RemoveSubscription(client, raw) => subs := subs - {SubKey(client, raw)};
      case PutInflight(client, blob) =>
        inflight := if blob == [] then inflight - {client} else inflight[client := blob];
      case PutRetained(topic, payload, qos) =>
        retained := if payload == [] then retained - {topic} else retained[topic := [qos.Level()] + payload];
      case AppendDeadLetter(blob) =>
        var _, log := Append(dead, blob, 0);
        dead := log;
      case AppendEvent(blob, retention) =>
        var _, log := Append(events, blob, retention);
        events := log;
      case Flush =>
    }

    /** The worker: apply the queued writes in order. */
    method Drain(ops: seq<PersistOp>)
      modifies this
      ensures State() == ApplyAll(old(State()), ops)
    {
      hide Apply;
      for i := 0 to |ops|
        invariant ApplyAll(State(), ops[i..]) == ApplyAll(old(State()), ops)
      {
        assert ops[i..][0] == ops[i] && ops[i..][1..] == ops[i + 1..];
        Write(ops[i]);
      }
    }

    /** Group the subscription rows by client, then attach them to the session rows. */
    method LoadSessions() returns (out: seq<Persisted>)
      ensures IsLoad(State(), out)
    {
      hide SubRow, Loads, LoadsAs, IsGrouping, PartLoad, IsLoad;
      ghost var d := State();
      var byClient := GroupRows();
      LoadStart(d);
      out := [];
      var left := sessions.Keys;
      while left != {}
        invariant left <= sessions.Keys
        invariant PartLoad(d, left, out)
        decreases |left|
      {
        var c :| c in left;
        var p := Persisted(c, sessions[c], if c in byClient then byClient[c] else []);
        GroupLoads(d, byClient, p);
        LoadStep(d, left, out, p);
        out := out + [p];
        left := left - {c};
      }
      LoadEnd(d, out);
    }

    method GroupRows() returns (byClient: map<Text, seq<(Text, QoS)>>)
      ensures IsGrouping(State(), byClient)
    {
      byClient := map[];
      var left := subs.Keys;
      while left != {}
        invariant left <= subs.Keys
        invariant Grouped(subs, subs.Keys - left, byClient)
        decreases |left|
      {
        var k :| k in left;
        GroupStep(subs, subs.Keys - left, byClient, k);
        assert subs.Keys - (left - {k}) == (subs.Keys - left) + {k};
        left := left - {k};
        var split := SplitOnce(k, NUL);
        if split.Some? {
          var (c, raw) := split.value;
          byClient := byClient[c := (if c in byClient then byClient[c] else []) + [(raw, QosOf(subs[k]))]];
        }
      }
      GroupEnd(State(), byClient);
    }
  }

  ghost predicate IsGrouping(d: Disk, byClient: map<Text, seq<(Text, QoS)>>) {
    && (forall c, raw, qos :: c in byClient && (raw, qos) in byClient[c] <==> Loads(d, c, raw, qos))
    && (forall c, i, j :: c in byClient && 0 <= i < j < |byClient[c]| ==> byClient[c][i].0 != byClient[c][j].0)
  }

  /** Half-way through: the sessions not in `todo` are listed. */
  ghost predicate PartLoad(d: Disk, todo: set<Text>, out: seq<Persisted>) {
    && (forall i, j :: 0 <= i < j < |out| ==> out[i].client != out[j].client)
    && Names(out) == d.sessions.Keys - todo
    && (forall i :: 0 <= i < |out| ==> LoadsAs(d, out[i]))
  }

  lemma LoadStart(d: Disk)
    ensures PartLoad(d, d.sessions.Keys, [])
  {
  }

  lemma LoadStep(d: Disk, todo: set<Text>, out: seq<Persisted>, p: Persisted)
    requires PartLoad(d, todo, out) && p.client in todo && p.client in d.sessions && LoadsAs(d, p)
    ensures PartLoad(d, todo - {p.client}, out + [p])
  {
    hide LoadsAs;
    NameMore(out, p);
    hide Names;
    assert (d.sessions.Keys - todo) + {p.client} == d.sessions.Keys - (todo - {p.client});
  }

  lemma LoadEnd(d: Disk, out: seq<Persisted>)
    requires PartLoad(d, {}, out)
    ensures IsLoad(d, out)
  {
    hide LoadsAs, Names;
  }

  lemma GroupLoads(d: Disk, byClient: map<Text, seq<(Text, QoS)>>, p: Persisted)
    requires IsGrouping(d, byClient) && At(d.sessions, p.client) == Some(p.expiry)
    requires p.subscriptions == if p.client in byClient then byClient[p.client] else []
    ensures LoadsAs(d, p)
  {
    hide Loads;
  }

  lemma NameMore(out: seq<Persisted>, p: Persisted)
    ensures Names(out + [p]) == Names(out) + {p.client}
    ensures p.client !in Names(out) ==> forall q :: q in out ==> q.client != p.client
  {
    assert forall q :: q in out + [p] <==> q in out || q == p;
  }

  /** The rows in `done`, grouped by client. */
  ghost predicate Grouped(subs: map<Text, Bytes>, done: set<Text>, byClient: map<Text, seq<(Text, QoS)>>) {
    && (forall c :: c in byClient ==> NUL !in c)
    && (forall c, i :: c in byClient && 0 <= i < |byClient[c]| ==>
          SubKey(c, byClient[c][i].0) in done && SubKey(c, byClient[c][i].0) in subs
          && byClient[c][i].1 == QosOf(subs[SubKey(c, byClient[c][i].0)]))
    && (forall c, raw :: NUL !in c && SubKey(c, raw) in done && SubKey(c, raw) in subs ==>
          c in byClient && (raw, QosOf(subs[SubKey(c, raw)])) in byClient[c])
    && (forall c, i, j :: c in byClient && 0 <= i < j < |byClient[c]| ==> byClient[c][i].0 != byClient[c][j].0)
  }

  lemma GroupStep(subs: map<Text, Bytes>, done: set<Text>, byClient: map<Text, seq<(Text, QoS)>>, k: Text)
    requires Grouped(subs, done, byClient) && k in subs && k !in done
    ensures SplitOnce(k, NUL).None? ==> Grouped(subs, done + {k}, byClient)
    ensures SplitOnce(k, NUL).Some? ==>
      var (c, raw) := SplitOnce(k, NUL).value;
      Grouped(subs, done + {k}, byClient[c := (if c in byClient then byClient[c] else []) + [(raw, QosOf(subs[k]))]])
  {
    hide QosOf, SplitOnce;
    if SplitOnce(k, NUL).Some? {
      var (c, raw) := SplitOnce(k, NUL).value;
      var after := byClient[c := (if c in byClient then byClient[c] else []) + [(raw, QosOf(subs[k]))]];
      assert k == SubKey(c, raw);
      forall c', raw' | NUL !in c' && SubKey(c', raw') in done + {k} && SubKey(c', raw') in subs
        ensures c' in after && (raw', QosOf(subs[SubKey(c', raw')])) in after[c']
      {
        if SubKey(c', raw') == k {
          SubKeyInjective(c', raw', c, raw);
          assert after[c][|after[c]| - 1] == (raw, QosOf(subs[k]));
        }
      }
    } else {
      forall c, raw ensures NUL in SubKey(c, raw) {
        assert SubKey(c, raw)[|c|] == NUL;
      }
    }
  }

  lemma GroupEnd(d: Disk, byClient: map<Text, seq<(Text, QoS)>>)
    requires Grouped(d.subs, d.subs.Keys, byClient)
    ensures IsGrouping(d, byClient)
  {
    hide QosOf;
    forall c, raw, qos ensures c in byClient && (raw, qos) in byClient[c] <==> Loads(d, c, raw, qos) {
      if c in byClient && (raw, qos) in byClient[c] {
        var i :| 0 <= i < |byClient[c]| && byClient[c][i] == (raw, qos);
      }
      if Loads(d, c, raw, qos) {
        assert SubKey(c, raw) in d.subs.Keys;
      }
    }
  }
}
