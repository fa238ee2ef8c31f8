/**
 * The broker as a state machine (`Hub` in crates/relay-server/src/hub.rs). Each step holds the locks it
 * needs from start to end; a hub call is a short sequence of steps.
 */
module Broker {
  import opened Basics
  import opened Topics
  import opened Sessions
  import opened Codec
  import opened Storage
  import opened Retained
  import R = Routing

  datatype Config = Config(retry: RetryConfig, eventLogMax: U64)

  /** Memory, the writes queued for the persistence worker, and the disk. */
  datatype HubState = HubState(
    nextRaw: nat, generation: nat, byId: map<ClientId, SessionState>, idOf: map<Text, ClientId>,
    router: R.RouterState, retained: Shelf, queue: seq<PersistOp>, disk: Disk)

  const NO_ROUTES: R.RouterState := R.RouterState(map[], map[])

  /** The expiry interval of a session that is kept forever. */
  const NO_EXPIRY: U32 := U32_SIZE - 1

  /** A broker started on an empty disk. */
  const FIRST: HubState := HubState(1, 0, map[], map[], NO_ROUTES, map[], [], EMPTY)

  datatype Step =
    | Connect(client: Text, cleanStart: bool, expiry: U32)
    | Leave(id: ClientId, generation: nat)
    | Purge(id: ClientId, generation: nat)
    | Subscribe(id: ClientId, raw: Text, qos: QoS)
    | Unsubscribe(id: ClientId, raw: Text)
    | Touch(id: ClientId, acts: seq<Act>)
    | Retain(topic: Text, payload: Bytes, qos: QoS)
    | Route(topic: Text)
    | Journal(entry: PersistOp)
    | Write

  function Enqueued(h: HubState, ops: seq<PersistOp>): HubState {
    h.(queue := h.queue + ops)
  }

  /** The durable marker of a session: kept while its expiry interval is positive. */
  function Meta(client: Text, expiry: U32): PersistOp {
    if expiry > 0 then PutSession(client, expiry) else RemoveSession(client)
  }

  /** The queue write of a durable session; nothing for one that ends with its connection. */
  function Snapshot(s: SessionState): seq<PersistOp> {
    if s.expiry > 0 then [PutInflight(s.clientId, EncodeInflight(s.nextId, s.inflight))] else []
  }

  /** A session made under the next free id. */
  function Opened(h: HubState, client: Text, expiry: U32): HubState {
    h.(nextRaw := h.nextRaw + 1, idOf := h.idOf[client := h.nextRaw],
       byId := h.byId[h.nextRaw := NewSession(client, Some([]), expiry, h.generation)],
       queue := h.queue + [Meta(client, expiry)])
  }

  /** A session and its subscriptions dropped on a clean start; the index entry is overwritten next. */
  function Replaced(h: HubState, client: Text, id: ClientId): HubState {
    h.(byId := h.byId - {id}, router := R.ClientRemoved(h.router, id), queue := h.queue + [RemoveSession(client)])
  }

  function Connected(h0: HubState, client: Text, cleanStart: bool, expiry: U32, now: int, cfg: Config): HubState {
    var h := h0.(generation := h0.generation + 1);
    if client !in h.idOf then Opened(h, client, expiry)
    else
      var id := h.idOf[client];
      if cleanStart then Opened(Replaced(h, client, id), client, expiry)
      else if id !in h.byId then h
      else
        h.(byId := h.byId[id := Stepped(h.byId[id], Resume(expiry, h.generation), now, cfg.retry)],
           queue := h.queue + [Meta(client, expiry)])
  }

  function Discarded(h: HubState, id: ClientId): HubState
    requires id in h.byId
  {
    h.(byId := h.byId - {id}, idOf := map c | c in h.idOf && h.idOf[c] != id :: h.idOf[c],
       router := R.ClientRemoved(h.router, id), queue := h.queue + [RemoveSession(h.byId[id].clientId)])
  }

  predicate Current(h: HubState, id: ClientId, generation: nat) {
    id in h.byId && h.byId[id].generation == generation
  }

  function Left(h: HubState, id: ClientId, generation: nat): HubState {
    if !Current(h, id, generation) then h
    else if h.byId[id].expiry == 0 then Discarded(h, id)
    else h.(byId := h.byId[id := h.byId[id].(tx := None)])
  }

  /** Whether a scheduled purge goes ahead. */
  predicate Expired(h: HubState, id: ClientId, generation: nat) {
    Current(h, id, generation) && h.byId[id].tx.None?
  }

  function Purged(h: HubState, id: ClientId, generation: nat): HubState {
    if Expired(h, id, generation) then Discarded(h, id) else h
  }

  /** Subscriptions are written only for durable sessions. */
  predicate Durable(h: HubState, id: ClientId) {
    id in h.byId && h.byId[id].expiry > 0
  }

  function SubscribedTo(h: HubState, id: ClientId, raw: Text, qos: QoS): HubState {
    match KeyOf(raw)
    case None => h
    case Some(key) =>
      h.(router := R.Subscribed(h.router, id, key, qos),
         queue := h.queue + if Durable(h, id) then [PutSubscription(h.byId[id].clientId, raw, qos)] else [])
  }

  /** The registration an UNSUBSCRIBE names: it is not checked to be a well-formed filter. */
  function KeyNamed(raw: Text): Key {
    match ParseShared(raw)
    case Some(key) => key
    case None => Normal(raw)
  }

  function UnsubscribedFrom(h: HubState, id: ClientId, raw: Text): HubState {
    h.(router := R.Unsubscribed(h.router, id, KeyNamed(raw)),
       queue := h.queue + if Durable(h, id) then [RemoveSubscription(h.byId[id].clientId, raw)] else [])
  }

  /** Whether an act is followed by a write of the queue. */
  predicate Saves(s: SessionState, act: Act, now: int) {
    match act
    case Deliver(_, _, qos, _) => qos != AtMostOnce
    case Tick => s.tx.Some? && AnyDue(s.inflight, now)
    case AckPub(_) => true
    case AckRec(_) => true
    case AckComp(_) => true
    case _ => false
  }

  function SteppedAll(s: SessionState, acts: seq<Act>, now: int, cfg: RetryConfig): SessionState
    decreases |acts|
  {
    if acts == [] then s else SteppedAll(Stepped(s, acts[0], now, cfg), acts[1..], now, cfg)
  }

  predicate SavesAny(s: SessionState, acts: seq<Act>, now: int, cfg: RetryConfig)
    decreases |acts|
  {
    acts != [] && (Saves(s, acts[0], now) || SavesAny(Stepped(s, acts[0], now, cfg), acts[1..], now, cfg))
  }

  function Touched(h: HubState, id: ClientId, acts: seq<Act>, now: int, cfg: Config): HubState {
    if id !in h.byId then h
    else
      var s := SteppedAll(h.byId[id], acts, now, cfg.retry);
      h.(byId := h.byId[id := s],
         queue := h.queue + if SavesAny(h.byId[id], acts, now, cfg.retry) then Snapshot(s) else [])
  }

  function Stored(h: HubState, topic: Text, payload: Bytes, qos: QoS): HubState {
    h.(retained := Shelved(h.retained, Message(topic, payload, qos, true)),
       queue := h.queue + [PutRetained(topic, payload, qos)])
  }

  function Written(h: HubState): HubState {
    if h.queue == [] then h else h.(disk := Apply(h.disk, h.queue[0]), queue := h.queue[1..])
  }

  function After(h: HubState, step: Step, now: int, cfg: Config): HubState {
    match step
    case Connect(client, cleanStart, expiry) => Connected(h, client, cleanStart, expiry, now, cfg)
    case Leave(id, generation) => Left(h, id, generation)
    case Purge(id, generation) => Purged(h, id, generation)
    case Subscribe(id, raw, qos) => SubscribedTo(h, id, raw, qos)
    case Unsubscribe(id, raw) => UnsubscribedFrom(h, id, raw)
    case Touch(id, acts) => Touched(h, id, acts, now, cfg)
    case Retain(topic, payload, qos) => Stored(h, topic, payload, qos)
    case Route(topic) => h.(router := R.Advanced(h.router, topic))
    case Journal(entry) => Enqueued(h, [entry])
    case Write => Written(h)
  }

  /** Acts that leave a session's connection, expiry and generation alone. */
  predicate Ordinary(act: Act) {
    !act.Resume? && !act.Detach? && !act.Reload?
  }

  /**
   * What the broker's callers keep to: ids come from an earlier connect, sessions are attached and
   * detached only by connects and leaves, and the journals are only appended to.
   */
  predicate Legal(h: HubState, step: Step) {
    match step
    case Subscribe(id, _, _) => id < h.nextRaw
    case Touch(_, acts) => forall i :: 0 <= i < |acts| ==> Ordinary(acts[i])
    case Journal(entry) => entry.AppendEvent? || entry.AppendDeadLetter?
    case _ => true
  }

  /** Section 1.5.4 of MQTT 5.0: a client identifier holds no NUL. */
  predicate NulFree(step: Step) {
    step.Connect? ==> NUL !in step.client
  }

  type Run = seq<(Step, int)>

  predicate NulFreeRun(run: Run) {
    forall n :: 0 <= n < |run| ==> NulFree(run[n].0)
  }

  function AfterAll(h: HubState, run: Run, cfg: Config): HubState {
    if run == [] then h
    else
      var n := |run| - 1;
      After(AfterAll(h, run[..n], cfg), run[n].0, run[n].1, cfg)
  }

  predicate LegalRun(h: HubState, run: Run, cfg: Config) {
    forall n :: 0 <= n < |run| ==> Legal(AfterAll(h, run[..n], cfg), run[n].0)
  }

  lemma LegalPrefix(h: HubState, run: Run, cfg: Config, n: nat)
    requires LegalRun(h, run, cfg) && n <= |run|
    ensures LegalRun(h, run[..n], cfg)
  {
    hide AfterAll, Legal;
    forall k | 0 <= k < n ensures Legal(AfterAll(h, run[..n][..k], cfg), run[..n][k].0) {
      assert run[..n][..k] == run[..k];
    }
  }

  lemma LegalLast(h: HubState, run: Run, cfg: Config)
    requires LegalRun(h, run, cfg) && run != []
    ensures var n := |run| - 1;
            LegalRun(h, run[..n], cfg) && Legal(AfterAll(h, run[..n], cfg), run[n].0)
            && AfterAll(h, run, cfg) == After(AfterAll(h, run[..n], cfg), run[n].0, run[n].1, cfg)
  {
    hide After, Legal;
    LegalPrefix(h, run, cfg, |run| - 1);
  }
}
