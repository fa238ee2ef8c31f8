/**
 * What each operation of the broker does that a client or an operator can see, written out on the state
 * before and after (crates/relay-server/src/hub.rs).
 */
module Effects {
  import opened Basics
  import opened Topics
  import opened Sessions
  import opened Storage
  import opened Broker
  import opened Table
  import opened Calls
  import D = Delivery
  import G = Guarantees
  import H = Hub
  import R = Routing

  // ---- when sessions leave, and what they leave behind ----

  /**
   * A session leaves the table exactly when its own connection leaves at an expiry interval of 0, when a
   * purge finds it offline under the generation it was scheduled for, or when its client starts clean.
   */
  lemma LeavesExactlyWhen(h: HubState, step: Step, now: int, cfg: Config, id: ClientId)
    requires Inverse(h) && Issued(h) && id in h.byId
    ensures var s := h.byId[id];
            id !in After(h, step, now, cfg).byId <==>
              || (step.Leave? && step.id == id && step.generation == s.generation && s.expiry == 0)
              || (step.Purge? && step.id == id && step.generation == s.generation && s.tx == None)
              || (step.Connect? && step.cleanStart && step.client == s.clientId)
  {
    hide Stepped, SteppedAll, SavesAny, Snapshot, KeyOf, KeyNamed,
         R.Subscribed, R.Unsubscribed, R.ClientRemoved, R.Advanced;
  }

  /** Going offline with a positive interval changes the connection and nothing else. */
  lemma LeaveKeepsTheRest(h: HubState, id: ClientId, generation: nat, now: int, cfg: Config)
    requires id in h.byId && h.byId[id].generation == generation && h.byId[id].expiry > 0
    ensures var s, h' := h.byId[id], After(h, Leave(id, generation), now, cfg);
            && id in h'.byId && h'.byId[id].tx == None
            && h'.byId[id] == SessionState(s.clientId, None, s.nextId, s.inflight, s.incoming, s.expiry, s.generation)
            && h'.idOf == h.idOf && h'.router == h.router && h'.queue == h.queue && h'.retained == h.retained
  {
  }

  /** The step is about this session. */
  predicate Concerns(step: Step, id: ClientId, client: Text) {
    match step
    case Connect(c, _, _) => c == client
    case Leave(i, _) => i == id
    case Purge(i, _) => i == id
    case Touch(i, _) => i == id
    case _ => false
  }

  /** No step changes a session it is not about. */
  lemma OthersUntouched(h: HubState, step: Step, now: int, cfg: Config, id: ClientId)
    requires Inverse(h) && Issued(h) && id in h.byId && !Concerns(step, id, h.byId[id].clientId)
    ensures id in After(h, step, now, cfg).byId && After(h, step, now, cfg).byId[id] == h.byId[id]
  {
    hide Stepped, SteppedAll, SavesAny, Snapshot, KeyOf, KeyNamed,
         R.Subscribed, R.Unsubscribed, R.ClientRemoved, R.Advanced;
  }

  ghost predicate Unregistered(h: HubState, id: ClientId) {
    forall key :: R.Granted(h.router, id, key) == None
  }

  ghost predicate SameGrants(h: HubState, h': HubState, id: ClientId) {
    forall key :: R.Granted(h'.router, id, key) == R.Granted(h.router, id, key)
  }

  /** A session that leaves takes all its registrations with it, and nobody else's. */
  lemma LeavingUnregisters(h: HubState, step: Step, now: int, cfg: Config, id: ClientId, other: ClientId)
    requires TableOk(h) && id in h.byId && id !in After(h, step, now, cfg).byId
    ensures var h' := After(h, step, now, cfg); Unregistered(h', id) && (other != id ==> SameGrants(h, h', other))
  {
    LeavesExactlyWhen(h, step, now, cfg, id);
    hide R.Granted, R.Tidy, R.ClientRemoved, Stepped, RoutesIssued;
    assert R.Tidy(h.router) by {
      TidyRouter(h);
    }
    R.RemoveClientForAll(h.router, id);
  }

  lemma TidyRouter(h: HubState)
    requires TableOk(h)
    ensures R.Tidy(h.router)
  {
  }

  /** Registrations appear only by subscribing. */
  lemma StaysUnregistered(h: HubState, step: Step, now: int, cfg: Config, id: ClientId)
    requires TableOk(h) && Unregistered(h, id) && !(step.Subscribe? && step.id == id)
    ensures Unregistered(After(h, step, now, cfg), id)
  {
    hide Stepped, SteppedAll, SavesAny, Snapshot, KeyOf, KeyNamed, R.Granted, R.Tidy,
         R.ClientRemoved, R.Subscribed, R.Unsubscribed, R.Advanced;
    match step
    case Connect(client, _, _) =>
      if client in h.idOf {
        R.RemoveClientForAll(h.router, h.idOf[client]);
      }
    case Leave(i, _) => R.RemoveClientForAll(h.router, i);
    case Purge(i, _) => R.RemoveClientForAll(h.router, i);
    case Subscribe(i, raw, qos) =>
      if KeyOf(raw).Some? {
        R.SubscribeForAll(h.router, i, KeyOf(raw).value, qos);
      }
    case Unsubscribe(i, raw) => R.UnsubscribeForAll(h.router, i, KeyNamed(raw));
    case Route(topic) => AdvanceKeepsGrants(h.router, topic);
    case _ =>
  }

  /** No SUBSCRIBE was made for this id after its session had gone. */
  predicate NoLateSubscribe(h: HubState, run: Run, cfg: Config, id: ClientId) {
    forall n :: 0 <= n < |run| && run[n].0.Subscribe? && run[n].0.id == id ==> id in AfterAll(h, run[..n], cfg).byId
  }

  /** Over every run: a session that is gone has no registration left, unless someone subscribed for it later. */
  lemma {:induction false} GoneIsUnregistered(h: HubState, run: Run, cfg: Config, id: ClientId)
    requires TableOk(h) && LegalRun(h, run, cfg) && NoLateSubscribe(h, run, cfg, id)
    requires id in h.byId || (Dead(h, id) && Unregistered(h, id))
    ensures var h' := AfterAll(h, run, cfg); id in h'.byId || (Dead(h', id) && Unregistered(h', id))
  {
    hide After, Legal, LegalRun, Unregistered, TableOk;
    if run != [] {
      var n := |run| - 1;
      LegalLast(h, run, cfg);
      assert NoLateSubscribe(h, run[..n], cfg, id) by {
        forall k | 0 <= k < n ensures run[..n][k] == run[k] && run[..n][..k] == run[..k] {
        }
      }
      GoneIsUnregistered(h, run[..n], cfg, id);
      EveryRunKeepsTable(h, run[..n], cfg);
      var mid := AfterAll(h, run[..n], cfg);
      var next := After(mid, run[n].0, run[n].1, cfg);
      GoneStep(mid, run[n].0, run[n].1, cfg, id);
    }
  }

  lemma GoneStep(h: HubState, step: Step, now: int, cfg: Config, id: ClientId)
    requires TableOk(h) && Legal(h, step) && (step.Subscribe? && step.id == id ==> id in h.byId)
    requires id in h.byId || (Dead(h, id) && Unregistered(h, id))
    ensures var h' := After(h, step, now, cfg); id in h'.byId || (Dead(h', id) && Unregistered(h', id))
  {
    hide After, Unregistered;
    StepKeepsDead(h, step, now, cfg, id, 0);
    var h' := After(h, step, now, cfg);
    if id in h.byId {
      if id !in h'.byId {
        LeavingUnregisters(h, step, now, cfg, id, id);
        NextRawGrows(h, step, now, cfg);
      }
    } else {
      StaysUnregistered(h, step, now, cfg, id);
    }
  }

  /** Every target of a publish holds a registration at its QoS; so an unregistered client is never one. */
  lemma TargetIsRegistered(h: HubState, topic: Text, targets: seq<R.Target>, fanOut: seq<R.Target>, groups: seq<Text>,
                           id: ClientId, q: QoS)
    requires R.Tidy(h.router) && R.IsRoute(h.router, topic, targets, fanOut, groups) && (id, q) in targets
    ensures exists key :: R.Granted(h.router, id, key) == Some(q)
    ensures !Unregistered(h, id)
  {
    hide R.Granted, R.Tidy, R.Competes, Matches;
    assert (id, q) in multiset(targets);
    if (id, q) in fanOut {
      assert R.IsBest(h.router, id, topic, q);
      var f :| R.Granted(h.router, id, Normal(f)) == Some(q) && Matches(f, topic);
    } else {
      assert (id, q) in multiset(R.Picks(h.router, topic, groups));
      var g := PickedBy(h.router, topic, groups, (id, q));
      R.PickHasRegistration(h.router, topic, g);
      var f :| R.Granted(h.router, id, Shared(g, f)) == Some(q) && Matches(f, topic);
    }
  }

  lemma {:induction false} PickedBy(r: R.RouterState, topic: Text, groups: seq<Text>, t: R.Target) returns (g: Text)
    requires forall g :: g in groups ==> g in r.shared && R.Competes(r.shared[g], topic)
    requires t in R.Picks(r, topic, groups)
    ensures g in r.shared && R.Competes(r.shared[g], topic) && R.PickOf(r.shared[g], topic) == t
  {
    hide R.Competes, R.PickOf;
    var n := |groups| - 1;
    if R.PickOf(r.shared[groups[n]], topic) == t {
      g := groups[n];
    } else {
      g := PickedBy(r, topic, groups[..n], t);
    }
  }

  // ---- subscribing ----

  /** Subscribing grants one registration; unsubscribing takes one away. Everything else stays as it was. */
  lemma SubscribeGrants(h: HubState, id: ClientId, raw: Text, qos: QoS, now: int, cfg: Config, c: ClientId, key: Key)
    requires R.Tidy(h.router)
    ensures var h' := After(h, Subscribe(id, raw, qos), now, cfg);
            && h'.byId == h.byId && h'.idOf == h.idOf && h'.retained == h.retained
            && R.Granted(h'.router, c, key)
            == if c == id && KeyOf(raw) == Some(key) then Some(qos) else R.Granted(h.router, c, key)
    ensures var h' := After(h, Unsubscribe(id, raw), now, cfg);
            && h'.byId == h.byId && h'.idOf == h.idOf && h'.retained == h.retained
            && R.Granted(h'.router, c, key)
            == if c == id && KeyNamed(raw) == key then None else R.Granted(h.router, c, key)
  {
    hide KeyOf, KeyNamed, R.Granted, R.Subscribed, R.Unsubscribed, R.Tidy;
    if KeyOf(raw).Some? {
      R.SubscribeUpdatesRelation(h.router, id, KeyOf(raw).value, qos, c, key);
    }
    R.UnsubscribeUpdatesRelation(h.router, id, KeyNamed(raw), c, key);
  }

  // ---- what a delivery adds ----

  /** One message on its way to one session, as published and as subscribed to. */
  datatype Parcel = Parcel(topic: Text, payload: Bytes, published: QoS, granted: QoS, retain: bool)

  /** A packet carries a parcel: its topic and payload, at a QoS no higher than published and than granted. */
  predicate Bears(p: Publish, parcel: Parcel) {
    && p.topic == parcel.topic && p.payload == parcel.payload && p.retain == parcel.retain && !p.dup && p.offset == None
    && p.qos.Level() <= parcel.published.Level() && p.qos.Level() <= parcel.granted.Level()
    && (p.qos == parcel.published || p.qos == parcel.granted)
    && (p.packetId == None <==> p.qos == AtMostOnce)
  }

  /** Whether a parcel needs an answer: it was published and is granted above QoS 0. */
  predicate Acknowledged(parcel: Parcel) {
    parcel.published != AtMostOnce && parcel.granted != AtMostOnce
  }

  /** A new queue entry for a parcel: sent once, and due again after the first back-off. */
  predicate Queues(e: Entry, parcel: Parcel, pid: U16, now: int, cfg: RetryConfig) {
    && !e.state.Qos2AwaitComp? && Bears(e.state.publish, parcel) && e.state.publish.packetId == Some(pid)
    && (e.state.Qos1? <==> e.state.publish.qos == AtLeastOnce)
    && e.attempts == 1 && e.nextDue == now + Backoff(cfg, 1)
  }

  function DeliverOf(parcel: Parcel): Act {
    Deliver(parcel.topic, parcel.payload, MinQoS(parcel.published, parcel.granted), parcel.retain)
  }

  /** One delivery: one packet if online, one queue entry with the next id if it needs an answer. */
  lemma DeliveryAdds(s: SessionState, parcel: Parcel, now: int, cfg: RetryConfig)
    ensures var s' := Stepped(s, DeliverOf(parcel), now, cfg);
            && (s.tx.None? ==> s'.tx.None?)
            && (s.tx.Some? ==>
                  && s'.tx.Some? && |s'.tx.value| == |s.tx.value| + 1 && s.tx.value <= s'.tx.value
                  && var p := s'.tx.value[|s.tx.value|]; p.PublishPacket? && Bears(p.publish, parcel))
            && (if Acknowledged(parcel) then
                  && |s'.inflight| == |s.inflight| + 1 && s.inflight <= s'.inflight
                  && Queues(s'.inflight[|s.inflight|], parcel, s.nextId, now, cfg)
                  && s'.nextId == (if s.nextId == 65535 then 1 else s.nextId + 1)
                else s'.inflight == s.inflight && s'.nextId == s.nextId)
            && s'.incoming == s.incoming && s'.clientId == s.clientId && s'.expiry == s.expiry
            && s'.generation == s.generation
  {
    hide Backoff;
  }

  function DeliversOf(parcels: seq<Parcel>): (acts: seq<Act>)
    ensures |acts| == |parcels| && forall k :: 0 <= k < |acts| ==> acts[k] == DeliverOf(parcels[k])
  {
    seq(|parcels|, k requires 0 <= k < |parcels| => DeliverOf(parcels[k]))
  }

  /** The positions of the parcels that need an answer, in order. */
  function QueuedAt(parcels: seq<Parcel>): (ks: seq<nat>)
    ensures forall i :: 0 <= i < |ks| ==> ks[i] < |parcels|
    ensures forall k: nat :: k in ks <==> k < |parcels| && Acknowledged(parcels[k])
    ensures forall i, j :: 0 <= i < j < |ks| ==> ks[i] < ks[j]
  {
    if parcels == [] then []
    else
      var n := |parcels| - 1;
      QueuedAt(parcels[..n]) + if Acknowledged(parcels[n]) then [n] else []
  }

  /** What a list of parcels adds to a session: a packet for each if online, an entry for each that needs one. */
  predicate Adds(s: SessionState, s': SessionState, parcels: seq<Parcel>, now: int, cfg: RetryConfig) {
    && AddsPackets(s, s', parcels) && AddsEntries(s, s', parcels, now, cfg)
    && s'.incoming == s.incoming && s'.clientId == s.clientId && s'.expiry == s.expiry && s'.generation == s.generation
  }

  predicate AddsPackets(s: SessionState, s': SessionState, parcels: seq<Parcel>) {
    if s.tx.None? then s'.tx.None?
    else s'.tx.Some? && s.tx.value <= s'.tx.value && BearAll(s'.tx.value[|s.tx.value|..], parcels)
  }

  /** These packets carry these parcels, one each, in order. */
  predicate BearAll(packets: seq<Packet>, parcels: seq<Parcel>) {
    && |packets| == |parcels|
    && forall k :: 0 <= k < |parcels| ==> packets[k].PublishPacket? && Bears(packets[k].publish, parcels[k])
  }

  predicate AddsEntries(s: SessionState, s': SessionState, parcels: seq<Parcel>, now: int, cfg: RetryConfig) {
    s.inflight <= s'.inflight && QueueAll(s'.inflight[|s.inflight|..], parcels, QueuedAt(parcels), now, cfg)
  }

  /** These entries are for the parcels at these positions, one each, in order. */
  predicate QueueAll(entries: seq<Entry>, parcels: seq<Parcel>, ks: seq<nat>, now: int, cfg: RetryConfig) {
    && |entries| == |ks|
    && forall i :: 0 <= i < |ks| ==> ks[i] < |parcels| && QueuesSome(entries[i], parcels[ks[i]], now, cfg)
  }

  predicate QueuesSome(e: Entry, parcel: Parcel, now: int, cfg: RetryConfig) {
    !e.state.Qos2AwaitComp? && e.state.publish.packetId.Some?
    && Queues(e, parcel, e.state.publish.packetId.value, now, cfg)
  }

  lemma AddsNothing(s: SessionState, now: int, cfg: RetryConfig)
    ensures Adds(s, s, [], now, cfg)
  {
  }

  lemma AddsPacketMore(s: SessionState, mid: SessionState, s': SessionState, parcels: seq<Parcel>, parcel: Parcel)
    requires AddsPackets(s, mid, parcels) && AddsPackets(mid, s', [parcel])
    ensures AddsPackets(s, s', parcels + [parcel])
  {
    hide Bears;
    if s.tx.Some? {
      var n, m := |s.tx.value|, |mid.tx.value|;
      assert s'.tx.value[n..] == mid.tx.value[n..] + s'.tx.value[m..];
    }
  }

  lemma AddsEntryMore(s: SessionState, mid: SessionState, s': SessionState, parcels: seq<Parcel>, parcel: Parcel,
                      now: int, cfg: RetryConfig)
    requires AddsEntries(s, mid, parcels, now, cfg)
    requires if Acknowledged(parcel)
             then |s'.inflight| == |mid.inflight| + 1 && mid.inflight <= s'.inflight
                  && QueuesSome(s'.inflight[|mid.inflight|], parcel, now, cfg)
             else s'.inflight == mid.inflight
    ensures AddsEntries(s, s', parcels + [parcel], now, cfg)
  {
    hide QueuesSome, Acknowledged;
    var all, n, m, ks := parcels + [parcel], |s.inflight|, |mid.inflight|, QueuedAt(parcels);
    assert all[..|parcels|] == parcels;
    assert QueuedAt(all) == ks + if Acknowledged(parcel) then [|parcels|] else [];
    hide QueuedAt;
    if Acknowledged(parcel) {
      assert s'.inflight[n..] == mid.inflight[n..] + [s'.inflight[m]];
    } else {
      assert ks + [] == ks;
    }
  }

  lemma OneAdds(s: SessionState, parcel: Parcel, now: int, cfg: RetryConfig)
    ensures var s' := Stepped(s, DeliverOf(parcel), now, cfg);
            && AddsPackets(s, s', [parcel])
            && (if Acknowledged(parcel)
                then |s'.inflight| == |s.inflight| + 1 && s.inflight <= s'.inflight
                     && QueuesSome(s'.inflight[|s.inflight|], parcel, now, cfg)
                else s'.inflight == s.inflight)
  {
    DeliveryAdds(s, parcel, now, cfg);
    hide Stepped, Bears, Backoff, DeliverOf, Acknowledged;
  }

  /** The packets and entries of a list of deliveries are those of its parcels, in order. */
  lemma {:induction false} DeliveriesAdd(s: SessionState, parcels: seq<Parcel>, now: int, cfg: RetryConfig)
    ensures Adds(s, SteppedAll(s, DeliversOf(parcels), now, cfg), parcels, now, cfg)
  {
    hide Stepped, AddsPackets, AddsEntries, DeliverOf, Acknowledged, QueuesSome;
    if parcels == [] {
      AddsNothing(s, now, cfg);
    } else {
      var n := |parcels| - 1;
      var before, last := parcels[..n], parcels[n];
      DeliveriesAdd(s, before, now, cfg);
      assert DeliversOf(parcels) == DeliversOf(before) + [DeliverOf(last)] && before + [last] == parcels;
      SteppedMore(s, DeliversOf(before), DeliverOf(last), now, cfg);
      var mid := SteppedAll(s, DeliversOf(before), now, cfg);
      hide SteppedAll;
      var s' := Stepped(mid, DeliverOf(last), now, cfg);
      OneAdds(mid, last, now, cfg);
      DeliveryAdds(mid, last, now, cfg);
      AddsPacketMore(s, mid, s', before, last);
      AddsEntryMore(s, mid, s', before, last, now, cfg);
    }
  }

  // ---- publishing ----

  /** The parcels of a publish for one session: one for each grant it has among the targets. */
  function ParcelsFor(targets: seq<R.Target>, id: ClientId, topic: Text, payload: Bytes, qos: QoS): (ps: seq<Parcel>)
    ensures |ps| == |Grants(targets, id)|
    ensures forall k :: 0 <= k < |ps| ==> ps[k] == Parcel(topic, payload, qos, Grants(targets, id)[k], false)
  {
    var grants := Grants(targets, id);
    seq(|grants|, k requires 0 <= k < |grants| => Parcel(topic, payload, qos, grants[k], false))
  }

  /**
   * A publish adds to every live session exactly its own copies, in order: the topic and payload published,
   * not retained, not a duplicate, at a QoS that is one of the published and the granted one and no higher
   * than either; with a queue entry for each that needs an answer. It changes no other session.
   */
  lemma PublishAdds(h: HubState, ts: U64, targets: seq<R.Target>, topic: Text, payload: Bytes, qos: QoS, retain: bool,
                    now: int, cfg: Config, id: ClientId)
    requires id in h.byId
    ensures var h' := AfterAll(h, PublishRun(ts, targets, topic, payload, qos, retain, now, cfg), cfg);
            && h'.byId.Keys == h.byId.Keys && h'.idOf == h.idOf
            && Adds(h.byId[id], h'.byId[id], ParcelsFor(targets, id, topic, payload, qos), now, cfg.retry)
  {
    var front := FrontRun(ts, topic, payload, qos, retain, now, cfg);
    var copies := CopyRun(targets, topic, payload, qos, now);
    H.FrontIs(h, ts, topic, payload, qos, retain, now, cfg);
    hide FrontRun, AfterAll, Adds, SteppedAll, Stepped, Grants, CopyRun;
    AfterMore(h, front, copies, cfg);
    var mid := AfterAll(h, front, cfg);
    EachGetsItsCopies(mid, targets, topic, payload, qos, now, cfg);
    CopiesKeepRest(mid, targets, topic, payload, qos, now, cfg);
    var parcels := ParcelsFor(targets, id, topic, payload, qos);
    assert Copies(Grants(targets, id), topic, payload, qos) == DeliversOf(parcels);
    DeliveriesAdd(mid.byId[id], parcels, now, cfg.retry);
  }

  /** Copying a message to its targets changes neither the index nor the retained messages. */
  lemma {:induction false} CopiesKeepRest(h: HubState, targets: seq<R.Target>, topic: Text, payload: Bytes, qos: QoS,
                                          now: int, cfg: Config)
    ensures var h' := AfterAll(h, CopyRun(targets, topic, payload, qos, now), cfg);
            h'.idOf == h.idOf && h'.retained == h.retained
  {
    hide AfterAll, CopyRun, After, MinQoS;
    if targets == [] {
      H.CopyNone(h, targets, topic, payload, qos, now, cfg);
      assert targets[..0] == targets;
    } else {
      var n := |targets| - 1;
      CopiesKeepRest(h, targets[..n], topic, payload, qos, now, cfg);
      H.CopyRunStep(h, targets, n, topic, payload, qos, now, cfg);
      assert targets[..n + 1] == targets;
      var mid := AfterAll(h, CopyRun(targets[..n], topic, payload, qos, now), cfg);
      TouchKeepsRest(mid, targets[n].0, [Deliver(topic, payload, MinQoS(qos, targets[n].1), false)], now, cfg);
    }
  }

  lemma TouchKeepsRest(h: HubState, id: ClientId, acts: seq<Act>, now: int, cfg: Config)
    ensures var h' := After(h, Touch(id, acts), now, cfg); h'.idOf == h.idOf && h'.retained == h.retained
  {
    hide SteppedAll, SavesAny, Snapshot;
  }

  /**
   * A new subscriber gets every retained message handed to it, in order, flagged as retained, at a QoS that
   * is one of the stored and the granted one and no higher than either.
   */
  lemma RetainedDeliveryAdds(h: HubState, id: ClientId, ms: seq<Message>, granted: QoS, now: int, cfg: Config)
    requires id in h.byId
    ensures var h' := After(h, Touch(id, H.RetainedActs(ms, granted)), now, cfg);
            && h'.byId.Keys == h.byId.Keys
            && Adds(h.byId[id], h'.byId[id], RetainedParcels(ms, granted), now, cfg.retry)
  {
    hide Adds, SteppedAll, SavesAny, Snapshot;
    assert H.RetainedActs(ms, granted) == DeliversOf(RetainedParcels(ms, granted));
    DeliveriesAdd(h.byId[id], RetainedParcels(ms, granted), now, cfg.retry);
  }

  function RetainedParcels(ms: seq<Message>, granted: QoS): (ps: seq<Parcel>)
    ensures |ps| == |ms|
    ensures forall k :: 0 <= k < |ps| ==> ps[k] == Parcel(ms[k].topic, ms[k].payload, ms[k].qos, granted, true)
  {
    seq(|ms|, k requires 0 <= k < |ms| => Parcel(ms[k].topic, ms[k].payload, ms[k].qos, granted, true))
  }

  /** Replayed packets reach an online session in order, and touch neither its queue nor its counter. */
  lemma ReplayReaches(h: HubState, id: ClientId, ps: seq<Publish>, now: int, cfg: Config)
    requires id in h.byId
    ensures var s, h' := h.byId[id], After(h, Touch(id, H.Pushes(ps)), now, cfg);
            && id in h'.byId && h'.queue == h.queue
            && var s' := h'.byId[id];
               && s'.inflight == s.inflight && s'.nextId == s.nextId && s'.incoming == s.incoming
               && (s.tx.None? ==> s'.tx.None?)
               && (s.tx.Some? ==>
                     && s'.tx.Some? && |s'.tx.value| == |s.tx.value| + |ps| && s.tx.value <= s'.tx.value
                     && forall k :: 0 <= k < |ps| ==> s'.tx.value[|s.tx.value|..][k] == PublishPacket(ps[k]))
  {
    hide SteppedAll, SavesAny, Snapshot;
    H.PushesSend(h.byId[id], ps, now, cfg.retry);
    assert h.queue + [] == h.queue;
  }

  /** A retained publish sets or clears its own topic, as published; any other publish changes no topic. */
  lemma PublishRetains(h: HubState, ts: U64, targets: seq<R.Target>, topic: Text, payload: Bytes, qos: QoS,
                       retain: bool, now: int, cfg: Config, t: Text)
    ensures var h' := AfterAll(h, PublishRun(ts, targets, topic, payload, qos, retain, now, cfg), cfg);
            At(h'.retained, t)
            == if retain && t == topic then (if payload == [] then None else Some(Message(topic, payload, qos, true)))
               else At(h.retained, t)
  {
    H.FrontIs(h, ts, topic, payload, qos, retain, now, cfg);
    hide FrontRun, AfterAll, CopyRun;
    var mid := AfterAll(h, FrontRun(ts, topic, payload, qos, retain, now, cfg), cfg);
    AfterMore(h, FrontRun(ts, topic, payload, qos, retain, now, cfg), CopyRun(targets, topic, payload, qos, now), cfg);
    CopiesKeepRest(mid, targets, topic, payload, qos, now, cfg);
  }

  /** The count a publish returns is the number of its targets that name a session in the table. */
  lemma {:induction false} CountsLiveTargets(targets: seq<R.Target>, live: set<ClientId>)
    ensures H.LiveOf(targets, live) == |set k | 0 <= k < |targets| && targets[k].0 in live|
  {
    var ks := set k | 0 <= k < |targets| && targets[k].0 in live;
    if targets == [] {
      assert ks == {};
    } else {
      var n := |targets| - 1;
      CountsLiveTargets(targets[..n], live);
      var before := set k | 0 <= k < |targets[..n]| && targets[..n][k].0 in live;
      assert ks == before + if targets[n].0 in live then {n} else {};
    }
  }

  // ---- the timer and the inbound ids ----

  /** The timer leaves an offline session alone: nothing is sent, counted, buried or written. */
  lemma OfflineWaits(h: HubState, id: ClientId, now: int, cfg: Config)
    requires id in h.byId && h.byId[id].tx == None
    ensures After(h, Touch(id, [Tick]), now, cfg) == h && BuriedAt(h.byId[id], now, cfg.retry) == []
  {
    H.TouchIs(h, id, Tick, now, cfg);
    assert h.byId[id := h.byId[id]] == h.byId && h.queue + [] == h.queue;
  }

  /** The inbound ids held after some acts: those seen and not let go since. */
  function HeldAfter(held: set<U16>, acts: seq<Act>): set<U16>
    decreases |acts|
  {
    if acts == [] then held
    else
      var now := if acts[0].SeenIn? then held + {acts[0].pid}
                 else if acts[0].ReleaseIn? then held - {acts[0].pid} else held;
      HeldAfter(now, acts[1..])
  }

  lemma {:induction false} ActsHold(s: SessionState, acts: seq<Act>, now: int, cfg: RetryConfig)
    requires forall i :: 0 <= i < |acts| ==> Ordinary(acts[i])
    ensures SteppedAll(s, acts, now, cfg).incoming == HeldAfter(s.incoming, acts)
    decreases |acts|
  {
    if acts != [] {
      OneActHolds(s, acts[0], now, cfg);
      hide Stepped;
      ActsHold(Stepped(s, acts[0], now, cfg), acts[1..], now, cfg);
    }
  }

  lemma OneActHolds(s: SessionState, act: Act, now: int, cfg: RetryConfig)
    requires Ordinary(act) || act.Resume?
    ensures Stepped(s, act, now, cfg).incoming
         == if act.SeenIn? then s.incoming + {act.pid}
            else if act.ReleaseIn? then s.incoming - {act.pid} else s.incoming
  {
    hide Sweep, Sent, Backoff, FirstAwaiting;
  }

  /** The acts of a step on one session. */
  function ActsOn(step: Step, id: ClientId): seq<Act> {
    if step.Touch? && step.id == id then step.acts else []
  }

  function ActsOfRun(run: Run, id: ClientId): seq<Act> {
    if run == [] then [] else ActsOfRun(run[..|run| - 1], id) + ActsOn(run[|run| - 1].0, id)
  }

  lemma StepHolds(h: HubState, step: Step, now: int, cfg: Config, id: ClientId)
    requires Inverse(h) && Issued(h) && Legal(h, step) && id in h.byId && id in After(h, step, now, cfg).byId
    ensures After(h, step, now, cfg).byId[id].incoming == HeldAfter(h.byId[id].incoming, ActsOn(step, id))
  {
    hide Stepped, SteppedAll, SavesAny, Snapshot, R.ClientRemoved;
    HeldNone(h.byId[id].incoming);
    if !Concerns(step, id, h.byId[id].clientId) {
      OthersUntouched(h, step, now, cfg, id);
      hide After;
    } else if step.Connect? {
      OneActHolds(h.byId[id], Resume(step.expiry, h.generation + 1), now, cfg.retry);
    } else if step.Touch? {
      ActsHold(h.byId[id], step.acts, now, cfg.retry);
    }
    hide HeldAfter;
  }

  lemma {:induction false} HeldMore(held: set<U16>, a: seq<Act>, b: seq<Act>)
    ensures HeldAfter(held, a + b) == HeldAfter(HeldAfter(held, a), b)
    decreases |a|
  {
    if a == [] {
      assert a + b == b;
    } else {
      assert (a + b)[1..] == a[1..] + b;
      var now := if a[0].SeenIn? then held + {a[0].pid} else if a[0].ReleaseIn? then held - {a[0].pid} else held;
      HeldMore(now, a[1..], b);
    }
  }

  /**
   * Inbound QoS 2 ids over every run, through disconnects, takeovers, timers and deliveries: as long as a
   * session stays in the table it holds exactly the ids seen and not let go since, so a repeated PUBLISH is
   * recognised until its PUBREL.
   */
  lemma {:induction false} InboundIdsAreHeld(h: HubState, run: Run, cfg: Config, id: ClientId)
    requires TableOk(h) && LegalRun(h, run, cfg) && id in h.byId && id in AfterAll(h, run, cfg).byId
    ensures AfterAll(h, run, cfg).byId[id].incoming == HeldAfter(h.byId[id].incoming, ActsOfRun(run, id))
  {
    HandedOut(h, id);
    hide After, Legal, LegalRun, RoutesIssued, Inverse, Issued, HeldAfter;
    if run == [] {
      HeldNone(h.byId[id].incoming);
    } else {
      var n := |run| - 1;
      LegalLast(h, run, cfg);
      EveryRunKeepsTable(h, run[..n], cfg);
      var mid := AfterAll(h, run[..n], cfg);
      StepKeepsDead(mid, run[n].0, run[n].1, cfg, id, 0);
      DeadOrLive(h, run[..n], cfg, id);
      InboundIdsAreHeld(h, run[..n], cfg, id);
      StepHolds(mid, run[n].0, run[n].1, cfg, id);
      HeldMore(h.byId[id].incoming, ActsOfRun(run[..n], id), ActsOn(run[n].0, id));
    }
  }

  lemma HandedOut(h: HubState, id: ClientId)
    requires TableOk(h) && id in h.byId
    ensures id < h.nextRaw
  {
  }

  lemma HeldNone(held: set<U16>)
    ensures HeldAfter(held, []) == held
  {
  }

  /** An id once handed out stays below the next one. */
  lemma {:induction false} DeadOrLive(h: HubState, run: Run, cfg: Config, id: ClientId)
    requires TableOk(h) && LegalRun(h, run, cfg) && id < h.nextRaw
    ensures id < AfterAll(h, run, cfg).nextRaw
  {
    hide After, Legal, LegalRun, TableOk;
    if run != [] {
      LegalLast(h, run, cfg);
      DeadOrLive(h, run[..|run| - 1], cfg, id);
      NextRawGrows(AfterAll(h, run[..|run| - 1], cfg), run[|run| - 1].0, run[|run| - 1].1, cfg);
    }
  }

  lemma NextRawGrows(h: HubState, step: Step, now: int, cfg: Config)
    ensures h.nextRaw <= After(h, step, now, cfg).nextRaw
  {
    hide Stepped, SteppedAll, SavesAny, Snapshot, KeyOf, KeyNamed,
         R.Subscribed, R.Unsubscribed, R.ClientRemoved, R.Advanced;
  }

  // ---- connecting ----

  /**
   * After a connect the client's session is online under the new generation, with the new interval. A new
   * or clean session starts with an empty queue, the first packet id and no inbound ids; a resumed one
   * keeps its id, its counter, its inbound ids and every queued message with its attempts.
   */
  lemma ConnectAttaches(h: HubState, client: Text, cleanStart: bool, expiry: U32, now: int, cfg: Config)
    requires Inverse(h) && Issued(h)
    ensures var h' := After(h, Connect(client, cleanStart, expiry), now, cfg);
            && client in h'.idOf && h'.idOf[client] in h'.byId && h'.generation == h.generation + 1
            && var id, s' := h'.idOf[client], h'.byId[h'.idOf[client]];
               && s'.clientId == client && s'.tx.Some? && s'.expiry == expiry && s'.generation == h'.generation
               && (if client in h.idOf && !cleanStart then
                     var s := h.byId[h.idOf[client]];
                     id == h.idOf[client] && s'.nextId == s.nextId && s'.incoming == s.incoming
                     && SameMessages(s.inflight, s'.inflight)
                   else id !in h.byId && s'.tx == Some([]) && s'.nextId == 1 && s'.inflight == [] && s'.incoming == {})
  {
    hide R.ClientRemoved, Stepped, SameMessages;
    if client in h.idOf && !cleanStart {
      ResumeKeeps(h.byId[h.idOf[client]], expiry, h.generation + 1, now, cfg.retry);
    }
  }

  /** The same messages in the same states, in order, each with its attempts. */
  predicate SameMessages(q: seq<Entry>, q': seq<Entry>) {
    |q'| == |q| && forall k :: 0 <= k < |q| ==> q'[k].state == q[k].state && q'[k].attempts == q[k].attempts
  }

  lemma ResumeKeeps(s: SessionState, expiry: U32, generation: nat, now: int, cfg: RetryConfig)
    ensures var s' := Stepped(s, Resume(expiry, generation), now, cfg);
            && s'.clientId == s.clientId && s'.tx.Some? && s'.expiry == expiry && s'.generation == generation
            && s'.nextId == s.nextId && s'.incoming == s.incoming && SameMessages(s.inflight, s'.inflight)
  {
    RearmKeepsMessages(s.inflight, now, cfg);
    hide Sweep, Sent, SameMessages;
  }

  lemma {:induction false} RearmKeepsMessages(q: seq<Entry>, now: int, cfg: RetryConfig)
    ensures SameMessages(q, Sweep(Rearm(now, cfg), q))
  {
    hide Backoff;
    if q != [] {
      RearmKeepsMessages(q[..|q| - 1], now, cfg);
    }
  }

  // ---- what is dead-lettered ----

  /** These dead letters are the entries at these positions: the client's, in order, with their attempts. */
  predicate LettersOf(dead: seq<(Text, DeadMsg)>, client: Text, q: seq<Entry>, gone: seq<nat>) {
    && |dead| == |gone|
    && forall i :: 0 <= i < |gone| ==>
         && gone[i] < |q| && Undelivered(q[gone[i]])
         && dead[i] == (client, DeadMsg(q[gone[i]].state.publish, q[gone[i]].attempts))
  }

  /** The timer's dead letters for an online session: its due, exhausted, undelivered messages outside `$dlq/`. */
  lemma TimerLetters(s: SessionState, now: int, cfg: RetryConfig) returns (gone: seq<nat>)
    requires s.tx.Some?
    ensures D.Increasing(gone) && LettersOf(BuriedAt(s, now, cfg), s.clientId, s.inflight, gone)
    ensures forall j :: 0 <= j < |s.inflight| ==> (j in gone <==> G.Exhausted(s.inflight[j], now, cfg))
  {
    gone := G.GoneAt(Retry(now, cfg), s.inflight);
    G.TimerPartitionsQueue(s.inflight, now, cfg);
    G.TimerSendsAndBuries(s.inflight, now, cfg);
    hide Buried, G.GoneAt, D.Kept, Sweep, Sent, G.SentAt, G.Exhausted;
  }

  /** A purge's dead letters: the session's undelivered messages outside `$dlq/`, QoS 1 and QoS 2 alike. */
  lemma PurgeLetters(s: SessionState) returns (gone: seq<nat>)
    ensures D.Increasing(gone) && LettersOf(Tagged(s.clientId, Buried(Drain, s.inflight)), s.clientId, s.inflight, gone)
    ensures forall j :: 0 <= j < |s.inflight| ==>
      (j in gone <==> !s.inflight[j].state.Qos2AwaitComp? && !IsDlqTopic(s.inflight[j].state.publish.topic))
  {
    gone := G.GoneAt(Drain, s.inflight);
    G.ExpiryPartitionsQueue(s.inflight);
    hide Buried, G.GoneAt, D.Kept, Sweep, IsDlqTopic;
  }

  /** The reasons recorded, letter by letter. */
  lemma ReasonsSpelled()
    ensures |EXHAUSTED| == |REASON_ATTEMPTS| && |SESSION_EXPIRED| == |REASON_EXPIRED|
    ensures forall i :: 0 <= i < |EXHAUSTED| ==> EXHAUSTED[i] == REASON_ATTEMPTS[i] as int
    ensures forall i :: 0 <= i < |SESSION_EXPIRED| ==> SESSION_EXPIRED[i] == REASON_EXPIRED[i] as int
  {
  }

  const REASON_ATTEMPTS: string := "max_delivery_attempts_exceeded"

  const REASON_EXPIRED: string := "session_expired"
}
