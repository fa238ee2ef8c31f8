/** The session table over whole runs: two indexes in step, ids used once, stale handles harmless. */
module Table {
  import opened Basics
  import opened Topics
  import opened Sessions
  import opened Broker
  import R = Routing

  /** The two indexes are inverse to each other. */
  predicate Inverse(h: HubState) {
    && (forall c :: c in h.idOf ==> h.idOf[c] in h.byId && h.byId[h.idOf[c]].clientId == c)
    && (forall id :: id in h.byId ==> h.byId[id].clientId in h.idOf && h.idOf[h.byId[id].clientId] == id)
  }

  /** Every id and generation in use has been handed out. */
  predicate Issued(h: HubState) {
    forall id :: id in h.byId ==> id < h.nextRaw && h.byId[id].generation <= h.generation
  }

  /** A registration that some subscription string names. */
  predicate Proper(key: Key) {
    KeyOf(RawOf(key)) == Some(key)
  }

  /** The router knows no id that has not been handed out, though it may know dead ones. */
  ghost predicate RoutesIssued(h: HubState) {
    && R.Tidy(h.router)
    && forall id: ClientId, key :: R.Granted(h.router, id, key).Some? ==> id < h.nextRaw && Proper(key)
  }

  ghost predicate TableOk(h: HubState) {
    Inverse(h) && Issued(h) && RoutesIssued(h)
  }

  lemma {:induction false} ActsKeepIdentity(s: SessionState, acts: seq<Act>, now: int, cfg: RetryConfig)
    requires forall i :: 0 <= i < |acts| ==> Ordinary(acts[i])
    ensures var s' := SteppedAll(s, acts, now, cfg);
            s'.clientId == s.clientId && s'.generation == s.generation && s'.expiry == s.expiry
    decreases |acts|
  {
    if acts != [] {
      OneActKeepsIdentity(s, acts[0], now, cfg);
      hide Stepped;
      ActsKeepIdentity(Stepped(s, acts[0], now, cfg), acts[1..], now, cfg);
    }
  }

  lemma OneActKeepsIdentity(s: SessionState, act: Act, now: int, cfg: RetryConfig)
    requires Ordinary(act)
    ensures var s' := Stepped(s, act, now, cfg);
            s'.clientId == s.clientId && s'.generation == s.generation && s'.expiry == s.expiry
  {
    hide Sweep, Sent, Backoff, FirstAwaiting;
  }

  lemma ResumeKeepsIdentity(s: SessionState, expiry: U32, generation: nat, now: int, cfg: RetryConfig)
    ensures var s' := Stepped(s, Resume(expiry, generation), now, cfg);
            s'.clientId == s.clientId && s'.generation == generation && s'.expiry == expiry
  {
    hide Sweep, Sent;
  }

  lemma ConnectKeepsInverse(h: HubState, client: Text, cleanStart: bool, expiry: U32, now: int, cfg: Config)
    requires Inverse(h) && Issued(h)
    ensures var h' := Connected(h, client, cleanStart, expiry, now, cfg); Inverse(h') && Issued(h')
  {
    hide Stepped, R.ClientRemoved;
    if client in h.idOf {
      ResumeKeepsIdentity(h.byId[h.idOf[client]], expiry, h.generation + 1, now, cfg.retry);
    }
  }

  lemma DiscardKeepsInverse(h: HubState, id: ClientId)
    requires Inverse(h) && Issued(h) && id in h.byId
    ensures Inverse(Discarded(h, id)) && Issued(Discarded(h, id))
  {
    hide R.ClientRemoved;
  }

  lemma UpdateKeepsInverse(h: HubState, h': HubState, id: ClientId, s: SessionState)
    requires Inverse(h) && Issued(h) && id in h.byId
    requires s.clientId == h.byId[id].clientId && s.generation == h.byId[id].generation
    requires h'.byId == h.byId[id := s] && h'.idOf == h.idOf
    requires h'.nextRaw == h.nextRaw && h'.generation == h.generation
    ensures Inverse(h') && Issued(h')
  {
  }

  lemma StepKeepsInverse(h: HubState, step: Step, now: int, cfg: Config)
    requires Inverse(h) && Issued(h) && Legal(h, step)
    ensures Inverse(After(h, step, now, cfg)) && Issued(After(h, step, now, cfg))
  {
    hide SteppedAll, SavesAny, Snapshot, R.Subscribed, R.Unsubscribed, R.Advanced, KeyOf, Connected, Discarded;
    match step
    case Connect(client, cleanStart, expiry) => ConnectKeepsInverse(h, client, cleanStart, expiry, now, cfg);
    case Leave(id, _) =>
      if id in h.byId {
        DiscardKeepsInverse(h, id);
        hide Inverse, Issued;
        UpdateKeepsInverse(h, h.(byId := h.byId[id := h.byId[id].(tx := None)]), id, h.byId[id].(tx := None));
      }
    case Purge(id, _) =>
      if id in h.byId {
        DiscardKeepsInverse(h, id);
      }
    case Touch(id, acts) =>
      if id in h.byId {
        ActsKeepIdentity(h.byId[id], acts, now, cfg.retry);
        hide Inverse, Issued;
        UpdateKeepsInverse(h, Touched(h, id, acts, now, cfg), id, SteppedAll(h.byId[id], acts, now, cfg.retry));
      }
    case _ =>
  }

  lemma StepKeepsRoutes(h: HubState, step: Step, now: int, cfg: Config)
    requires RoutesIssued(h) && Legal(h, step)
    ensures RoutesIssued(After(h, step, now, cfg))
  {
    hide Stepped, SteppedAll, SavesAny, Snapshot, KeyOf, R.Granted, R.Tidy,
         R.ClientRemoved, R.Subscribed, R.Unsubscribed, R.Advanced;
    match step
    case Connect(client, _, _) =>
      if client in h.idOf {
        R.RemoveClientForAll(h.router, h.idOf[client]);
      }
    case Leave(id, _) => R.RemoveClientForAll(h.router, id);
    case Purge(id, _) => R.RemoveClientForAll(h.router, id);
    case Subscribe(id, raw, qos) =>
      if KeyOf(raw).Some? {
        R.SubscribeForAll(h.router, id, KeyOf(raw).value, qos);
        RawOfKey(raw);
      }
    case Unsubscribe(id, raw) => R.UnsubscribeForAll(h.router, id, KeyNamed(raw));
    case Route(topic) => AdvanceKeepsGrants(h.router, topic);
    case _ =>
  }

  /** Routing moves cursors and nothing else. */
  lemma AdvanceKeepsGrants(r: R.RouterState, topic: Text)
    requires R.Tidy(r)
    ensures R.Tidy(R.Advanced(r, topic))
    ensures forall c: ClientId, k :: R.Granted(R.Advanced(r, topic), c, k) == R.Granted(r, c, k)
  {
    hide R.Competes, R.Lookup;
  }

  lemma StepKeepsTable(h: HubState, step: Step, now: int, cfg: Config)
    requires TableOk(h) && Legal(h, step)
    ensures TableOk(After(h, step, now, cfg))
  {
    StepKeepsInverse(h, step, now, cfg);
    StepKeepsRoutes(h, step, now, cfg);
  }

  /** Over every run the indexes stay inverse, and ids and generations in use are ones handed out. */
  lemma {:induction false} EveryRunKeepsTable(h: HubState, run: Run, cfg: Config)
    requires TableOk(h) && LegalRun(h, run, cfg)
    ensures TableOk(AfterAll(h, run, cfg))
  {
    hide After, TableOk, Legal, LegalRun;
    if run != [] {
      LegalLast(h, run, cfg);
      EveryRunKeepsTable(h, run[..|run| - 1], cfg);
      StepKeepsTable(AfterAll(h, run[..|run| - 1], cfg), run[|run| - 1].0, run[|run| - 1].1, cfg);
    }
  }

  lemma FirstTable()
    ensures TableOk(FIRST)
  {
  }

  // ---- ids are used once ----

  /** A handed-out id whose session is gone. */
  predicate Dead(h: HubState, id: ClientId) {
    id < h.nextRaw && id !in h.byId
  }

  /** A handle that no longer names a live connection: its session is gone, or was taken over. */
  predicate Stale(h: HubState, id: ClientId, generation: nat) {
    id < h.nextRaw && generation <= h.generation && !Current(h, id, generation)
  }

  lemma StepKeepsDead(h: HubState, step: Step, now: int, cfg: Config, id: ClientId, generation: nat)
    requires Inverse(h) && Issued(h) && Legal(h, step)
    ensures Dead(h, id) ==> Dead(After(h, step, now, cfg), id)
    ensures Stale(h, id, generation) ==> Stale(After(h, step, now, cfg), id, generation)
  {
    hide Stepped, SteppedAll, SavesAny, Snapshot, R.ClientRemoved, R.Subscribed, R.Unsubscribed, R.Advanced, KeyOf;
    match step
    case Connect(client, _, expiry) =>
      if client in h.idOf {
        ResumeKeepsIdentity(h.byId[h.idOf[client]], expiry, h.generation + 1, now, cfg.retry);
      }
    case Touch(id', acts) =>
      if id' in h.byId {
        ActsKeepIdentity(h.byId[id'], acts, now, cfg.retry);
      }
    case _ =>
  }

  /** A session that is gone never comes back under its id, and a stale handle never becomes current again. */
  lemma {:induction false} DeadStaysDead(h: HubState, run: Run, cfg: Config, id: ClientId, generation: nat)
    requires TableOk(h) && LegalRun(h, run, cfg)
    ensures Dead(h, id) ==> Dead(AfterAll(h, run, cfg), id)
    ensures Stale(h, id, generation) ==> Stale(AfterAll(h, run, cfg), id, generation)
  {
    hide After, Legal, LegalRun, Dead, Stale, RoutesIssued, Inverse, Issued;
    if run != [] {
      var n := |run| - 1;
      LegalLast(h, run, cfg);
      DeadStaysDead(h, run[..n], cfg, id, generation);
      EveryRunKeepsTable(h, run[..n], cfg);
      StepKeepsDead(AfterAll(h, run[..n], cfg), run[n].0, run[n].1, cfg, id, generation);
    }
  }

  /** The handle a connect hands to the connection. */
  function HandleOf(h: HubState, client: Text): (ClientId, nat)
    requires client in h.idOf
  {
    (h.idOf[client], h.generation)
  }

  lemma ConnectSupersedes(h: HubState, client: Text, cleanStart: bool, expiry: U32, now: int, cfg: Config,
                          id: ClientId, generation: nat)
    requires TableOk(h) && client in h.idOf
    requires id < h.nextRaw && generation <= h.generation && (id in h.byId ==> h.byId[id].clientId == client)
    ensures var h' := After(h, Connect(client, cleanStart, expiry), now, cfg);
            && Stale(h', id, generation)
            && client in h'.idOf && Current(h', HandleOf(h', client).0, HandleOf(h', client).1)
  {
    hide Stepped, R.ClientRemoved, RoutesIssued;
    ResumeKeepsIdentity(h.byId[h.idOf[client]], expiry, h.generation + 1, now, cfg.retry);
  }

  /**
   * Once a client has connected again, resuming or replacing its session, then whatever runs in between, a
   * detach or a scheduled purge carrying the earlier handle changes nothing.
   */
  lemma SupersededHandleIsHarmless(h: HubState, client: Text, cleanStart: bool, expiry: U32, at: int, run: Run,
                                   now: int, cfg: Config, id: ClientId, generation: nat)
    requires TableOk(h) && client in h.idOf
    requires id < h.nextRaw && generation <= h.generation && (id in h.byId ==> h.byId[id].clientId == client)
    requires LegalRun(After(h, Connect(client, cleanStart, expiry), at, cfg), run, cfg)
    ensures var later := AfterAll(After(h, Connect(client, cleanStart, expiry), at, cfg), run, cfg);
            && After(later, Leave(id, generation), now, cfg) == later
            && After(later, Purge(id, generation), now, cfg) == later
  {
    hide Connected, LegalRun, AfterAll, TableOk;
    var h' := After(h, Connect(client, cleanStart, expiry), at, cfg);
    ConnectSupersedes(h, client, cleanStart, expiry, at, cfg, id, generation);
    StepKeepsTable(h, Connect(client, cleanStart, expiry), at, cfg);
    DeadStaysDead(h', run, cfg, id, generation);
  }
}
