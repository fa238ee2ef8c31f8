/**
 * The hub itself: the calls of `Hub` in crates/relay-server/src/hub.rs, updating the table, the router,
 * the retained store and the write queue in place. Each call is proved to be the run of steps it stands for.
 */
module Hub {
  import opened Basics
  import opened Topics
  import opened Sessions
  import opened Codec
  import opened Storage
  import opened Retained
  import opened Broker
  import opened Table
  import opened Calls
  import opened Restart
  import opened Reload
  import Accounts
  import A = Agreement
  import EventLog
  import Replay
  import R = Routing

  /** Packet ids are never 0, so no call can meet the hub's own panic on one. */
  predicate Counting(h: HubState) {
    forall id :: id in h.byId ==> h.byId[id].nextId != 0
  }

  lemma OneActCounts(s: SessionState, act: Act, now: int, cfg: RetryConfig)
    requires s.nextId != 0
    ensures Stepped(s, act, now, cfg).nextId != 0
  {
    hide Sweep, Sent, Backoff, FirstAwaiting;
  }

  lemma {:induction false} ActsCount(s: SessionState, acts: seq<Act>, now: int, cfg: RetryConfig)
    requires s.nextId != 0
    ensures SteppedAll(s, acts, now, cfg).nextId != 0
    decreases |acts|
  {
    hide Stepped;
    if acts != [] {
      OneActCounts(s, acts[0], now, cfg);
      ActsCount(Stepped(s, acts[0], now, cfg), acts[1..], now, cfg);
    }
  }

  lemma StepCounts(h: HubState, step: Step, now: int, cfg: Config)
    requires Counting(h)
    ensures Counting(After(h, step, now, cfg))
  {
    hide Stepped, SteppedAll, SavesAny, Snapshot, KeyOf, KeyNamed,
         R.Subscribed, R.Unsubscribed, R.ClientRemoved, R.Advanced;
    match step
    case Connect(client, _, expiry) =>
      if client in h.idOf && h.idOf[client] in h.byId {
        OneActCounts(h.byId[h.idOf[client]], Resume(expiry, h.generation + 1), now, cfg.retry);
      }
    case Touch(id, acts) =>
      if id in h.byId {
        ActsCount(h.byId[id], acts, now, cfg.retry);
      }
    case _ =>
  }

  lemma {:induction false} RunCounts(h: HubState, run: Run, cfg: Config)
    requires Counting(h)
    ensures Counting(AfterAll(h, run, cfg))
  {
    hide After, Counting;
    if run != [] {
      var n := |run| - 1;
      RunCounts(h, run[..n], cfg);
      StepCounts(AfterAll(h, run[..n], cfg), run[n].0, run[n].1, cfg);
    }
  }

  ghost predicate Sound(h: HubState) {
    TableOk(h) && Counting(h) && Labelled(h.retained)
  }

  lemma StepKeepsLabels(h: HubState, step: Step, now: int, cfg: Config)
    requires Labelled(h.retained)
    ensures Labelled(After(h, step, now, cfg).retained)
  {
    hide Stepped, SteppedAll, SavesAny, Snapshot, KeyOf, KeyNamed,
         R.Subscribed, R.Unsubscribed, R.ClientRemoved, R.Advanced;
  }

  lemma StepSound(h: HubState, step: Step, now: int, cfg: Config)
    requires Sound(h) && Legal(h, step)
    ensures Sound(After(h, step, now, cfg))
  {
    hide TableOk, Counting, After, Legal, Labelled;
    StepKeepsTable(h, step, now, cfg);
    StepCounts(h, step, now, cfg);
    StepKeepsLabels(h, step, now, cfg);
  }

  lemma {:induction false} RunSound(h: HubState, run: Run, cfg: Config)
    requires Sound(h) && LegalRun(h, run, cfg)
    ensures Sound(AfterAll(h, run, cfg))
  {
    hide Sound, After, Legal, LegalRun;
    if run != [] {
      LegalLast(h, run, cfg);
      RunSound(h, run[..|run| - 1], cfg);
      StepSound(AfterAll(h, run[..|run| - 1], cfg), run[|run| - 1].0, run[|run| - 1].1, cfg);
    }
  }

  /** A touch with a single act, spelled out. */
  lemma TouchOne(h: HubState, id: ClientId, act: Act, now: int, cfg: Config)
    requires id in h.byId
    ensures var s := Stepped(h.byId[id], act, now, cfg.retry);
            After(h, Touch(id, [act]), now, cfg)
            == h.(byId := h.byId[id := s], queue := h.queue + if Saves(h.byId[id], act, now) then Snapshot(s) else [])
  {
    hide Stepped, Saves, Snapshot;
    OneActRun(h.byId[id], act, now, cfg.retry);
    assert [act][1..] == [];
    assert SavesAny(h.byId[id], [act], now, cfg.retry) <==> Saves(h.byId[id], act, now);
  }

  class Hub {
    const cfg: Config
    const router: R.Router
    const shelf: RetainedStore
    var nextRaw: nat
    var generation: nat
    var byId: map<ClientId, SessionState>
    var idOf: map<Text, ClientId>
    var queue: seq<PersistOp>
    var disk: Disk

    ghost function State(): HubState
      reads this, router, shelf
    {
      HubState(nextRaw, generation, byId, idOf, router.State(), shelf.byTopic, queue, disk)
    }

    ghost predicate Valid()
      reads this, router, shelf
    {
      Sound(State())
    }

    constructor (cfg: Config)
      ensures Valid() && State() == FIRST && this.cfg == cfg && fresh(router) && fresh(shelf)
    {
      this.cfg := cfg;
      router := new R.Router();
      shelf := new RetainedStore();
      nextRaw, generation, byId, idOf, queue, disk := 1, 0, map[], map[], [], EMPTY;
      new;
      FirstTable();
    }

    /** Start from a disk: the retained messages, then each session row with its subscriptions and its queue. */
    constructor FromDisk(d: Disk, cfg: Config, now: int)
      ensures this.cfg == cfg && fresh(router) && fresh(shelf)
      ensures IsReload(d, now, cfg.retry, State())
      ensures Counting(State()) ==> Valid()
    {
      this.cfg := cfg;
      router := new R.Router();
      shelf := new RetainedStore();
      nextRaw, generation, byId, idOf, queue, disk := 1, 0, map[], map[], [], d;
      new;
      hide Unpacked, Reloading, IsReload, R.Tidy, Labelled, Sound, Counting, IsLoad;
      shelf.Load(d.retained);
      var store := new Store(d);
      var rows := store.LoadSessions();
      ReloadStart(d, shelf.byTopic, now, cfg.retry);
      ReviveAll(rows, now);
      ReloadEnd(d, State(), now, cfg.retry);
      SoundAgain(State());
    }

    /** The session rows, one after another. */
    method ReviveAll(rows: seq<Persisted>, now: int)
      requires Reloading(disk, {}, State(), now, cfg.retry) && IsLoad(disk, rows)
      modifies this`nextRaw, this`byId, this`idOf, router
      ensures Reloading(disk, disk.sessions.Keys, State(), now, cfg.retry)
    {
      hide LoadsAs, Reloading;
      assert Names(rows[..0]) == {};
      for k := 0 to |rows|
        invariant Reloading(disk, Names(rows[..k]), State(), now, cfg.retry)
      {
        NamesUpTo(rows, k);
        Revive(rows[k], Names(rows[..k]), now);
      }
      assert rows[..|rows|] == rows;
    }

    /** One session row: a new id, its subscriptions, and its queue if the blob can be read. */
    method Revive(p: Persisted, ghost done: set<Text>, now: int)
      requires Reloading(disk, done, State(), now, cfg.retry) && p.client !in done
      requires p.client in disk.sessions && LoadsAs(disk, p)
      modifies this`nextRaw, this`byId, this`idOf, router
      ensures Reloading(disk, done + {p.client}, State(), now, cfg.retry)
    {
      hide Revived, LoadsAs, Reloading, R.Tidy, Registered;
      ghost var h := State();
      ReloadingTidy(disk, done, State(), now, cfg.retry);
      var id := nextRaw;
      nextRaw := nextRaw + 1;
      RegisterAll(id, p.subscriptions);
      var s := ReadSession(p, now);
      idOf := idOf[p.client := id];
      byId := byId[id := s];
      ReloadStep(disk, done, h, p, router.State(), now, cfg.retry);
    }

    method ReadSession(p: Persisted, now: int) returns (s: SessionState)
      requires p.client in disk.sessions && LoadsAs(disk, p)
      ensures s == Revived(disk, p.client, now, cfg.retry)
    {
      hide DecodeInflight, Loads;
      s := NewSession(p.client, None, p.expiry, 0);
      if p.client in disk.inflight {
        var r := DecodeInflightBlob(disk.inflight[p.client], now, cfg.retry);
        if r.Some? {
          s := s.(nextId := r.value.0, inflight := r.value.1);
        }
      }
    }

    method RegisterAll(id: ClientId, subs: seq<(Text, QoS)>)
      requires R.Tidy(router.State())
      modifies router
      ensures Registered(old(router.State()), router.State(), id, subs)
    {
      ghost var r := router.State();
      hide KeyOf, R.Subscribed, R.Granted, R.Tidy, GrantBy;
      RegisteredNone(r, id, subs);
      for k := 0 to |subs|
        invariant Registered(r, router.State(), id, subs[..k])
      {
        RegisteredMore(r, router.State(), id, subs, k);
        var _ := Register(id, subs[k].0, subs[k].1);
      }
      assert subs[..|subs|] == subs;
    }

    // ---- connecting and leaving ----

    method Open(client: Text, expiry: U32) returns (id: ClientId)
      modifies this`nextRaw, this`byId, this`idOf, this`queue
      ensures State() == Opened(old(State()), client, expiry)
      ensures client in idOf && id == idOf[client]
    {
      id := nextRaw;
      nextRaw := nextRaw + 1;
      idOf := idOf[client := id];
      byId := byId[id := NewSession(client, Some([]), expiry, generation)];
      queue := queue + [Meta(client, expiry)];
    }

    /** Drop a session on a clean start; its index entry is overwritten next. */
    method Replace(client: Text, id: ClientId)
      requires R.Tidy(router.State())
      modifies this`byId, this`queue, router
      ensures State() == Replaced(old(State()), client, id)
    {
      hide R.Tidy, R.Granted, R.ClientRemoved;
      byId := byId - {id};
      router.RemoveClient(id);
      queue := queue + [RemoveSession(client)];
    }

    /** Re-attach a session: a new channel, the new interval, and everything in flight sent again. */
    method Reattach(id: ClientId, expiry: U32, now: int)
      requires id in byId
      modifies this`byId
      ensures byId == old(byId)[id := Stepped(old(byId)[id], Resume(expiry, generation), now, cfg.retry)]
    {
      hide Stepped, Retransmitted;
      ResumeIs(byId[id], expiry, generation, now, cfg.retry);
      var session := new Session(byId[id].(tx := Some([]), expiry := expiry, generation := generation));
      session.Retransmit(now, cfg.retry);
      byId := byId[id := session.State()];
    }

    method Attach(client: Text, cleanStart: bool, expiry: U32, now: int) returns (id: ClientId, sessionPresent: bool)
      requires R.Tidy(router.State()) && (client in idOf ==> idOf[client] in byId)
      modifies this`byId, this`idOf, this`nextRaw, this`queue, router
      ensures State() == Attached(old(State()), client, cleanStart, expiry, now, cfg)
      ensures client in idOf && id == idOf[client]
      ensures sessionPresent <==> client in old(idOf) && !cleanStart
    {
      hide R.Tidy, Stepped, Opened, Replaced;
      sessionPresent := client in idOf && !cleanStart;
      if sessionPresent {
        id := idOf[client];
        Reattach(id, expiry, now);
        queue := queue + [Meta(client, expiry)];
      } else {
        if client in idOf {
          Replace(client, idOf[client]);
        }
        id := Open(client, expiry);
      }
    }

    /** Attach a connection: make a session, replace it on a clean start, or resume it. */
    method Connect(client: Text, cleanStart: bool, expiry: U32, now: int)
        returns (id: ClientId, gen: nat, sessionPresent: bool)
      requires Valid()
      modifies this, router
      ensures Valid() && State() == After(old(State()), Step.Connect(client, cleanStart, expiry), now, cfg)
      ensures client in idOf && id == idOf[client] && gen == generation
      ensures sessionPresent <==> client in old(idOf) && !cleanStart
    {
      hide R.Tidy, Sound, Attached, After;
      ConnectSound(State(), client, cleanStart, expiry, now, cfg);
      generation := generation + 1;
      gen := generation;
      id, sessionPresent := Attach(client, cleanStart, expiry, now);
    }

    /** Drop a session from both indexes, with its subscriptions and its rows. */
    method Discard(id: ClientId)
      requires R.Tidy(router.State()) && id in byId
      modifies this`byId, this`idOf, this`queue, router
      ensures State() == Discarded(old(State()), id)
    {
      hide R.Tidy, R.Granted, R.ClientRemoved, WithoutId;
      var client := byId[id].clientId;
      byId := byId - {id};
      var left := idOf.Keys;
      WithoutIdEnds(idOf, id);
      while left != {}
        modifies this`idOf
        invariant left <= old(idOf).Keys
        invariant idOf == WithoutId(old(idOf), id, left)
        decreases |left|
      {
        var c :| c in left;
        WithoutIdStep(old(idOf), id, left, c);
        left := left - {c};
        if idOf[c] == id {
          idOf := idOf - {c};
        }
      }
      router.RemoveClient(id);
      queue := queue + [RemoveSession(client)];
    }

    /** Take a session offline; `timer` is the number of seconds after which a purge of it is scheduled. */
    method Detach(id: ClientId, gen: nat, now: int) returns (timer: Option<U32>)
      requires Valid()
      modifies this, router
      ensures Valid() && State() == After(old(State()), Leave(id, gen), now, cfg)
      ensures timer == if Current(old(State()), id, gen) && old(byId)[id].expiry !in {0, NO_EXPIRY}
                       then Some(old(byId)[id].expiry) else None
    {
      StepSound(State(), Leave(id, gen), now, cfg);
      SoundTable(State());
      hide R.Tidy, R.ClientRemoved, Discarded, Sound, Inverse;
      timer := None;
      if id in byId && byId[id].generation == gen {
        var expiry := byId[id].expiry;
        if expiry == 0 {
          Discard(id);
        } else {
          byId := byId[id := byId[id].(tx := None)];
          if expiry != NO_EXPIRY {
            timer := Some(expiry);
          }
        }
      }
    }

    // ---- subscriptions ----

    /** Enter a subscription string in the router, read as a share string first and a plain filter second. */
    method Register(id: ClientId, raw: Text, qos: QoS) returns (accepted: bool)
      requires R.Tidy(router.State())
      modifies router
      ensures accepted <==> KeyOf(raw).Some?
      ensures router.State() == if accepted then R.Subscribed(old(router.State()), id, KeyOf(raw).value, qos)
                                else old(router.State())
    {
      hide R.Tidy, R.Granted, R.Subscribed;
      var shared := ParseShared(raw);
      if shared.Some? {
        router.SubscribeShared(shared.value.group, id, shared.value.filter, qos);
        return true;
      }
      var filter := ParseFilter(raw);
      if filter.Some? {
        router.Subscribe(id, filter.value, qos);
      }
      accepted := filter.Some?;
    }

    method Deregister(id: ClientId, raw: Text) returns (removed: bool)
      requires R.Tidy(router.State())
      modifies router
      ensures removed <==> R.Granted(old(router.State()), id, KeyNamed(raw)).Some?
      ensures router.State() == R.Unsubscribed(old(router.State()), id, KeyNamed(raw))
    {
      hide R.Tidy, R.Granted, R.Unsubscribed;
      var shared := ParseShared(raw);
      if shared.Some? {
        removed := router.UnsubscribeShared(shared.value.group, id, shared.value.filter);
      } else {
        removed := router.Unsubscribe(id, raw);
      }
    }

    /** Register a parsed subscription: a share group if the string names one, a plain filter otherwise. */
    method Subscribe(id: ClientId, raw: Text, qos: QoS, now: int) returns (accepted: bool)
      requires Valid() && id < nextRaw
      modifies this, router
      ensures Valid() && State() == After(old(State()), Step.Subscribe(id, raw, qos), now, cfg)
      ensures accepted <==> KeyOf(raw).Some?
    {
      hide R.Tidy, R.Subscribed, Sound, KeyOf, After;
      SubscribeSound(State(), id, raw, qos, now, cfg);
      accepted := Register(id, raw, qos);
      if accepted && id in byId && byId[id].expiry > 0 {
        queue := queue + [PutSubscription(byId[id].clientId, raw, qos)];
      }
    }

    method Unsubscribe(id: ClientId, raw: Text, now: int) returns (removed: bool)
      requires Valid()
      modifies this, router
      ensures Valid() && State() == After(old(State()), Step.Unsubscribe(id, raw), now, cfg)
      ensures removed <==> R.Granted(old(router.State()), id, KeyNamed(raw)).Some?
    {
      hide R.Tidy, R.Granted, R.Unsubscribed, Sound, KeyNamed, After;
      UnsubscribeSound(State(), id, raw, now, cfg);
      removed := Deregister(id, raw);
      if id in byId && byId[id].expiry > 0 {
        queue := queue + [RemoveSubscription(byId[id].clientId, raw)];
      }
    }

    // ---- acknowledgements and inbound QoS 2 ----

    method OnPuback(id: ClientId, pid: U16, now: int)
      requires Valid()
      modifies this
      ensures Valid() && State() == After(old(State()), Touch(id, [AckPub(pid)]), now, cfg)
    {
      hide Sound, Sweep, Snapshot, After;
      TouchSound(State(), id, AckPub(pid), now, cfg);
      if id in byId {
        var session := new Session(byId[id]);
        session.OnPuback(pid);
        byId := byId[id := session.State()];
        queue := queue + Snapshot(session.State());
      }
    }

    method OnPubrec(id: ClientId, pid: U16, now: int)
      requires Valid()
      modifies this
      ensures Valid() && State() == After(old(State()), Touch(id, [AckRec(pid)]), now, cfg)
    {
      hide Sound, Received, Snapshot, After;
      TouchSound(State(), id, AckRec(pid), now, cfg);
      if id in byId {
        var session := new Session(byId[id]);
        session.OnPubrec(pid);
        byId := byId[id := session.State()];
        queue := queue + Snapshot(session.State());
      }
    }

    method OnPubcomp(id: ClientId, pid: U16, now: int)
      requires Valid()
      modifies this
      ensures Valid() && State() == After(old(State()), Touch(id, [AckComp(pid)]), now, cfg)
    {
      hide Sound, Sweep, Snapshot, After;
      TouchSound(State(), id, AckComp(pid), now, cfg);
      if id in byId {
        var session := new Session(byId[id]);
        session.OnPubcomp(pid);
        byId := byId[id := session.State()];
        queue := queue + Snapshot(session.State());
      }
    }

    /** Note an inbound QoS 2 packet id; true the first time, and when there is no session to note it in. */
    method InboundSeen(id: ClientId, pid: U16, now: int) returns (first: bool)
      requires Valid()
      modifies this
      ensures Valid() && State() == After(old(State()), Touch(id, [SeenIn(pid)]), now, cfg)
      ensures first <==> !(id in old(byId) && pid in old(byId)[id].incoming)
    {
      hide Sound, After;
      TouchSound(State(), id, SeenIn(pid), now, cfg);
      first := true;
      if id in byId {
        first := pid !in byId[id].incoming;
        byId := byId[id := byId[id].(incoming := byId[id].incoming + {pid})];
        assert queue + [] == queue;
      }
    }

    method InboundRelease(id: ClientId, pid: U16, now: int)
      requires Valid()
      modifies this
      ensures Valid() && State() == After(old(State()), Touch(id, [ReleaseIn(pid)]), now, cfg)
    {
      hide Sound, After;
      TouchSound(State(), id, ReleaseIn(pid), now, cfg);
      if id in byId {
        byId := byId[id := byId[id].(incoming := byId[id].incoming - {pid})];
        assert queue + [] == queue;
      }
    }

    // ---- publishing ----

    /** The retained store, the journal and the router, before any session is touched. */
    method Front(ts: U64, topic: Text, payload: Bytes, qos: QoS, retain: bool, now: int)
        returns (targets: seq<R.Target>, ghost fanOut: seq<R.Target>, ghost groups: seq<Text>)
      requires Valid()
      modifies this`queue, router, shelf
      ensures R.IsRoute(old(router.State()), topic, targets, fanOut, groups)
      ensures State() == AfterAll(old(State()), FrontRun(ts, topic, payload, qos, retain, now, cfg), cfg)
    {
      hide Sound, R.Tidy, R.IsRoute, R.Advanced, EncodeEvent, Shelved, FrontRun, AfterAll, StartsWith, Labelled;
      FrontSound(State(), ts, topic, payload, qos, retain, now, cfg);
      if retain {
        shelf.Apply(Message(topic, payload, qos, true));
        queue := queue + [PutRetained(topic, payload, qos)];
      }
      if cfg.eventLogMax > 0 && !StartsWith(topic, [DOLLAR]) {
        queue := queue + [AppendEvent(EncodeEvent(ts, topic, qos, payload), cfg.eventLogMax)];
      }
      targets, fanOut, groups := router.Route(topic);
    }

    /** One delivery: the session as it is left, and the write it calls for. */
    method DeliverTo(id: ClientId, topic: Text, payload: Bytes, qos: QoS, retain: bool, now: int)
        returns (ops: seq<PersistOp>)
      requires id in byId && byId[id].nextId != 0
      modifies this`byId
      ensures var s := Stepped(old(byId)[id], Act.Deliver(topic, payload, qos, retain), now, cfg.retry);
              byId == old(byId)[id := s] && ops == if qos != AtMostOnce then Snapshot(s) else []
    {
      hide Delivered, Snapshot;
      var session := new Session(byId[id]);
      session.Deliver(topic, payload, qos, retain, now, cfg.retry);
      byId := byId[id := session.State()];
      ops := if qos != AtMostOnce then Snapshot(session.State()) else [];
    }

    /** Copy a message to its targets; the queue writes follow once the table is released. */
    method CopyTo(targets: seq<R.Target>, topic: Text, payload: Bytes, qos: QoS, now: int) returns (delivered: nat)
      requires Valid()
      modifies this`byId, this`queue
      ensures State() == AfterAll(old(State()), CopyRun(targets, topic, payload, qos, now), cfg)
      ensures delivered == LiveOf(targets, old(byId).Keys)
    {
      ghost var h := State();
      hide Sound, Snapshot, Stepped, AfterAll, After, LiveOf, CopyRun, MinQoS;
      var toPersist: seq<PersistOp> := [];
      delivered := 0;
      CopyNone(h, targets, topic, payload, qos, now, cfg);
      for k := 0 to |targets|
        modifies this`byId
        invariant byId.Keys == h.byId.Keys && delivered == LiveOf(targets[..k], h.byId.Keys)
        invariant AfterAll(h, CopyRun(targets[..k], topic, payload, qos, now), cfg)
               == h.(byId := byId, queue := h.queue + toPersist)
      {
        var (id, granted) := targets[k];
        CopyOne(h, targets, k, topic, payload, qos, now, cfg, byId, toPersist);
        if id in byId {
          var ops := DeliverTo(id, topic, payload, MinQoS(qos, granted), false, now);
          toPersist := toPersist + ops;
          delivered := delivered + 1;
        }
      }
      assert targets[..|targets|] == targets;
      queue := queue + toPersist;
    }

    /** Publish a message: keep it if asked, journal it, resolve its targets and copy it to each. */
    method Publish(ts: U64, topic: Text, payload: Bytes, qos: QoS, retain: bool, now: int)
        returns (delivered: nat, ghost targets: seq<R.Target>, ghost fanOut: seq<R.Target>, ghost groups: seq<Text>)
      requires Valid()
      modifies this, router, shelf
      ensures Valid()
      ensures R.IsRoute(old(router.State()), topic, targets, fanOut, groups)
      ensures State() == AfterAll(old(State()), PublishRun(ts, targets, topic, payload, qos, retain, now, cfg), cfg)
      ensures delivered == LiveOf(targets, old(byId).Keys)
    {
      ghost var h := State();
      hide Sound, R.IsRoute, AfterAll, FrontRun;
      var out;
      out, fanOut, groups := Front(ts, topic, payload, qos, retain, now);
      targets := out;
      PublishSound(h, ts, out, topic, payload, qos, retain, now, cfg);
      FrontKeepsSessions(h, ts, topic, payload, qos, retain, now, cfg);
      delivered := CopyTo(out, topic, payload, qos, now);
    }

    // ---- dead letters ----

    /** Record a dead letter and publish it for whoever watches; a dead letter of a dead letter is dropped. */
    method DeadLetter(client: Text, msg: DeadMsg, reason: Text, ts: U64, now: int) returns (ghost run: Run)
      requires Valid()
      modifies this, router, shelf
      ensures Valid() && State() == AfterAll(old(State()), run, cfg)
      ensures IsDeadLetter(old(State()), run, client, msg, reason, now, cfg)
    {
      ghost var h := State();
      hide Sound, AfterAll, PublishRun, IsDlqTopic, RecordOf, DlqTopic, R.IsRoute;
      run := [];
      NoRun(h, cfg);
      if !IsDlqTopic(msg.publish.topic) {
        JournalSound(h, RecordOf(ts, client, msg, reason), now, cfg);
        queue := queue + [AppendDeadLetter(RecordOf(ts, client, msg, reason))];
        var _, targets, fanOut, groups :=
          Publish(ts, DlqTopic(client, msg.publish.topic), msg.publish.payload, msg.publish.qos, false, now);
        DeadLetterIs(h, client, msg, reason, ts, now, cfg, targets, fanOut, groups);
        run := DeadLetterRun(client, msg, reason, ts, now, cfg, targets);
      }
    }

    method DeadLetterAll(dead: seq<(Text, DeadMsg)>, reason: Text, ts: U64, now: int) returns (ghost run: Run)
      requires Valid()
      modifies this, router, shelf
      ensures Valid() && State() == AfterAll(old(State()), run, cfg)
      ensures IsDeadLetters(old(State()), run, dead, reason, now, cfg)
    {
      ghost var h := State();
      run := [];
      NoRun(h, cfg);
      assert IsDeadLetters(h, run, dead[..0], reason, now, cfg);
      hide Sound, AfterAll, IsDeadLetter, IsDeadLetters;
      for k := 0 to |dead|
        invariant Valid() && State() == AfterAll(h, run, cfg)
        invariant IsDeadLetters(h, run, dead[..k], reason, now, cfg)
      {
        ghost var last := DeadLetter(dead[k].0, dead[k].1, reason, ts, now);
        DeadLettersMore(h, run, last, dead, k, reason, now, cfg);
        AfterMore(h, run, last, cfg);
        run := run + last;
      }
      assert dead[..|dead|] == dead;
    }

    /** Purge a session that is still offline under this generation; what it never delivered is dead-lettered. */
    method PurgeIfIdle(id: ClientId, gen: nat, ts: U64, now: int)
        returns (ghost dead: seq<(Text, DeadMsg)>, ghost run: Run)
      requires Valid()
      modifies this, router, shelf
      ensures Valid()
      ensures Expired(old(State()), id, gen) ==>
        && dead == Tagged(old(byId)[id].clientId, Buried(Drain, old(byId)[id].inflight))
        && IsDeadLetters(After(old(State()), Purge(id, gen), now, cfg), run, dead, SESSION_EXPIRED, now, cfg)
        && State() == AfterAll(After(old(State()), Purge(id, gen), now, cfg), run, cfg)
      ensures !Expired(old(State()), id, gen) ==> State() == old(State())
    {
      hide Sound, AfterAll, IsDeadLetters, Buried, Sweep, Discarded, R.Tidy, After, SESSION_EXPIRED;
      dead, run := [], [];
      if id in byId && byId[id].generation == gen && byId[id].tx.None? {
        PurgeSound(State(), id, gen, now, cfg);
        var session := new Session(byId[id]);
        var buried := session.DrainUndelivered();
        var tagged := Tagged(byId[id].clientId, buried);
        Discard(id);
        dead := tagged;
        run := DeadLetterAll(tagged, SESSION_EXPIRED, ts, now);
      }
    }

    // ---- the retry timer ----

    /** The timer's turn at one online session. */
    method TickOne(id: ClientId, now: int) returns (dead: seq<DeadMsg>, ops: seq<PersistOp>)
      requires id in byId && byId[id].tx.Some?
      modifies this`byId
      ensures var s := Stepped(old(byId)[id], Tick, now, cfg.retry);
              && byId == old(byId)[id := s]
              && ops == WritesOf(old(byId)[id], Tick, now, cfg.retry)
              && dead == Buried(Retry(now, cfg.retry), old(byId)[id].inflight)
    {
      hide Ticked, Snapshot, Buried, AnyDue;
      var session := new Session(byId[id]);
      var changed;
      dead, changed := session.TickRetries(now, cfg.retry);
      byId := byId[id := session.State()];
      ops := if changed then Snapshot(session.State()) else [];
    }

    /** Every online session's turn; the queue writes follow once the table is released. */
    method TickAll(now: int) returns (dead: seq<(Text, DeadMsg)>, ghost order: seq<ClientId>)
      requires Valid()
      modifies this`byId, this`queue
      ensures State() == AfterAll(old(State()), TickRun(order, now), cfg)
      ensures IsOrder(order, old(byId).Keys) && dead == BuriedIn(old(byId), order, now, cfg.retry)
    {
      ghost var h := State();
      hide Sound, Stepped, AfterAll, After, TickRun, BuriedIn, BuriedAt, Buried, WritesOf, Ticking;
      dead, order := [], [];
      var toPersist: seq<PersistOp> := [];
      var left := byId.Keys;
      TickNone(h, now, cfg);
      while left != {}
        modifies this`byId
        invariant left <= h.byId.Keys
        invariant Ticking(h, left, order, byId, toPersist, dead, now, cfg)
        decreases |left|
      {
        var id :| id in left;
        TickStep(h, left, order, byId, toPersist, dead, now, cfg, id);
        left := left - {id};
        order := order + [id];
        if byId[id].tx.Some? {
          ghost var s := byId[id];
          var msgs, ops := TickOne(id, now);
          toPersist := toPersist + ops;
          dead := dead + Tagged(byId[id].clientId, msgs);
        }
      }
      TickEnd(h, order, byId, toPersist, dead, now, cfg);
      queue := queue + toPersist;
    }

    /** The redelivery timer: resend what is due, persist what changed, dead-letter what ran out of attempts. */
    method RunRetries(ts: U64, now: int)
        returns (ghost order: seq<ClientId>, ghost dead: seq<(Text, DeadMsg)>, ghost run: Run)
      requires Valid()
      modifies this, router, shelf
      ensures Valid() && IsOrder(order, old(byId).Keys)
      ensures dead == BuriedIn(old(byId), order, now, cfg.retry)
      ensures var ticked := AfterAll(old(State()), TickRun(order, now), cfg);
              IsDeadLetters(ticked, run, dead, EXHAUSTED, now, cfg) && State() == AfterAll(ticked, run, cfg)
    {
      hide Sound, AfterAll, TickRun, BuriedIn, IsDeadLetters, EXHAUSTED;
      ghost var h := State();
      var buried;
      buried, order := TickAll(now);
      dead := buried;
      TickRunSound(h, order, now, cfg);
      run := DeadLetterAll(buried, EXHAUSTED, ts, now);
    }

    // ---- retained messages and replay ----

    /** Send a new subscriber the retained messages that match, in topic order, at the lower of the two QoS. */
    method DeliverRetained(id: ClientId, filter: Text, granted: QoS, now: int) returns (ghost ms: seq<Message>)
      requires Valid()
      modifies this
      ensures Valid() && ByTopic(ms)
      ensures forall m :: m in ms <==> At(shelf.byTopic, m.topic) == Some(m) && Matches(filter, m.topic)
      ensures State() == After(old(State()), Touch(id, RetainedActs(ms, granted)), now, cfg)
    {
      hide Sound, After, Stepped, SteppedAll, SavesAny, Snapshot, Delivered, Precedes, Matches, Labelled, MinQoS;
      SoundShelf(State());
      var retained := shelf.Matching(filter);
      ms := retained;
      RetainedSound(State(), id, retained, granted, now, cfg);
      if id in byId && retained != [] {
        var s := byId[id];
        var session := new Session(s);
        var anyQos := false;
        for k := 0 to |retained|
          modifies session
          invariant session.State() == SteppedAll(s, RetainedActs(retained[..k], granted), now, cfg.retry)
          invariant anyQos == SavesAny(s, RetainedActs(retained[..k], granted), now, cfg.retry)
          invariant session.nextId != 0
        {
          var m := retained[k];
          RetainedMore(s, retained, k, granted, now, cfg.retry);
          anyQos := anyQos || MinQoS(m.qos, granted) != AtMostOnce;
          session.Deliver(m.topic, m.payload, MinQoS(m.qos, granted), true, now, cfg.retry);
        }
        assert retained[..|retained|] == retained;
        byId := byId[id := session.State()];
        queue := queue + if anyQos then Snapshot(session.State()) else [];
      }
    }

    /** Replay the written events from an offset on to a session, as tagged QoS 0 messages. */
    method ReplayTo(id: ClientId, from: U64, filter: Text, now: int) returns (count: nat, ghost rows: seq<(U64, Bytes)>)
      requires Valid()
      modifies this
      ensures Valid() && EventLog.IsRange(disk.events, from, rows)
      ensures State() == After(old(State()), Touch(id, Pushes(Replay.FromRows(rows, filter))), now, cfg)
      ensures count == if id in old(byId) then |Replay.FromRows(rows, filter)| else 0
    {
      hide Sound, After, SteppedAll, SavesAny, Snapshot, EventLog.IsRange, Replay.FromRow, Matches, DecodeEvent;
      var events := EventLog.LoadEvents(disk.events, from);
      rows := events;
      ReplaySound(State(), id, Replay.FromRows(events, filter), now, cfg);
      count := 0;
      if id in byId {
        var s := byId[id];
        var session := new Session(s);
        SendNone(s);
        for k := 0 to |events|
          modifies session
          invariant session.State() == SendAll(s, Packets(Replay.FromRows(events[..k], filter)))
          invariant count == |Replay.FromRows(events[..k], filter)|
        {
          var found := ReadRow(events[k], filter);
          RowsMore(events, k, filter);
          if found.Some? {
            OntoMore(s.tx, Packets(Replay.FromRows(events[..k], filter)), [PublishPacket(found.value)]);
            session.Send(PublishPacket(found.value));
            count := count + 1;
          }
        }
        assert events[..|events|] == events;
        byId := byId[id := session.State()];
      }
    }

    /** One logged row: skipped when it cannot be read or does not match. */
    method ReadRow(row: (U64, Bytes), filter: Text) returns (found: Option<Publish>)
      ensures Replay.FromRow(row, filter) == if found.Some? then [found.value] else []
    {
      hide Matches, DecodeEvent;
      var event := DecodeEvent(row.1);
      if event.None? {
        return None;
      }
      var (topic, payload, _) := event.value;
      var hit := TopicMatches(filter, topic);
      found := if hit then Some(Replay.Numbered(row.0, topic, payload)) else None;
    }
  }

  /** The deliveries of a list of retained messages, flagged as retained. */
  function RetainedActs(ms: seq<Message>, granted: QoS): (acts: seq<Act>)
    ensures |acts| == |ms|
    ensures forall k :: 0 <= k < |acts| ==>
      acts[k] == Act.Deliver(ms[k].topic, ms[k].payload, MinQoS(ms[k].qos, granted), true)
  {
    seq(|ms|, k requires 0 <= k < |ms| => Act.Deliver(ms[k].topic, ms[k].payload, MinQoS(ms[k].qos, granted), true))
  }

  lemma SoundAgain(h: HubState)
    requires TableOk(h) && Labelled(h.retained)
    ensures Counting(h) ==> Sound(h)
  {
  }

  lemma ReloadingTidy(d: Disk, done: set<Text>, h: HubState, now: int, cfg: RetryConfig)
    requires Reloading(d, done, h, now, cfg)
    ensures R.Tidy(h.router)
  {
  }

  lemma RestartCounts(h: HubState, cfg: RetryConfig, now: int)
    requires Accounts.AllAccounted(h, cfg, now)
    ensures Counting(h)
  {
    hide Accounts.Accounted;
    forall id | id in h.byId ensures h.byId[id].nextId != 0 {
      Accounts.QueueIsStorable(h.byId[id], cfg, now);
    }
  }

  /**
   * Start again from the drained disk of a healthy broker `h`: the new hub is valid, so every call can be
   * made on it, and it is healthy again.
   */
  method Reopen(d: Disk, cfg: Config, now: int, ghost h: HubState, ghost sh: A.Shadow, ghost before: int)
      returns (hub: Hub)
    requires A.Healthy(h, sh) && Accounts.AllAccounted(h, cfg.retry, before) && AllReadable(h, sh) && before <= now
    requires d == A.Settled(h)
    ensures fresh(hub) && hub.cfg == cfg && hub.Valid() && IsReload(d, now, cfg.retry, hub.State())
    ensures A.Healthy(hub.State(), MemoReloaded(hub.State()))
    ensures Accounts.AllAccounted(hub.State(), cfg.retry, now)
  {
    hide A.Healthy, Accounts.AllAccounted, AllReadable, A.Settled, IsReload, Counting, MemoReloaded, Sound;
    hub := new Hub.FromDisk(d, cfg, now);
    RestartKeepsHealth(h, sh, hub.State(), before, now, cfg);
    RestartCounts(hub.State(), cfg.retry, now);
  }

  lemma SoundShelf(h: HubState)
    requires Sound(h)
    ensures Labelled(h.retained)
  {
  }

  lemma {:induction false} SavesMore(s: SessionState, acts: seq<Act>, act: Act, now: int, cfg: RetryConfig)
    ensures SavesAny(s, acts + [act], now, cfg)
       <==> SavesAny(s, acts, now, cfg) || Saves(SteppedAll(s, acts, now, cfg), act, now)
    decreases |acts|
  {
    hide Stepped, Saves;
    if acts == [] {
      assert acts + [act] == [act] && [act][1..] == [];
    } else {
      assert (acts + [act])[1..] == acts[1..] + [act];
      SavesMore(Stepped(s, acts[0], now, cfg), acts[1..], act, now, cfg);
    }
  }

  lemma RetainedMore(s: SessionState, ms: seq<Message>, k: nat, granted: QoS, now: int, cfg: RetryConfig)
    requires k < |ms| && s.nextId != 0
    ensures var m, before := ms[k], SteppedAll(s, RetainedActs(ms[..k], granted), now, cfg);
            var qos := MinQoS(m.qos, granted);
            && SteppedAll(s, RetainedActs(ms[..k + 1], granted), now, cfg)
            == Delivered(before, m.topic, m.payload, qos, true, now, cfg)
            && SavesAny(s, RetainedActs(ms[..k + 1], granted), now, cfg)
            == (SavesAny(s, RetainedActs(ms[..k], granted), now, cfg) || qos != AtMostOnce)
            && SteppedAll(s, RetainedActs(ms[..k + 1], granted), now, cfg).nextId != 0
  {
    hide SteppedAll, SavesAny, Delivered, MinQoS;
    var acts := RetainedActs(ms[..k], granted);
    var act := Act.Deliver(ms[k].topic, ms[k].payload, MinQoS(ms[k].qos, granted), true);
    assert RetainedActs(ms[..k + 1], granted) == acts + [act];
    SteppedMore(s, acts, act, now, cfg);
    SavesMore(s, acts, act, now, cfg);
    ActsCount(s, acts + [act], now, cfg);
  }

  lemma RetainedSound(h: HubState, id: ClientId, ms: seq<Message>, granted: QoS, now: int, cfg: Config)
    requires Sound(h)
    ensures id in h.byId ==> h.byId[id].nextId != 0
    ensures id in h.byId ==> SteppedAll(h.byId[id], RetainedActs(ms[..0], granted), now, cfg.retry) == h.byId[id]
                             && !SavesAny(h.byId[id], RetainedActs(ms[..0], granted), now, cfg.retry)
    ensures var acts := RetainedActs(ms, granted);
            var h' := After(h, Touch(id, acts), now, cfg);
            && Sound(h')
            && (if id !in h.byId || ms == [] then h' == h
                else
                  var s := SteppedAll(h.byId[id], acts, now, cfg.retry);
                  h' == h.(byId := h.byId[id := s],
                           queue := h.queue + if SavesAny(h.byId[id], acts, now, cfg.retry) then Snapshot(s) else []))
  {
    hide Stepped, Snapshot, MinQoS, Saves;
    var acts := RetainedActs(ms, granted);
    assert forall i :: 0 <= i < |acts| ==> Ordinary(acts[i]);
    StepSound(h, Touch(id, acts), now, cfg);
    if id in h.byId && ms == [] {
      assert h.byId[id := h.byId[id]] == h.byId && h.queue + [] == h.queue;
    }
  }

  function Packets(ps: seq<Publish>): (out: seq<Packet>)
    ensures |out| == |ps|
    ensures forall k :: 0 <= k < |out| ==> out[k] == PublishPacket(ps[k])
  {
    seq(|ps|, k requires 0 <= k < |ps| => PublishPacket(ps[k]))
  }

  function Pushes(ps: seq<Publish>): (acts: seq<Act>)
    ensures |acts| == |ps|
    ensures forall k :: 0 <= k < |acts| ==> acts[k] == Push(ps[k])
  {
    seq(|ps|, k requires 0 <= k < |ps| => Push(ps[k]))
  }

  lemma {:induction false} PushesSend(s: SessionState, ps: seq<Publish>, now: int, cfg: RetryConfig)
    ensures SteppedAll(s, Pushes(ps), now, cfg) == SendAll(s, Packets(ps)) && !SavesAny(s, Pushes(ps), now, cfg)
    decreases |ps|
  {
    if ps == [] {
      SendNone(s);
    } else {
      var next := SendAll(s, [PublishPacket(ps[0])]);
      assert Pushes(ps)[1..] == Pushes(ps[1..]);
      PushesSend(next, ps[1..], now, cfg);
      OntoMore(s.tx, [PublishPacket(ps[0])], Packets(ps[1..]));
      assert [PublishPacket(ps[0])] + Packets(ps[1..]) == Packets(ps);
    }
  }

  lemma RowsMore(rows: seq<(U64, Bytes)>, k: nat, filter: Text)
    requires k < |rows|
    ensures var before, found := Replay.FromRows(rows[..k], filter), Replay.FromRow(rows[k], filter);
            && Replay.FromRows(rows[..k + 1], filter) == before + found
            && Packets(before + found) == Packets(before) + Packets(found)
            && (found == [] ==> before + found == before)
            && (|found| == 1 ==> Packets(found) == [PublishPacket(found[0])])
  {
    hide Replay.FromRow;
    assert rows[..k + 1][..k] == rows[..k];
  }

  lemma ReplaySound(h: HubState, id: ClientId, ps: seq<Publish>, now: int, cfg: Config)
    requires Sound(h)
    ensures var h' := After(h, Touch(id, Pushes(ps)), now, cfg);
            && Sound(h')
            && h' == if id !in h.byId then h else h.(byId := h.byId[id := SendAll(h.byId[id], Packets(ps))])
    ensures Packets([]) == [] && id in h.byId ==> SendAll(h.byId[id], []) == h.byId[id]
  {
    assert forall i :: 0 <= i < |Pushes(ps)| ==> Ordinary(Pushes(ps)[i]);
    StepSound(h, Touch(id, Pushes(ps)), now, cfg);
    hide Sound, SteppedAll, SavesAny, Snapshot;
    if id in h.byId {
      PushesSend(h.byId[id], ps, now, cfg.retry);
      SendNone(h.byId[id]);
      assert h.queue + [] == h.queue;
    }
  }

  /** An order in which a table is walked: each id once. */
  ghost predicate IsOrder(order: seq<ClientId>, ids: set<ClientId>) {
    && (forall id :: id in order <==> id in ids)
    && (forall i, j :: 0 <= i < j < |order| ==> order[i] != order[j])
  }

  /** Half-way through the timer's walk: the sessions in `todo` have not had their turn. */
  ghost predicate Ticking(h: HubState, todo: set<ClientId>, order: seq<ClientId>, byId: map<ClientId, SessionState>,
                          writes: seq<PersistOp>, dead: seq<(Text, DeadMsg)>, now: int, cfg: Config) {
    && IsOrder(order, h.byId.Keys - todo) && byId.Keys == h.byId.Keys
    && (forall id :: id in todo && id in h.byId ==> byId[id] == h.byId[id])
    && dead == BuriedIn(h.byId, order, now, cfg.retry)
    && AfterAll(h, TickRun(order, now), cfg) == h.(byId := byId, queue := h.queue + writes)
  }

  lemma TickNone(h: HubState, now: int, cfg: Config)
    ensures Ticking(h, h.byId.Keys, [], h.byId, [], [], now, cfg)
  {
    assert h.queue + [] == h.queue;
  }

  lemma TickEnd(h: HubState, order: seq<ClientId>, byId: map<ClientId, SessionState>, writes: seq<PersistOp>,
                dead: seq<(Text, DeadMsg)>, now: int, cfg: Config)
    requires Ticking(h, {}, order, byId, writes, dead, now, cfg)
    ensures IsOrder(order, h.byId.Keys) && dead == BuriedIn(h.byId, order, now, cfg.retry)
    ensures AfterAll(h, TickRun(order, now), cfg) == h.(byId := byId, queue := h.queue + writes)
  {
    hide BuriedIn, AfterAll, TickRun;
  }

  lemma TickRunMore(order: seq<ClientId>, id: ClientId, now: int)
    ensures TickRun(order + [id], now) == TickRun(order, now) + [(Touch(id, [Tick]), now)]
  {
    assert (order + [id])[..|order|] == order;
  }

  lemma BuriedMore(byId: map<ClientId, SessionState>, order: seq<ClientId>, id: ClientId, now: int, cfg: RetryConfig)
    requires id in byId && forall i :: i in order ==> i in byId
    ensures forall i :: i in order + [id] ==> i in byId
    ensures BuriedIn(byId, order + [id], now, cfg) == BuriedIn(byId, order, now, cfg) + BuriedAt(byId[id], now, cfg)
  {
    hide BuriedAt;
    assert (order + [id])[..|order|] == order;
  }

  /** A touch at the end of a run whose table and writes are known. */
  lemma {:induction false} ActMore(h: HubState, run: Run, id: ClientId, act: Act, now: int, cfg: Config,
                                   byId: map<ClientId, SessionState>, writes: seq<PersistOp>)
    requires AfterAll(h, run, cfg) == h.(byId := byId, queue := h.queue + writes) && id in byId
    ensures var s := Stepped(byId[id], act, now, cfg.retry);
            AfterAll(h, run + [(Touch(id, [act]), now)], cfg)
            == h.(byId := byId[id := s], queue := h.queue + (writes + WritesOf(byId[id], act, now, cfg.retry)))
  {
    hide AfterAll, Stepped, WritesOf, After;
    AfterLast(h, run, Touch(id, [act]), now, cfg);
    TouchAt(h, byId, writes, id, act, now, cfg);
  }

  lemma OrderMore(order: seq<ClientId>, ids: set<ClientId>, todo: set<ClientId>, id: ClientId)
    requires IsOrder(order, ids - todo) && id in todo && id in ids
    ensures IsOrder(order + [id], ids - (todo - {id}))
  {
  }

  lemma OfflineTick(s: SessionState, now: int, cfg: RetryConfig)
    requires s.tx.None?
    ensures Stepped(s, Tick, now, cfg) == s && WritesOf(s, Tick, now, cfg) == [] && BuriedAt(s, now, cfg) == []
  {
  }

  lemma OnlineTick(s: SessionState, now: int, cfg: RetryConfig)
    requires s.tx.Some?
    ensures BuriedAt(s, now, cfg) == Tagged(s.clientId, Buried(Retry(now, cfg), s.inflight))
    ensures Stepped(s, Tick, now, cfg).clientId == s.clientId
  {
    OneActKeepsIdentity(s, Tick, now, cfg);
  }

  lemma TickStep(h: HubState, todo: set<ClientId>, order: seq<ClientId>, byId: map<ClientId, SessionState>,
                 writes: seq<PersistOp>, dead: seq<(Text, DeadMsg)>, now: int, cfg: Config, id: ClientId)
    requires Ticking(h, todo, order, byId, writes, dead, now, cfg) && id in todo && id in h.byId
    ensures id in byId && byId[id] == h.byId[id]
    ensures byId[id].tx.None? ==> Ticking(h, todo - {id}, order + [id], byId, writes, dead, now, cfg)
    ensures byId[id].tx.Some? ==>
      var s := Stepped(byId[id], Tick, now, cfg.retry);
      && s.clientId == byId[id].clientId
      && Ticking(h, todo - {id}, order + [id], byId[id := s],
                 writes + WritesOf(byId[id], Tick, now, cfg.retry),
                 dead + Tagged(s.clientId, Buried(Retry(now, cfg.retry), byId[id].inflight)), now, cfg)
  {
    hide AfterAll, TickRun, BuriedIn, BuriedAt, Stepped, WritesOf, Buried, IsOrder;
    assert forall i :: i in order ==> i in h.byId by {
      OrderIn(order, h.byId.Keys, todo);
    }
    OrderMore(order, h.byId.Keys, todo, id);
    TickRunMore(order, id, now);
    BuriedMore(h.byId, order, id, now, cfg.retry);
    ActMore(h, TickRun(order, now), id, Tick, now, cfg, byId, writes);
    if byId[id].tx.None? {
      OfflineTick(byId[id], now, cfg.retry);
      assert byId[id := byId[id]] == byId && writes + [] == writes && dead + [] == dead;
    } else {
      OnlineTick(byId[id], now, cfg.retry);
    }
  }

  lemma OrderIn(order: seq<ClientId>, ids: set<ClientId>, todo: set<ClientId>)
    requires IsOrder(order, ids - todo)
    ensures forall i :: i in order ==> i in ids
  {
  }

  lemma {:induction false} TicksAreSafe(order: seq<ClientId>, now: int)
    ensures SafeRun(TickRun(order, now))
  {
    if order != [] {
      TicksAreSafe(order[..|order| - 1], now);
    }
  }

  lemma TickRunSound(h: HubState, order: seq<ClientId>, now: int, cfg: Config)
    requires Sound(h)
    ensures Sound(AfterAll(h, TickRun(order, now), cfg))
  {
    hide Sound, AfterAll, TickRun;
    TicksAreSafe(order, now);
    SafeIsLegal(h, TickRun(order, now), cfg);
    RunSound(h, TickRun(order, now), cfg);
  }

  lemma NoRun(h: HubState, cfg: Config)
    ensures AfterAll(h, [], cfg) == h
  {
  }

  lemma JournalSound(h: HubState, blob: Bytes, now: int, cfg: Config)
    requires Sound(h)
    ensures Sound(h.(queue := h.queue + [AppendDeadLetter(blob)]))
  {
    hide Sound;
    StepSound(h, Journal(AppendDeadLetter(blob)), now, cfg);
  }

  lemma PurgeSound(h: HubState, id: ClientId, generation: nat, now: int, cfg: Config)
    requires Sound(h) && Expired(h, id, generation)
    ensures R.Tidy(h.router)
    ensures After(h, Purge(id, generation), now, cfg) == Discarded(h, id) && Sound(Discarded(h, id))
  {
    hide Sound, Discarded;
    SoundTable(h);
    StepSound(h, Purge(id, generation), now, cfg);
  }

  ghost function DeadLetterRun(client: Text, msg: DeadMsg, reason: Text, ts: U64, now: int, cfg: Config,
                               targets: seq<R.Target>): Run {
    [(Journal(AppendDeadLetter(RecordOf(ts, client, msg, reason))), now)]
    + PublishRun(ts, targets, DlqTopic(client, msg.publish.topic), msg.publish.payload, msg.publish.qos, false, now,
                 cfg)
  }

  lemma DeadLetterIs(h: HubState, client: Text, msg: DeadMsg, reason: Text, ts: U64, now: int, cfg: Config,
                     targets: seq<R.Target>, fanOut: seq<R.Target>, groups: seq<Text>)
    requires !IsDlqTopic(msg.publish.topic)
    requires R.IsRoute(h.router, DlqTopic(client, msg.publish.topic), targets, fanOut, groups)
    ensures var run := DeadLetterRun(client, msg, reason, ts, now, cfg, targets);
            && IsDeadLetter(h, run, client, msg, reason, now, cfg)
            && AfterAll(h, run, cfg)
            == AfterAll(h.(queue := h.queue + [AppendDeadLetter(RecordOf(ts, client, msg, reason))]),
                        PublishRun(ts, targets, DlqTopic(client, msg.publish.topic), msg.publish.payload,
                                   msg.publish.qos, false, now, cfg), cfg)
  {
    var topic, p := DlqTopic(client, msg.publish.topic), msg.publish;
    var first := Journal(AppendDeadLetter(RecordOf(ts, client, msg, reason)));
    AfterOne(h, first, now, cfg);
    hide R.IsRoute, PublishRun, AfterAll, DlqTopic, RecordOf, IsDlqTopic;
    var rest := PublishRun(ts, targets, topic, p.payload, p.qos, false, now, cfg);
    AfterMore(h, [(first, now)], rest, cfg);
    assert IsTargets(h, topic, targets);
    assert IsPublish(h, rest, topic, p.payload, p.qos, false, now, cfg);
  }

  /** How many of the targets name a session in the table. */
  function LiveOf(targets: seq<R.Target>, live: set<ClientId>): nat {
    if targets == [] then 0
    else LiveOf(targets[..|targets| - 1], live) + if targets[|targets| - 1].0 in live then 1 else 0
  }

  lemma FrontIs(h: HubState, ts: U64, topic: Text, payload: Bytes, qos: QoS, retain: bool, now: int, cfg: Config)
    ensures var h1 := if retain then Stored(h, topic, payload, qos) else h;
            var h2 := if cfg.eventLogMax > 0 && !StartsWith(topic, [DOLLAR])
                      then Enqueued(h1, [AppendEvent(EncodeEvent(ts, topic, qos, payload), cfg.eventLogMax)]) else h1;
            AfterAll(h, FrontRun(ts, topic, payload, qos, retain, now, cfg), cfg)
            == h2.(router := R.Advanced(h2.router, topic))
  {
    hide R.Advanced, EncodeEvent, Shelved, StartsWith;
    var r1: Run := if retain then [(Retain(topic, payload, qos), now)] else [];
    var r2: Run := if cfg.eventLogMax > 0 && !StartsWith(topic, [DOLLAR])
                   then [(Journal(AppendEvent(EncodeEvent(ts, topic, qos, payload), cfg.eventLogMax)), now)] else [];
    AfterMore(h, r1 + r2, [(Route(topic), now)], cfg);
    AfterMore(h, r1, r2, cfg);
    AfterOne(h, Retain(topic, payload, qos), now, cfg);
    var h1 := AfterAll(h, r1, cfg);
    AfterOne(h1, Journal(AppendEvent(EncodeEvent(ts, topic, qos, payload), cfg.eventLogMax)), now, cfg);
    AfterOne(AfterAll(h1, r2, cfg), Route(topic), now, cfg);
  }

  lemma FrontSound(h: HubState, ts: U64, topic: Text, payload: Bytes, qos: QoS, retain: bool, now: int, cfg: Config)
    requires Sound(h)
    ensures R.Tidy(h.router) && Labelled(h.retained)
    ensures var kept := if retain then h.queue + [PutRetained(topic, payload, qos)] else h.queue;
            AfterAll(h, FrontRun(ts, topic, payload, qos, retain, now, cfg), cfg)
            == h.(retained := if retain then Shelved(h.retained, Message(topic, payload, qos, true)) else h.retained,
                  queue := if cfg.eventLogMax > 0 && !StartsWith(topic, [DOLLAR])
                           then kept + [AppendEvent(EncodeEvent(ts, topic, qos, payload), cfg.eventLogMax)] else kept,
                  router := R.Advanced(h.router, topic))
  {
    hide R.Tidy, R.Advanced, EncodeEvent, Shelved, FrontRun, AfterAll, StartsWith, TableOk, Labelled;
    FrontIs(h, ts, topic, payload, qos, retain, now, cfg);
    SoundTable(h);
  }

  lemma FrontKeepsSessions(h: HubState, ts: U64, topic: Text, payload: Bytes, qos: QoS, retain: bool, now: int,
                           cfg: Config)
    requires Sound(h)
    ensures AfterAll(h, FrontRun(ts, topic, payload, qos, retain, now, cfg), cfg).byId == h.byId
    ensures Sound(AfterAll(h, FrontRun(ts, topic, payload, qos, retain, now, cfg), cfg))
  {
    FrontIs(h, ts, topic, payload, qos, retain, now, cfg);
    PublishIsSafe(ts, [], topic, payload, qos, retain, now, cfg);
    var run := FrontRun(ts, topic, payload, qos, retain, now, cfg);
    assert run + [] == run;
    SafeIsLegal(h, run, cfg);
    hide FrontRun, Sound;
    RunSound(h, run, cfg);
  }

  lemma PublishSound(h: HubState, ts: U64, targets: seq<R.Target>, topic: Text, payload: Bytes, qos: QoS, retain: bool,
                     now: int, cfg: Config)
    requires Sound(h)
    ensures var run := PublishRun(ts, targets, topic, payload, qos, retain, now, cfg);
            && Sound(AfterAll(h, run, cfg))
            && AfterAll(h, run, cfg)
            == AfterAll(AfterAll(h, FrontRun(ts, topic, payload, qos, retain, now, cfg), cfg),
                        CopyRun(targets, topic, payload, qos, now), cfg)
  {
    hide Sound, FrontRun, AfterAll;
    var run := PublishRun(ts, targets, topic, payload, qos, retain, now, cfg);
    PublishIsSafe(ts, targets, topic, payload, qos, retain, now, cfg);
    SafeIsLegal(h, run, cfg);
    RunSound(h, run, cfg);
    AfterMore(h, FrontRun(ts, topic, payload, qos, retain, now, cfg), CopyRun(targets, topic, payload, qos, now), cfg);
  }

  lemma CopyNone(h: HubState, targets: seq<R.Target>, topic: Text, payload: Bytes, qos: QoS, now: int, cfg: Config)
    ensures AfterAll(h, CopyRun(targets[..0], topic, payload, qos, now), cfg)
         == h.(byId := h.byId, queue := h.queue + [])
    ensures LiveOf(targets[..0], h.byId.Keys) == 0
  {
    assert h.queue + [] == h.queue;
  }

  /** One more copy, to a table and a list of writes that have come this far. */
  lemma CopyOne(h: HubState, targets: seq<R.Target>, k: nat, topic: Text, payload: Bytes, qos: QoS, now: int,
                cfg: Config, byId: map<ClientId, SessionState>, writes: seq<PersistOp>)
    requires Sound(h) && k < |targets|
    requires byId.Keys == h.byId.Keys
    requires AfterAll(h, CopyRun(targets[..k], topic, payload, qos, now), cfg)
          == h.(byId := byId, queue := h.queue + writes)
    ensures var after := AfterAll(h, CopyRun(targets[..k + 1], topic, payload, qos, now), cfg);
            var (id, effective) := (targets[k].0, MinQoS(qos, targets[k].1));
            if id in byId then
              var s := Stepped(byId[id], Act.Deliver(topic, payload, effective, false), now, cfg.retry);
              && byId[id].nextId != 0
              && after == h.(byId := byId[id := s],
                             queue := h.queue + (writes + if effective != AtMostOnce then Snapshot(s) else []))
            else after == h.(byId := byId, queue := h.queue + writes)
    ensures LiveOf(targets[..k + 1], h.byId.Keys)
         == LiveOf(targets[..k], h.byId.Keys) + if targets[k].0 in h.byId then 1 else 0
  {
    hide Stepped, Snapshot, AfterAll, After, CopyRun, MinQoS, Sound, WritesOf;
    var (id, effective) := (targets[k].0, MinQoS(qos, targets[k].1));
    var act := Act.Deliver(topic, payload, effective, false);
    CopyRunStep(h, targets, k, topic, payload, qos, now, cfg);
    LiveStep(targets, h.byId.Keys, k);
    if id in byId {
      CopyCounts(h, CopyRun(targets[..k], topic, payload, qos, now), cfg, id);
      TouchAt(h, byId, writes, id, act, now, cfg);
      DeliverSaves(byId[id], act, now, cfg.retry);
    } else {
      TouchIs(h.(byId := byId, queue := h.queue + writes), id, act, now, cfg);
    }
  }

  lemma CopyCounts(h: HubState, run: Run, cfg: Config, id: ClientId)
    requires Sound(h) && id in AfterAll(h, run, cfg).byId
    ensures AfterAll(h, run, cfg).byId[id].nextId != 0
  {
    RunCounts(h, run, cfg);
  }

  lemma DeliverSaves(s: SessionState, act: Act, now: int, cfg: RetryConfig)
    requires act.Deliver?
    ensures WritesOf(s, act, now, cfg) == if act.qos != AtMostOnce then Snapshot(Stepped(s, act, now, cfg)) else []
  {
    hide Stepped, Snapshot;
  }

  /** The write that follows an act, if it is one that is followed by a write. */
  function WritesOf(s: SessionState, act: Act, now: int, cfg: RetryConfig): seq<PersistOp> {
    if Saves(s, act, now) then Snapshot(Stepped(s, act, now, cfg)) else []
  }

  /** A touch in a broker whose table and queue have come this far. */
  lemma TouchAt(h: HubState, byId: map<ClientId, SessionState>, writes: seq<PersistOp>, id: ClientId, act: Act,
                now: int, cfg: Config)
    requires id in byId
    ensures var s := Stepped(byId[id], act, now, cfg.retry);
            After(h.(byId := byId, queue := h.queue + writes), Touch(id, [act]), now, cfg)
            == h.(byId := byId[id := s], queue := h.queue + (writes + WritesOf(byId[id], act, now, cfg.retry)))
  {
    hide Stepped, Snapshot, After, Saves;
    TouchOne(h.(byId := byId, queue := h.queue + writes), id, act, now, cfg);
    var ops := WritesOf(byId[id], act, now, cfg.retry);
    assert (h.queue + writes) + ops == h.queue + (writes + ops);
  }

  lemma LiveStep(targets: seq<R.Target>, live: set<ClientId>, k: nat)
    requires k < |targets|
    ensures LiveOf(targets[..k + 1], live) == LiveOf(targets[..k], live) + if targets[k].0 in live then 1 else 0
  {
    assert targets[..k + 1][..k] == targets[..k];
  }

  lemma CopyRunStep(h: HubState, targets: seq<R.Target>, k: nat, topic: Text, payload: Bytes, qos: QoS, now: int,
                    cfg: Config)
    requires k < |targets|
    ensures var act := Act.Deliver(topic, payload, MinQoS(qos, targets[k].1), false);
            AfterAll(h, CopyRun(targets[..k + 1], topic, payload, qos, now), cfg)
            == After(AfterAll(h, CopyRun(targets[..k], topic, payload, qos, now), cfg), Touch(targets[k].0, [act]),
                     now, cfg)
  {
    hide After;
    var run := CopyRun(targets[..k + 1], topic, payload, qos, now);
    assert targets[..k + 1][..k] == targets[..k];
    assert run[..k] == CopyRun(targets[..k], topic, payload, qos, now);
  }

  /** The index without the entries for an id, those in `todo` not yet looked at. */
  function WithoutId(idOf: map<Text, ClientId>, id: ClientId, todo: set<Text>): map<Text, ClientId> {
    map c | c in idOf && (c in todo || idOf[c] != id) :: idOf[c]
  }

  lemma WithoutIdStep(idOf: map<Text, ClientId>, id: ClientId, todo: set<Text>, c: Text)
    requires c in todo && c in idOf
    ensures var m := WithoutId(idOf, id, todo);
            c in m && WithoutId(idOf, id, todo - {c}) == if m[c] == id then m - {c} else m
  {
  }

  lemma WithoutIdEnds(idOf: map<Text, ClientId>, id: ClientId)
    ensures WithoutId(idOf, id, idOf.Keys) == idOf
    ensures WithoutId(idOf, id, {}) == map c | c in idOf && idOf[c] != id :: idOf[c]
  {
  }

  /** A connect once its generation has been drawn. */
  function Attached(h: HubState, client: Text, cleanStart: bool, expiry: U32, now: int, cfg: Config): HubState
    requires client in h.idOf ==> h.idOf[client] in h.byId
  {
    if client !in h.idOf then Opened(h, client, expiry)
    else
      var id := h.idOf[client];
      if cleanStart then Opened(Replaced(h, client, id), client, expiry)
      else h.(byId := h.byId[id := Stepped(h.byId[id], Resume(expiry, h.generation), now, cfg.retry)],
              queue := h.queue + [Meta(client, expiry)])
  }

  lemma ConnectIs(h: HubState, client: Text, cleanStart: bool, expiry: U32, now: int, cfg: Config)
    requires client in h.idOf ==> h.idOf[client] in h.byId
    ensures var h1 := h.(generation := h.generation + 1);
            After(h, Connect(client, cleanStart, expiry), now, cfg)
            == Attached(h1, client, cleanStart, expiry, now, cfg)
  {
    hide Opened, Replaced, Stepped;
  }

  lemma ConnectSound(h: HubState, client: Text, cleanStart: bool, expiry: U32, now: int, cfg: Config)
    requires Sound(h)
    ensures R.Tidy(h.router) && (client in h.idOf ==> h.idOf[client] in h.byId)
    ensures var h' := After(h, Connect(client, cleanStart, expiry), now, cfg);
            Sound(h') && h' == Attached(h.(generation := h.generation + 1), client, cleanStart, expiry, now, cfg)
  {
    hide Attached, After, Sound;
    StepSound(h, Connect(client, cleanStart, expiry), now, cfg);
    SoundTable(h);
    ConnectIs(h, client, cleanStart, expiry, now, cfg);
  }

  lemma SubscribeSound(h: HubState, id: ClientId, raw: Text, qos: QoS, now: int, cfg: Config)
    requires Sound(h) && id < h.nextRaw
    ensures R.Tidy(h.router)
    ensures var h' := After(h, Subscribe(id, raw, qos), now, cfg);
            && Sound(h')
            && h' == if KeyOf(raw).None? then h
                     else h.(router := R.Subscribed(h.router, id, KeyOf(raw).value, qos),
                             queue := if Durable(h, id) then h.queue + [PutSubscription(h.byId[id].clientId, raw, qos)]
                                      else h.queue)
  {
    hide KeyOf, R.Subscribed, Sound, R.Tidy;
    StepSound(h, Subscribe(id, raw, qos), now, cfg);
    SoundTable(h);
    assert h.queue + [] == h.queue;
  }

  lemma UnsubscribeSound(h: HubState, id: ClientId, raw: Text, now: int, cfg: Config)
    requires Sound(h)
    ensures R.Tidy(h.router)
    ensures var h' := After(h, Unsubscribe(id, raw), now, cfg);
            && Sound(h')
            && h' == h.(router := R.Unsubscribed(h.router, id, KeyNamed(raw)),
                        queue := if Durable(h, id) then h.queue + [RemoveSubscription(h.byId[id].clientId, raw)]
                                 else h.queue)
  {
    hide KeyNamed, R.Unsubscribed, Sound, R.Tidy;
    StepSound(h, Unsubscribe(id, raw), now, cfg);
    SoundTable(h);
    assert h.queue + [] == h.queue;
  }

  /** A touch with one ordinary act, spelled out; it keeps the hub sound. */
  lemma TouchSound(h: HubState, id: ClientId, act: Act, now: int, cfg: Config)
    requires Sound(h) && Ordinary(act)
    ensures var h' := After(h, Touch(id, [act]), now, cfg);
            && Sound(h')
            && h' == if id !in h.byId then h
                     else
                       var s := Stepped(h.byId[id], act, now, cfg.retry);
                       h.(byId := h.byId[id := s],
                          queue := h.queue + if Saves(h.byId[id], act, now) then Snapshot(s) else [])
  {
    hide Stepped, Saves, Snapshot, After, Sound;
    StepSound(h, Touch(id, [act]), now, cfg);
    TouchIs(h, id, act, now, cfg);
  }

  lemma TouchIs(h: HubState, id: ClientId, act: Act, now: int, cfg: Config)
    ensures After(h, Touch(id, [act]), now, cfg)
         == if id !in h.byId then h
            else
              var s := Stepped(h.byId[id], act, now, cfg.retry);
              h.(byId := h.byId[id := s], queue := h.queue + if Saves(h.byId[id], act, now) then Snapshot(s) else [])
  {
    hide Stepped, Saves, Snapshot, SteppedAll, SavesAny;
    if id in h.byId {
      TouchOne(h, id, act, now, cfg);
    }
  }

  lemma SoundTable(h: HubState)
    requires Sound(h)
    ensures R.Tidy(h.router) && Inverse(h)
    ensures forall c :: c in h.idOf ==> h.idOf[c] in h.byId
  {
  }

  /** The handle a connect returns is the current one for its session. */
  lemma ConnectGivesHandle(h: HubState, client: Text, cleanStart: bool, expiry: U32, now: int, cfg: Config)
    requires Sound(h)
    ensures var h' := After(h, Connect(client, cleanStart, expiry), now, cfg);
            client in h'.idOf && Current(h', HandleOf(h', client).0, HandleOf(h', client).1)
  {
    hide Stepped, R.ClientRemoved, RoutesIssued;
    if client in h.idOf {
      ResumeKeepsIdentity(h.byId[h.idOf[client]], expiry, h.generation + 1, now, cfg.retry);
    }
  }

  lemma ResumeIs(s: SessionState, expiry: U32, generation: nat, now: int, cfg: RetryConfig)
    ensures Stepped(s, Resume(expiry, generation), now, cfg)
         == Retransmitted(s.(tx := Some([]), expiry := expiry, generation := generation), now, cfg)
  {
    hide Retransmitted;
  }
}
