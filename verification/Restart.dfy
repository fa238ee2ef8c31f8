/**
 * Starting again from disk (`Hub::new` in crates/relay-server/src/hub.rs): what a restart brings back
 * of the broker that wrote the disk.
 */
module Restart {
  import opened Basics
  import opened Topics
  import opened Sessions
  import opened Codec
  import opened Storage
  import opened Retained
  import opened Broker
  import opened Table
  import opened Accounts
  import opened Agreement
  import R = Routing

  /** A session as it is rebuilt from its rows: offline, with its queue if the blob can be read. */
  function Revived(d: Disk, c: Text, now: int, cfg: RetryConfig): SessionState
    requires c in d.sessions
  {
    var s := NewSession(c, None, d.sessions[c], 0);
    match At(d.inflight, c)
    case None => s
    case Some(blob) =>
      match DecodeInflight(blob, now, cfg)
      case None => s
      case Some((nextId, q)) => s.(nextId := nextId, inflight := q)
  }

  /** The registrations rebuilt for a client: those its stored strings name. */
  function Reregistered(d: Disk, c: Text, key: Key): Option<QoS> {
    if NUL !in c && Proper(key) then SubRow(d, c, RawOf(key)) else None
  }

  /** The two indexes rebuilt from the session rows, under new ids from 1 up. */
  ghost predicate ReloadedTable(d: Disk, now: int, cfg: RetryConfig, h: HubState) {
    && Inverse(h) && Issued(h) && h.generation == 0
    && h.idOf.Keys == d.sessions.Keys
    && (forall c :: c in h.idOf ==> h.idOf[c] in h.byId && h.byId[h.idOf[c]] == Revived(d, c, now, cfg))
  }

  ghost predicate ReloadedRoutes(d: Disk, h: HubState) {
    && RoutesIssued(h)
    && (forall c, key :: c in h.idOf ==> R.Granted(h.router, h.idOf[c], key) == Reregistered(d, c, key))
  }

  /** What start-up must build from a disk. */
  ghost predicate IsReload(d: Disk, now: int, cfg: RetryConfig, h: HubState) {
    && ReloadedTable(d, now, cfg, h) && ReloadedRoutes(d, h)
    && h.retained == Unpacked(d.retained, d.retained.Keys)
    && h.queue == [] && h.disk == d
  }

  predicate AllFit(q: seq<Entry>) {
    forall k :: 0 <= k < |q| ==> Fits(q[k])
  }

  /** What comes back of one session, given what the disk is known to hold of it. */
  ghost predicate Restored(h: HubState, memo: Memo, id: ClientId, h': HubState, id': ClientId, now: int,
                           cfg: RetryConfig)
    requires id in h.byId && id' in h'.byId
  {
    var s, s' := h.byId[id], h'.byId[id'];
    && s'.clientId == s.clientId && s'.expiry == s.expiry && s'.tx == None && s'.generation == 0 && s'.incoming == {}
    && (forall key :: R.Granted(h'.router, id', key)
                   == if key in memo.forgotten then None else R.Granted(h.router, id, key))
    && (memo.unsaved ==> s'.nextId == 1 && s'.inflight == [])
    && (s' == Stepped(s, Reload, now, cfg) <==> Recoverable(s, memo))
  }

  /** When a queue comes back: it was never written and is empty, or it is written and its lengths fit the blob. */
  predicate Recoverable(s: SessionState, memo: Memo) {
    if memo.unsaved then s.nextId == 1 && s.inflight == [] else AllFit(s.inflight)
  }

  lemma RevivedQueue(d: Disk, s: SessionState, memo: Memo, now: int, cfg: RetryConfig)
    requires RowsOk(s, memo, d) && s.expiry > 0 && s.clientId in d.sessions
    requires forall k :: 0 <= k < |s.inflight| ==> Storable(s.inflight[k])
    ensures var s' := Revived(d, s.clientId, now, cfg);
            && s'.clientId == s.clientId && s'.expiry == s.expiry && s'.tx == None && s'.generation == 0
            && s'.incoming == {}
            && (memo.unsaved ==> s'.nextId == 1 && s'.inflight == [])
            && (s' == Stepped(s, Reload, now, cfg) <==> Recoverable(s, memo))
  {
    InflightRoundTripExactly(s.nextId, s.inflight, now, cfg);
    RearmKeepsLength(s.inflight, now, cfg);
    hide EncodeInflight, DecodeInflight, Sweep, Storable, Fits;
  }

  lemma {:induction false} RearmKeepsLength(q: seq<Entry>, now: int, cfg: RetryConfig)
    ensures |Sweep(Rearm(now, cfg), q)| == |q|
  {
    hide Backoff;
    if q != [] {
      RearmKeepsLength(q[..|q| - 1], now, cfg);
    }
  }

  lemma ReregisteredAgain(r: R.RouterState, id: ClientId, memo: Memo, d: Disk, c: Text, key: Key)
    requires SubsOk(r, id, memo, d, c) && NUL !in c
    requires R.Granted(r, id, key).Some? ==> Proper(key)
    ensures Reregistered(d, c, key) == if key in memo.forgotten then None else R.Granted(r, id, key)
  {
    hide R.Granted, SubRow, KeyOf, RawOf;
    assert Proper(key) ==> SubRow(d, c, RawOf(key)) == RowFor(r, id, memo.forgotten, RawOf(key));
  }

  /**
   * A restart on the drained disk brings back the same retained messages and exactly the durable
   * sessions; each with its expiry, every subscription not forgotten at its QoS, its packet-id counter
   * and its queue in order.
   */
  lemma RestartRestores(h: HubState, sh: Shadow, h': HubState, before: int, now: int, cfg: Config)
    requires Healthy(h, sh) && AllAccounted(h, cfg.retry, before) && IsReload(Settled(h), now, cfg.retry, h')
    ensures h'.retained == h.retained
    ensures forall c :: c in h'.idOf <==> c in h.idOf && h.byId[h.idOf[c]].expiry > 0
    ensures forall c :: c in h'.idOf ==>
      h.idOf[c] in sh && Restored(h, sh[h.idOf[c]], h.idOf[c], h', h'.idOf[c], now, cfg.retry)
  {
    var d := Settled(h);
    UnpackedAgain(h.retained, d.retained);
    hide RowAgrees, Settled, Unpacked, ShelfOk;
    forall c ensures c in h'.idOf <==> c in h.idOf && h.byId[h.idOf[c]].expiry > 0 {
      hide SubsOk, R.Granted, RoutesIssued, EncodeInflight, AllForgotten;
      if NUL !in c {
        assert ClientOk(h, sh, d, c);
      }
    }
    forall c | c in h'.idOf
      ensures h.idOf[c] in sh && Restored(h, sh[h.idOf[c]], h.idOf[c], h', h'.idOf[c], now, cfg.retry)
    {
      SessionRestored(h, sh, h', before, now, cfg, c);
    }
  }

  lemma SessionRestored(h: HubState, sh: Shadow, h': HubState, before: int, now: int, cfg: Config, c: Text)
    requires Healthy(h, sh) && AllAccounted(h, cfg.retry, before) && IsReload(Settled(h), now, cfg.retry, h')
    requires c in h'.idOf && c in h.idOf && h.byId[h.idOf[c]].expiry > 0
    ensures h.idOf[c] in sh && Restored(h, sh[h.idOf[c]], h.idOf[c], h', h'.idOf[c], now, cfg.retry)
  {
    hide Settled, ShelfOk, Unpacked, SubsOk, R.Granted, EncodeInflight, AllForgotten, Accounted, Revived, RowsOk,
         Stepped, Reregistered, R.Tidy, AllWhole, Proper;
    var d, id, id' := Settled(h), h.idOf[c], h'.idOf[c];
    assert ClientOk(h, sh, d, c);
    var s, memo := h.byId[id], sh[id];
    QueueIsStorable(s, cfg.retry, before);
    RevivedQueue(d, s, memo, now, cfg.retry);
    forall key ensures R.Granted(h'.router, id', key)
                    == if key in memo.forgotten then None else R.Granted(h.router, id, key)
    {
      ReregisteredAgain(h.router, id, memo, d, c, key);
    }
  }

  /** A session durable since its creation comes back whole. */
  lemma DurableSessionSurvives(h: HubState, sh: Shadow, h': HubState, before: int, now: int, cfg: Config, c: Text)
    requires Healthy(h, sh) && AllAccounted(h, cfg.retry, before) && IsReload(Settled(h), now, cfg.retry, h')
    requires c in h.idOf && h.idOf[c] in sh && !sh[h.idOf[c]].lapsed && AllFit(h.byId[h.idOf[c]].inflight)
    ensures c in h'.idOf
    ensures var s, s' := h.byId[h.idOf[c]], h'.byId[h'.idOf[c]];
            && s' == Stepped(s, Reload, now, cfg.retry)
            && forall key :: R.Granted(h'.router, h'.idOf[c], key) == R.Granted(h.router, h.idOf[c], key)
  {
    hide Settled, Agree, R.Granted, Accounted, Stepped, RoutesIssued, ReloadedRoutes, Unpacked, Revived;
    RestartRestores(h, sh, h', before, now, cfg);
    var s := h.byId[h.idOf[c]];
    assert Whole(s, sh[h.idOf[c]]);
    if sh[h.idOf[c]].unsaved {
      EmptyReload(s, now, cfg.retry);
    }
  }

  lemma EmptyReload(s: SessionState, now: int, cfg: RetryConfig)
    requires s.inflight == []
    ensures Stepped(s, Reload, now, cfg) == s.(tx := None, generation := 0, incoming := {})
  {
  }

  // ---- the restarted broker is as healthy as the one before ----

  function MemoReloaded(h: HubState): Shadow {
    map id | id in h.byId :: Memo({}, h.byId[id].clientId !in h.disk.inflight, false)
  }

  /** Every queue that is on disk can be read back. */
  predicate AllReadable(h: HubState, sh: Shadow) {
    forall id :: id in h.byId && id in sh && !sh[id].unsaved ==> AllFit(h.byId[id].inflight)
  }

  lemma ReloadEncodesSame(s: SessionState, now: int, cfg: RetryConfig)
    ensures var s' := Stepped(s, Reload, now, cfg);
            EncodeInflight(s'.nextId, s'.inflight) == EncodeInflight(s.nextId, s.inflight)
  {
    RearmEncodesSame(s.inflight, now, cfg);
    hide Sweep, EncodeQueue;
  }

  lemma ReregisteredRows(r: R.RouterState, id: ClientId, memo: Memo, r': R.RouterState, id': ClientId, d: Disk, c: Text)
    requires SubsOk(r, id, memo, d, c) && NUL !in c
    requires forall key :: R.Granted(r', id', key) == Reregistered(d, c, key)
    ensures SubsOk(r', id', Memo({}, true, false), d, c)
  {
    hide R.Granted, SubRow, KeyOf, RawOf;
    forall raw ensures SubRow(d, c, raw) == RowFor(r', id', {}, raw) {
      assert SubRow(d, c, raw) == RowFor(r, id, memo.forgotten, raw);
      RawOfKey(raw);
    }
  }

  /** A broker restarted on the drained disk of a healthy one. */
  ghost predicate Restarts(h: HubState, sh: Shadow, h': HubState, before: int, now: int, cfg: Config) {
    && Healthy(h, sh) && AllAccounted(h, cfg.retry, before) && AllReadable(h, sh) && before <= now
    && IsReload(Settled(h), now, cfg.retry, h')
  }

  lemma RestartedSubsOk(h: HubState, sh: Shadow, h': HubState, before: int, now: int, cfg: Config, c: Text)
    requires Restarts(h, sh, h', before, now, cfg) && c in h'.idOf
    ensures NUL !in c && h'.idOf[c] in h'.byId
    ensures SubsOk(h'.router, h'.idOf[c], MemoReloaded(h')[h'.idOf[c]], Settled(h), c)
  {
    RestartRestores(h, sh, h', before, now, cfg);
    var d, id, id' := Settled(h), h.idOf[c], h'.idOf[c];
    hide Settled, ShelfOk, Unpacked, SubsOk, R.Granted, EncodeInflight, AllForgotten, Accounted, Revived,
         Reregistered, R.Tidy, AllWhole, Proper, Restored, RowsOk;
    assert ClientOk(h, sh, d, c);
    ReregisteredRows(h.router, id, sh[id], h'.router, id', d, c);
    SubsIgnoresFlags(h'.router, id', MemoReloaded(h')[id'], Memo({}, true, false), d, c);
  }

  /** A session whose queue has no row is a new one, and is in order as such. */
  lemma RevivedUnsavedOk(s: SessionState, memo: Memo, s': SessionState, memo': Memo, d: Disk, cfg: RetryConfig,
                         now: int)
    requires RowsOk(s, memo, d) && memo.unsaved && s.expiry > 0 && memo' == Memo({}, true, false)
    requires s'.clientId == s.clientId && s'.expiry == s.expiry && s'.tx == None && s'.generation == 0
    requires s'.incoming == {} && s'.nextId == 1 && s'.inflight == []
    ensures RowsOk(s', memo', d) && Whole(s', memo') && Accounted(s', cfg, now)
  {
    hide EncodeInflight, Accounted;
    NewSessionIs(s');
    CreatedAccounted(s.clientId, None, s.expiry, 0, cfg, now);
  }

  /** A session read back from its row continues the one that was written, and its row still agrees. */
  lemma RevivedSavedOk(s: SessionState, memo: Memo, s': SessionState, memo': Memo, d: Disk, cfg: RetryConfig,
                       before: int, now: int)
    requires RowsOk(s, memo, d) && !memo.unsaved && s.expiry > 0 && memo' == Memo({}, false, false)
    requires s' == Stepped(s, Reload, now, cfg) && s'.clientId == s.clientId && s'.expiry == s.expiry
    requires Accounted(s, cfg, before) && before <= now
    ensures RowsOk(s', memo', d) && Whole(s', memo') && Accounted(s', cfg, now)
  {
    hide EncodeInflight, Accounted, Stepped;
    ReloadEncodesSame(s, now, cfg);
    ActAccounted(s, Reload, cfg, before, now);
  }

  lemma RestartedRowsOk(h: HubState, sh: Shadow, h': HubState, before: int, now: int, cfg: Config, c: Text)
    requires Restarts(h, sh, h', before, now, cfg) && c in h'.idOf
    ensures h'.idOf[c] in h'.byId
    ensures var s', memo' := h'.byId[h'.idOf[c]], MemoReloaded(h')[h'.idOf[c]];
            && s'.clientId == c && s'.expiry > 0 && RowsOk(s', memo', Settled(h)) && Whole(s', memo')
            && Accounted(s', cfg.retry, now)
  {
    hide Settled, ShelfOk, Unpacked, SubsOk, R.Granted, EncodeInflight, AllForgotten, Accounted, Revived, Stepped,
         RoutesIssued, ReloadedRoutes, AllWhole, Whole;
    RestartRestores(h, sh, h', before, now, cfg);
    var d, id, id' := Settled(h), h.idOf[c], h'.idOf[c];
    var s, memo, s', memo' := h.byId[id], sh[id], h'.byId[id'], MemoReloaded(h')[id'];
    assert ClientOk(h, sh, d, c);
    assert memo' == Memo({}, memo.unsaved, false);
    if memo.unsaved {
      RevivedUnsavedOk(s, memo, s', memo', d, cfg.retry, now);
    } else {
      RevivedSavedOk(s, memo, s', memo', d, cfg.retry, before, now);
    }
  }

  lemma RestartedSessionOk(h: HubState, sh: Shadow, h': HubState, before: int, now: int, cfg: Config, c: Text)
    requires Restarts(h, sh, h', before, now, cfg) && c in h'.idOf
    ensures ClientOk(h', MemoReloaded(h'), Settled(h), c)
  {
    RestartedSubsOk(h, sh, h', before, now, cfg, c);
    RestartedRowsOk(h, sh, h', before, now, cfg, c);
    hide Restarts, Settled, SubsOk, RowsOk, Whole, Accounted, AllForgotten;
  }

  lemma SubsIgnoresFlags(r: R.RouterState, id: ClientId, memo: Memo, memo': Memo, d: Disk, c: Text)
    requires SubsOk(r, id, memo', d, c) && memo.forgotten == memo'.forgotten
    ensures SubsOk(r, id, memo, d, c)
  {
    hide RowFor, SubRow;
  }

  lemma NewSessionIs(s: SessionState)
    requires s.tx == None && s.generation == 0 && s.incoming == {} && s.nextId == 1 && s.inflight == []
    ensures s == NewSession(s.clientId, None, s.expiry, 0)
  {
  }

  lemma LostClientOk(h: HubState, sh: Shadow, h': HubState, now: int, cfg: Config, c: Text)
    requires Healthy(h, sh) && IsReload(Settled(h), now, cfg.retry, h') && c !in h'.idOf && NUL !in c
    ensures NoRows(Settled(h), c) && NoSubs(Settled(h), c)
  {
    hide Settled, R.Granted, EncodeInflight, R.Tidy, Unpacked, Revived, SubRow, KeyOf;
    assert ClientOk(h, sh, Settled(h), c);
    if c in h.idOf {
      assert At(Settled(h).sessions, c) == None;
      forall raw ensures SubRow(Settled(h), c, raw) == None {
        assert SubRow(Settled(h), c, raw) == RowFor(h.router, h.idOf[c], sh[h.idOf[c]].forgotten, raw);
      }
    }
  }

  lemma RestartedClientsOk(h: HubState, sh: Shadow, h': HubState, before: int, now: int, cfg: Config)
    requires Restarts(h, sh, h', before, now, cfg)
    ensures ClientsOk(h', MemoReloaded(h'), Settled(h))
  {
    var d, sh' := Settled(h), MemoReloaded(h');
    hide Settled, ClientOk, MemoReloaded, Healthy, AllAccounted, AllReadable, ReloadedRoutes, Revived;
    forall c | c in h'.idOf ensures NUL !in c {
      RestartedSubsOk(h, sh, h', before, now, cfg, c);
    }
    forall c | NUL !in c ensures ClientOk(h', sh', d, c) {
      if c in h'.idOf {
        RestartedSessionOk(h, sh, h', before, now, cfg, c);
      } else {
        LostClientOk(h, sh, h', now, cfg, c);
        NobodyOk(h', sh', d, c);
      }
    }
  }

  lemma NobodyOk(h: HubState, sh: Shadow, d: Disk, c: Text)
    requires c !in h.idOf && NoRows(d, c) && NoSubs(d, c)
    ensures ClientOk(h, sh, d, c)
  {
  }

  lemma RestartedWhole(h: HubState, sh: Shadow, h': HubState, before: int, now: int, cfg: Config)
    requires Restarts(h, sh, h', before, now, cfg)
    ensures AllWhole(h', MemoReloaded(h')) && AllAccounted(h', cfg.retry, now)
  {
    hide Settled, Healthy, AllReadable, ReloadedRoutes, Revived, Whole, Accounted, RowsOk;
    forall id | id in h'.byId
      ensures Whole(h'.byId[id], MemoReloaded(h')[id]) && Accounted(h'.byId[id], cfg.retry, now)
    {
      hide AllAccounted;
      RestartedRowsOk(h, sh, h', before, now, cfg, h'.byId[id].clientId);
    }
  }

  /** A restarted broker is healthy again, and every session in it is accounted for: runs go on as before. */
  lemma RestartKeepsHealth(h: HubState, sh: Shadow, h': HubState, before: int, now: int, cfg: Config)
    requires Restarts(h, sh, h', before, now, cfg)
    ensures Healthy(h', MemoReloaded(h')) && AllAccounted(h', cfg.retry, now)
  {
    RestartRestores(h, sh, h', before, now, cfg);
    RestartedClientsOk(h, sh, h', before, now, cfg);
    RestartedWhole(h, sh, h', before, now, cfg);
    assert Settled(h') == Settled(h);
    hide Settled, ClientsOk, AllWhole, AllAccounted, Unpacked, RowAgrees, Restored, MemoReloaded, Revived,
         RoutesIssued, Reregistered, AllReadable;
  }

  // ---- a life of several runs ----

  /** One run of the broker, the drained restart after it, and the time of that restart. */
  datatype Epoch = Epoch(run: Run, next: HubState, at: int)

  ghost predicate Lives(h: HubState, sh: Shadow, start: int, life: seq<Epoch>, cfg: Config)
    decreases |life|
  {
    life != [] ==>
      var e := life[0];
      var h1, sh1 := AfterAll(h, e.run, cfg), MemoAll(h, sh, e.run, cfg);
      && LegalRun(h, e.run, cfg) && NulFreeRun(e.run) && Clocked(start, e.run) && EndOf(start, e.run) <= e.at
      && AllReadable(h1, sh1) && IsReload(Settled(h1), e.at, cfg.retry, e.next)
      && Lives(e.next, MemoReloaded(e.next), e.at, life[1..], cfg)
  }

  function LastState(h: HubState, life: seq<Epoch>): HubState {
    if life == [] then h else life[|life| - 1].next
  }

  function LastMemo(h: HubState, sh: Shadow, life: seq<Epoch>): Shadow {
    if life == [] then sh else MemoReloaded(LastState(h, life))
  }

  function LastTime(start: int, life: seq<Epoch>): int {
    if life == [] then start else life[|life| - 1].at
  }

  /** However often the broker is restarted on its drained disk, memory and disk agree in what comes back. */
  lemma {:induction false} EveryLifeAgrees(h: HubState, sh: Shadow, start: int, life: seq<Epoch>, cfg: Config)
    requires Healthy(h, sh) && AllAccounted(h, cfg.retry, start) && Lives(h, sh, start, life, cfg)
    ensures Healthy(LastState(h, life), LastMemo(h, sh, life))
    ensures AllAccounted(LastState(h, life), cfg.retry, LastTime(start, life))
    decreases |life|
  {
    hide AfterAll, MemoAll, LegalRun, NulFreeRun, Clocked, EndOf, Settled, AllReadable, IsReload, MemoReloaded,
         Healthy, AllAccounted;
    if life != [] {
      var e := life[0];
      EveryRunAgrees(h, sh, e.run, cfg);
      HealthyTable(h, sh);
      EverySessionIsAccounted(h, e.run, cfg, start);
      RestartKeepsHealth(AfterAll(h, e.run, cfg), MemoAll(h, sh, e.run, cfg), e.next, EndOf(start, e.run), e.at, cfg);
      EveryLifeAgrees(e.next, MemoReloaded(e.next), e.at, life[1..], cfg);
    }
  }

  lemma HealthyTable(h: HubState, sh: Shadow)
    requires Healthy(h, sh)
    ensures TableOk(h)
  {
  }

  // ---- what a lapse costs ----

  /** A subscription made while the expiry interval is 0, by a client that then takes over with an interval of 5. */
  const LAPSE: Run := [(Connect([97], false, 0), 0), (Subscribe(1, [97], AtLeastOnce), 0), (Connect([97], false, 5), 0)]

  lemma PlainFilter()
    ensures KeyOf([97]) == Some(Normal([97]))
  {
    var s: Text := [97];
    assert s[1..] == [] && Split([]) == [[]] && [s[0]] + [] == s;
    assert Split(s) == [s];
  }

  lemma LapseSteps(cfg: Config)
    ensures var h := AfterAll(FIRST, LAPSE, cfg);
            && 1 in h.byId && h.byId[1].expiry == 5
            && h.router == R.Subscribed(NO_ROUTES, 1, Normal([97]), AtLeastOnce)
            && h.disk == EMPTY && h.queue == [RemoveSession([97]), PutSession([97], 5)]
  {
    hide Stepped, R.Subscribed, KeyOf;
    PlainFilter();
    var h0 := AfterAll(FIRST, LAPSE[..0], cfg);
    assert LAPSE[..1][..0] == [] && LAPSE[..2][..1] == LAPSE[..1] && LAPSE[..3] == LAPSE;
    var h1 := AfterAll(FIRST, LAPSE[..1], cfg);
    assert h1 == After(FIRST, LAPSE[0].0, 0, cfg);
    var h2 := AfterAll(FIRST, LAPSE[..2], cfg);
    assert h2 == After(h1, LAPSE[1].0, 0, cfg);
    assert AfterAll(FIRST, LAPSE, cfg) == After(h2, LAPSE[2].0, 0, cfg);
    ResumeKeepsIdentity(h2.byId[1], 5, 2, 0, cfg.retry);
  }

  lemma TwoWrites(d: Disk, a: PersistOp, b: PersistOp)
    ensures ApplyAll(d, [a, b]) == Apply(Apply(d, a), b)
  {
    hide Apply;
    assert [a, b][1..] == [b];
    assert ApplyAll(Apply(d, a), [b]) == ApplyAll(Apply(Apply(d, a), b), [b][1..]);
  }

  /** The session is durable and the subscription is live, but nothing on disk remembers it. */
  lemma LapsedSubscriptionIsLost(cfg: Config)
    ensures var h := AfterAll(FIRST, LAPSE, cfg);
            && 1 in h.byId && h.byId[1].expiry == 5
            && R.Granted(h.router, 1, Normal([97])) == Some(AtLeastOnce)
            && Settled(h).sessions == map[[97] := 5] && Settled(h).subs == map[]
  {
    LapseSteps(cfg);
    R.SubscribeForAll(NO_ROUTES, 1, Normal([97]), AtLeastOnce);
    var h := AfterAll(FIRST, LAPSE, cfg);
    hide AfterAll, R.Subscribed, R.Granted;
    var wiped := Apply(EMPTY, RemoveSession([97]));
    assert wiped.subs == map[];
    TwoWrites(EMPTY, RemoveSession([97]), PutSession([97], 5));
  }

  // ---- from the first start ----

  /** The session under this id had a positive expiry interval in every state of the run. */
  predicate DurableThroughout(h: HubState, run: Run, cfg: Config, id: ClientId) {
    forall n :: 0 <= n <= |run| ==>
      var mid := AfterAll(h, run[..n], cfg); id in mid.byId ==> mid.byId[id].expiry > 0
  }

  lemma StepNotLapsed(h: HubState, sh: Shadow, step: Step, now: int, cfg: Config, id: ClientId)
    requires Inverse(h) && Issued(h)
    requires id in h.byId && id in sh ==> !sh[id].lapsed
    requires var h' := After(h, step, now, cfg); id in h'.byId ==> h'.byId[id].expiry > 0
    ensures id in After(h, step, now, cfg).byId && id in MemoAfter(h, sh, step, now, cfg) ==>
      !MemoAfter(h, sh, step, now, cfg)[id].lapsed
  {
    hide Stepped, SteppedAll, SavesAny, Snapshot, KeyOf, KeyNamed, KeysOf,
         R.Subscribed, R.Unsubscribed, R.ClientRemoved, R.Advanced;
    if step.Connect? && step.client in h.idOf {
      ResumeKeepsIdentity(h.byId[h.idOf[step.client]], step.expiry, h.generation + 1, now, cfg.retry);
    }
  }

  lemma {:induction false} NeverLapsed(run: Run, cfg: Config, id: ClientId)
    requires LegalRun(FIRST, run, cfg) && DurableThroughout(FIRST, run, cfg, id)
    ensures id in AfterAll(FIRST, run, cfg).byId && id in MemoAll(FIRST, map[], run, cfg) ==>
      !MemoAll(FIRST, map[], run, cfg)[id].lapsed
  {
    hide After, MemoAfter, LegalRun, Legal, RoutesIssued, Inverse, Issued;
    if run != [] {
      var n := |run| - 1;
      LegalLast(FIRST, run, cfg);
      assert run[..|run|] == run;
      assert DurableThroughout(FIRST, run[..n], cfg, id) by {
        forall k | 0 <= k <= n ensures run[..n][..k] == run[..k] {
        }
      }
      NeverLapsed(run[..n], cfg, id);
      FirstTable();
      EveryRunKeepsTable(FIRST, run[..n], cfg);
      StepNotLapsed(AfterAll(FIRST, run[..n], cfg), MemoAll(FIRST, map[], run[..n], cfg), run[n].0, run[n].1, cfg, id);
    }
  }

  /** A client's session came back as it was, due times aside, with every registration it had. */
  ghost predicate BackWhole(h: HubState, h': HubState, c: Text, now: int, cfg: RetryConfig)
    requires c in h.idOf && h.idOf[c] in h.byId
  {
    && c in h'.idOf && h'.idOf[c] in h'.byId
    && h'.byId[h'.idOf[c]] == Stepped(h.byId[h.idOf[c]], Reload, now, cfg)
    && forall key :: R.Granted(h'.router, h'.idOf[c], key) == R.Granted(h.router, h.idOf[c], key)
  }

  lemma FirstRun(run: Run, cfg: Config, start: int)
    requires LegalRun(FIRST, run, cfg) && NulFreeRun(run) && Clocked(start, run)
    ensures Healthy(AfterAll(FIRST, run, cfg), MemoAll(FIRST, map[], run, cfg))
    ensures AllAccounted(AfterAll(FIRST, run, cfg), cfg.retry, EndOf(start, run))
  {
    FirstHealthy();
    hide Healthy, LegalRun, NulFreeRun, Clocked, TableOk;
    HealthyTable(FIRST, map[]);
    EveryRunAgrees(FIRST, map[], run, cfg);
    EverySessionIsAccounted(FIRST, run, cfg, start);
  }

  /**
   * The restart theorem from the first start: after any run of a broker that began on an empty disk,
   * once its writes have drained, start-up rebuilds the same retained messages and exactly the durable
   * sessions, and each session durable since its creation comes back whole if its queue fits the blob.
   */
  lemma {:induction false} RestartAfterRun(run: Run, cfg: Config, start: int, now: int, h': HubState)
    requires LegalRun(FIRST, run, cfg) && NulFreeRun(run) && Clocked(start, run)
    requires IsReload(Settled(AfterAll(FIRST, run, cfg)), now, cfg.retry, h')
    ensures var h := AfterAll(FIRST, run, cfg);
            && h'.retained == h.retained
            && (forall c :: c in h.idOf ==> h.idOf[c] in h.byId)
            && (forall c :: c in h'.idOf <==> c in h.idOf && h.byId[h.idOf[c]].expiry > 0)
            && (forall c :: c in h.idOf ==>
                  DurableThroughout(FIRST, run, cfg, h.idOf[c]) && AllFit(h.byId[h.idOf[c]].inflight) ==>
                  BackWhole(h, h', c, now, cfg.retry))
  {
    FirstRun(run, cfg, start);
    hide AfterAll, MemoAll, LegalRun, NulFreeRun, Clocked, DurableThroughout, AllFit, Settled, AllAccounted, IsReload,
         BackWhole, Agree;
    var h, sh := AfterAll(FIRST, run, cfg), MemoAll(FIRST, map[], run, cfg);
    RestartRestores(h, sh, h', EndOf(start, run), now, cfg);
    forall c | c in h.idOf && DurableThroughout(FIRST, run, cfg, h.idOf[c]) && AllFit(h.byId[h.idOf[c]].inflight)
      ensures BackWhole(h, h', c, now, cfg.retry)
    {
      ClientBackWhole(run, cfg, start, now, h', c);
    }
  }

  lemma {:induction false} ClientBackWhole(run: Run, cfg: Config, start: int, now: int, h': HubState, c: Text)
    requires LegalRun(FIRST, run, cfg) && NulFreeRun(run) && Clocked(start, run)
    requires IsReload(Settled(AfterAll(FIRST, run, cfg)), now, cfg.retry, h')
    requires var h := AfterAll(FIRST, run, cfg);
             && c in h.idOf && h.idOf[c] in h.byId
             && DurableThroughout(FIRST, run, cfg, h.idOf[c]) && AllFit(h.byId[h.idOf[c]].inflight)
    ensures BackWhole(AfterAll(FIRST, run, cfg), h', c, now, cfg.retry)
  {
    hide AfterAll, MemoAll, LegalRun, NulFreeRun, Clocked, DurableThroughout, AllFit, Settled, AllAccounted, Stepped;
    FirstRun(run, cfg, start);
    var h, sh := AfterAll(FIRST, run, cfg), MemoAll(FIRST, map[], run, cfg);
    NeverLapsed(run, cfg, h.idOf[c]);
    LiveHasMemo(h, sh, c);
    DurableSessionSurvives(h, sh, h', EndOf(start, run), now, cfg, c);
  }

  lemma LiveHasMemo(h: HubState, sh: Shadow, c: Text)
    requires Healthy(h, sh) && c in h.idOf
    ensures h.idOf[c] in sh
  {
    hide Settled, SessionOk;
    assert ClientOk(h, sh, Settled(h), c);
  }

  /** A durable session whose queue is not recoverable comes back without it. */
  lemma UnrecoverableIsLost(h: HubState, sh: Shadow, h': HubState, before: int, now: int, cfg: Config, id: ClientId)
    requires Healthy(h, sh) && AllAccounted(h, cfg.retry, before) && IsReload(Settled(h), now, cfg.retry, h')
    requires id in h.byId && h.byId[id].expiry > 0 && id in sh && !Recoverable(h.byId[id], sh[id])
    ensures var c := h.byId[id].clientId;
            && c in h'.idOf && h'.idOf[c] in h'.byId
            && h'.byId[h'.idOf[c]] != Stepped(h.byId[id], Reload, now, cfg.retry)
  {
    hide Settled, Agree, AllAccounted, R.Granted, Stepped, Revived, RoutesIssued, ReloadedRoutes, Recoverable, Unpacked;
    RestartRestores(h, sh, h', before, now, cfg);
  }
}
