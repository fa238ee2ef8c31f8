/** Start-up, one session row at a time (`Hub::new` in crates/relay-server/src/hub.rs). */
module Reload {
  import opened Basics
  import opened Topics
  import opened Sessions
  import opened Codec
  import opened Storage
  import opened Retained
  import opened Broker
  import opened Table
  import opened Restart
  import R = Routing

  /** What a list of stored subscriptions registers under a key: the last string that names it counts. */
  function GrantBy(subs: seq<(Text, QoS)>, key: Key): Option<QoS> {
    if subs == [] then None
    else
      var (raw, qos) := subs[|subs| - 1];
      if KeyOf(raw) == Some(key) then Some(qos) else GrantBy(subs[..|subs| - 1], key)
  }

  lemma {:induction false} GrantByListed(subs: seq<(Text, QoS)>, key: Key)
    ensures GrantBy(subs, key).Some? ==>
      exists raw :: (raw, GrantBy(subs, key).value) in subs && KeyOf(raw) == Some(key)
    ensures GrantBy(subs, key).None? ==> forall raw, qos :: (raw, qos) in subs ==> KeyOf(raw) != Some(key)
  {
    hide KeyOf;
    if subs != [] {
      var n := |subs| - 1;
      GrantByListed(subs[..n], key);
      assert subs == subs[..n] + [subs[n]];
      var (raw, qos) := subs[n];
      if KeyOf(raw) == Some(key) {
        assert subs[n] in subs;
      }
    }
  }

  /** Loading a client's strings registers exactly what its rows call for. */
  lemma LoadsRegister(d: Disk, p: Persisted, key: Key)
    requires LoadsAs(d, p)
    ensures GrantBy(p.subscriptions, key) == Reregistered(d, p.client, key)
  {
    hide KeyOf, SubRow, RawOf;
    GrantByListed(p.subscriptions, key);
    var again := Reregistered(d, p.client, key);
    assert again.Some? ==> Loads(d, p.client, RawOf(key), again.value);
    if GrantBy(p.subscriptions, key).Some? {
      var raw :| (raw, GrantBy(p.subscriptions, key).value) in p.subscriptions && KeyOf(raw) == Some(key);
      RawOfKey(raw);
      assert Loads(d, p.client, raw, GrantBy(p.subscriptions, key).value);
    }
  }

  /** A client's strings entered in the router, and nothing else changed. */
  ghost predicate Registered(r: R.RouterState, r': R.RouterState, id: ClientId, subs: seq<(Text, QoS)>) {
    && R.Tidy(r')
    && forall c: ClientId, key ::
         R.Granted(r', c, key)
         == if c == id && GrantBy(subs, key).Some? then GrantBy(subs, key) else R.Granted(r, c, key)
  }

  lemma RegisteredNone(r: R.RouterState, id: ClientId, subs: seq<(Text, QoS)>)
    requires R.Tidy(r)
    ensures Registered(r, r, id, subs[..0])
  {
  }

  lemma RegisteredMore(r: R.RouterState, r': R.RouterState, id: ClientId, subs: seq<(Text, QoS)>, k: nat)
    requires k < |subs| && Registered(r, r', id, subs[..k])
    ensures var (raw, qos) := subs[k];
            Registered(r, if KeyOf(raw).Some? then R.Subscribed(r', id, KeyOf(raw).value, qos) else r', id,
                       subs[..k + 1])
  {
    hide KeyOf, R.Subscribed, R.Granted, R.Tidy;
    var (raw, qos) := subs[k];
    assert subs[..k + 1][..k] == subs[..k];
    if KeyOf(raw).Some? {
      R.SubscribeForAll(r', id, KeyOf(raw).value, qos);
    }
  }

  /** Half-way through start-up: the sessions in `done` are rebuilt. */
  ghost predicate Reloading(d: Disk, done: set<Text>, h: HubState, now: int, cfg: RetryConfig) {
    && Inverse(h) && Issued(h) && h.generation == 0 && RoutesIssued(h)
    && h.idOf.Keys == done && done <= d.sessions.Keys
    && (forall c :: c in h.idOf ==> h.idOf[c] in h.byId && h.byId[h.idOf[c]] == Revived(d, c, now, cfg))
    && (forall c, key :: c in h.idOf ==> R.Granted(h.router, h.idOf[c], key) == Reregistered(d, c, key))
  }

  /** One more session under the next id, with its registrations. */
  function WithSession(h: HubState, d: Disk, c: Text, router: R.RouterState, now: int, cfg: RetryConfig): HubState
    requires c in d.sessions
  {
    h.(nextRaw := h.nextRaw + 1, byId := h.byId[h.nextRaw := Revived(d, c, now, cfg)],
       idOf := h.idOf[c := h.nextRaw], router := router)
  }

  lemma RevivedIdentity(d: Disk, c: Text, now: int, cfg: RetryConfig)
    requires c in d.sessions
    ensures Revived(d, c, now, cfg).clientId == c && Revived(d, c, now, cfg).generation == 0
  {
    hide DecodeInflight;
  }

  lemma ReloadTable(d: Disk, done: set<Text>, h: HubState, c: Text, router: R.RouterState, now: int, cfg: RetryConfig)
    requires Reloading(d, done, h, now, cfg) && c in d.sessions && c !in done
    ensures var h' := WithSession(h, d, c, router, now, cfg);
            && Inverse(h') && Issued(h') && h'.generation == 0 && h'.idOf.Keys == done + {c}
            && (forall c :: c in h'.idOf ==> h'.idOf[c] in h'.byId && h'.byId[h'.idOf[c]] == Revived(d, c, now, cfg))
  {
    hide Revived, RoutesIssued, R.Granted, Reregistered;
    RevivedIdentity(d, c, now, cfg);
  }

  lemma ReloadRoutes(d: Disk, done: set<Text>, h: HubState, p: Persisted, router: R.RouterState, now: int,
                     cfg: RetryConfig)
    requires Reloading(d, done, h, now, cfg) && p.client in d.sessions && p.client !in done && LoadsAs(d, p)
    requires Registered(h.router, router, h.nextRaw, p.subscriptions)
    ensures var h' := WithSession(h, d, p.client, router, now, cfg);
            && RoutesIssued(h')
            && (forall c, key :: c in h'.idOf ==> R.Granted(h'.router, h'.idOf[c], key) == Reregistered(d, c, key))
  {
    hide Revived, R.Granted, R.Tidy, LoadsAs, KeyOf, SubRow;
    forall key ensures GrantBy(p.subscriptions, key) == Reregistered(d, p.client, key) {
      LoadsRegister(d, p, key);
    }
    hide GrantBy;
  }

  lemma ReloadStep(d: Disk, done: set<Text>, h: HubState, p: Persisted, router: R.RouterState, now: int,
                   cfg: RetryConfig)
    requires Reloading(d, done, h, now, cfg) && p.client in d.sessions && p.client !in done && LoadsAs(d, p)
    requires Registered(h.router, router, h.nextRaw, p.subscriptions)
    ensures Reloading(d, done + {p.client}, WithSession(h, d, p.client, router, now, cfg), now, cfg)
  {
    ReloadTable(d, done, h, p.client, router, now, cfg);
    ReloadRoutes(d, done, h, p, router, now, cfg);
    hide Inverse, Issued, RoutesIssued, Revived, R.Granted, Reregistered, LoadsAs, Registered;
  }

  lemma ReloadStart(d: Disk, shelf: Shelf, now: int, cfg: RetryConfig)
    ensures Reloading(d, {}, HubState(1, 0, map[], map[], NO_ROUTES, shelf, [], d), now, cfg)
  {
    FirstTable();
  }

  lemma ReloadEnd(d: Disk, h: HubState, now: int, cfg: RetryConfig)
    requires Reloading(d, d.sessions.Keys, h, now, cfg) && h.queue == [] && h.disk == d
    requires h.retained == Unpacked(d.retained, d.retained.Keys)
    ensures IsReload(d, now, cfg, h) && TableOk(h)
  {
    hide Inverse, Issued, RoutesIssued, Revived, R.Granted, Reregistered, Unpacked;
  }

  lemma NamesUpTo(out: seq<Persisted>, k: nat)
    requires k < |out| && forall i, j :: 0 <= i < j < |out| ==> out[i].client != out[j].client
    ensures Names(out[..k + 1]) == Names(out[..k]) + {out[k].client} && out[k].client !in Names(out[..k])
    ensures out[k].client in Names(out)
  {
    assert out[..k + 1] == out[..k] + [out[k]];
    NameMore(out[..k], out[k]);
    assert out[k] in out;
  }
}
