/**
 * Memory and disk agree (crates/relay-server/src/hub.rs with storage.rs): after every step, once the
 * queued writes are applied, each table row is the one memory calls for. What a session without a
 * durable marker leaves unwritten is accounted for exactly.
 */
module Agreement {
  import opened Basics
  import opened Topics
  import opened Sessions
  import opened Codec
  import opened Storage
  import opened Retained
  import opened Broker
  import opened Table
  import R = Routing

  /**
   * What the disk does not hold of a session: the subscriptions made or wiped while its expiry
   * interval was 0, and whether its queue is unwritten since it was made or wiped. `lapsed` records
   * that the interval has been 0 at some time.
   */
  datatype Memo = Memo(forgotten: set<Key>, unsaved: bool, lapsed: bool)

  type Shadow = map<ClientId, Memo>

  function KeysOf(r: R.RouterState, id: ClientId): set<Key> {
    set x | x in R.Registrations(r) && x.0 == id :: x.1
  }

  /** Of a session just made, nothing is written and nothing needs to be. */
  function NewMemo(expiry: U32): Memo {
    Memo({}, true, expiry == 0)
  }

  function MemoAfter(h: HubState, sh: Shadow, step: Step, now: int, cfg: Config): Shadow {
    match step
    case Connect(client, cleanStart, expiry) =>
      if client !in h.idOf then sh[h.nextRaw := NewMemo(expiry)]
      else
        var id := h.idOf[client];
        if cleanStart then (sh - {id})[h.nextRaw := NewMemo(expiry)]
        else if expiry == 0 then sh[id := Memo(KeysOf(h.router, id), true, true)]
        else sh
    case Leave(id, generation) => if Current(h, id, generation) && h.byId[id].expiry == 0 then sh - {id} else sh
    case Purge(id, generation) => if Expired(h, id, generation) then sh - {id} else sh
    case Subscribe(id, raw, _) =>
      if KeyOf(raw).None? || id !in h.byId || id !in sh then sh
      else if h.byId[id].expiry > 0 then sh[id := sh[id].(forgotten := sh[id].forgotten - {KeyOf(raw).value})]
      else sh[id := sh[id].(forgotten := sh[id].forgotten + {KeyOf(raw).value})]
    case Unsubscribe(id, raw) =>
      if id !in h.byId || id !in sh then sh
      else sh[id := sh[id].(forgotten := sh[id].forgotten - {KeyNamed(raw)})]
    case Touch(id, acts) =>
      if id in h.byId && id in sh && h.byId[id].expiry > 0 && SavesAny(h.byId[id], acts, now, cfg.retry)
      then sh[id := sh[id].(unsaved := false)] else sh
    case _ => sh
  }

  /** The disk once every queued write has been applied. */
  function Settled(h: HubState): Disk {
    ApplyAll(h.disk, h.queue)
  }

  /** The subscription row memory calls for. */
  function RowFor(r: R.RouterState, id: ClientId, forgotten: set<Key>, raw: Text): Option<QoS> {
    match KeyOf(raw)
    case None => None
    case Some(key) => if key in forgotten then None else R.Granted(r, id, key)
  }

  predicate NoRows(d: Disk, c: Text) {
    At(d.sessions, c) == None && At(d.inflight, c) == None
  }

  ghost predicate NoSubs(d: Disk, c: Text) {
    forall raw :: SubRow(d, c, raw) == None
  }

  ghost predicate SubsOk(r: R.RouterState, id: ClientId, memo: Memo, d: Disk, c: Text) {
    forall raw :: SubRow(d, c, raw) == RowFor(r, id, memo.forgotten, raw)
  }

  predicate RowsOk(s: SessionState, memo: Memo, d: Disk) {
    && At(d.sessions, s.clientId) == (if s.expiry > 0 then Some(s.expiry) else None)
    && At(d.inflight, s.clientId) == (if memo.unsaved then None else Some(EncodeInflight(s.nextId, s.inflight)))
  }

  /** A session whose expiry interval is 0 has nothing on disk. */
  ghost predicate AllForgotten(r: R.RouterState, id: ClientId, memo: Memo) {
    memo.unsaved && forall key :: R.Granted(r, id, key).Some? ==> key in memo.forgotten
  }

  ghost predicate SessionOk(r: R.RouterState, id: ClientId, s: SessionState, memo: Memo, d: Disk) {
    && RowsOk(s, memo, d) && SubsOk(r, id, memo, d, s.clientId)
    && (s.expiry == 0 ==> AllForgotten(r, id, memo))
  }

  ghost predicate ClientOk(h: HubState, sh: Shadow, d: Disk, c: Text) {
    if c in h.idOf then
      var id := h.idOf[c];
      id in h.byId && id in sh && h.byId[id].clientId == c && SessionOk(h.router, id, h.byId[id], sh[id], d)
    else NoRows(d, c) && NoSubs(d, c)
  }

  ghost predicate ClientsOk(h: HubState, sh: Shadow, d: Disk) {
    && (forall c :: c in h.idOf ==> NUL !in c)
    && (forall c :: c in d.sessions ==> NUL !in c)
    && (forall c :: NUL !in c ==> ClientOk(h, sh, d, c))
  }

  ghost predicate ShelfOk(h: HubState, d: Disk) {
    forall t :: RowAgrees(h.retained, d.retained, t)
  }

  ghost predicate Agree(h: HubState, sh: Shadow) {
    ClientsOk(h, sh, Settled(h)) && ShelfOk(h, Settled(h))
  }

  // ---- frames ----

  ghost predicate SameRows(d: Disk, d': Disk, c: Text) {
    && At(d'.sessions, c) == At(d.sessions, c) && At(d'.inflight, c) == At(d.inflight, c)
    && forall raw :: SubRow(d', c, raw) == SubRow(d, c, raw)
  }

  /** A write about a client changes nobody else's rows. */
  lemma OthersSame(d: Disk, op: PersistOp, c: Text)
    requires About(op) != Some(c) && NUL !in c && (About(op).Some? ==> NUL !in About(op).value)
    ensures SameRows(d, Apply(d, op), c)
  {
    hide Apply, SubRow;
    forall raw ensures SubRow(Apply(d, op), c, raw) == SubRow(d, c, raw) {
      OthersKeepRows(d, op, c, raw);
    }
    OthersKeepRows(d, op, c, []);
  }

  /** Nothing the disk should hold of this client has changed. */
  ghost predicate SameClient(h: HubState, sh: Shadow, h': HubState, sh': Shadow, c: Text) {
    if c in h.idOf then
      var id := h.idOf[c];
      && c in h'.idOf && h'.idOf[c] == id
      && (id in h.byId && id in sh ==>
            && id in h'.byId && id in sh' && sh'[id] == sh[id]
            && h'.byId[id].clientId == h.byId[id].clientId && h'.byId[id].expiry == h.byId[id].expiry
            && EncodeInflight(h'.byId[id].nextId, h'.byId[id].inflight)
            == EncodeInflight(h.byId[id].nextId, h.byId[id].inflight))
      && forall key :: R.Granted(h'.router, id, key) == R.Granted(h.router, id, key)
    else c !in h'.idOf
  }

  lemma ClientFrame(h: HubState, sh: Shadow, d: Disk, h': HubState, sh': Shadow, d': Disk, c: Text)
    requires ClientOk(h, sh, d, c) && SameClient(h, sh, h', sh', c) && SameRows(d, d', c)
    ensures ClientOk(h', sh', d', c)
  {
    hide R.Granted, SubRow, KeyOf, EncodeInflight;
  }

  lemma SettledAfter(h: HubState, h': HubState, ops: seq<PersistOp>)
    requires h'.queue == h.queue + ops && h'.disk == h.disk
    ensures Settled(h') == ApplyAll(Settled(h), ops)
  {
    ApplyMore(h.disk, h.queue, ops);
  }

  /** A step about one client keeps agreement if it does so for that client and leaves the others alone. */
  lemma OneClient(h: HubState, sh: Shadow, d: Disk, h': HubState, sh': Shadow, d': Disk, c0: Text)
    requires ClientsOk(h, sh, d) && NUL !in c0 && ClientOk(h', sh', d', c0)
    requires forall c :: c != c0 && NUL !in c ==> SameClient(h, sh, h', sh', c) && SameRows(d, d', c)
    requires h'.idOf.Keys <= h.idOf.Keys + {c0} && d'.sessions.Keys <= d.sessions.Keys + {c0}
    ensures ClientsOk(h', sh', d')
  {
    hide ClientOk, SameClient, SameRows;
    forall c | NUL !in c ensures ClientOk(h', sh', d', c) {
      if c != c0 {
        ClientFrame(h, sh, d, h', sh', d', c);
      }
    }
  }

  lemma NoClient(h: HubState, sh: Shadow, d: Disk, h': HubState, sh': Shadow, d': Disk)
    requires ClientsOk(h, sh, d)
    requires forall c :: NUL !in c ==> SameClient(h, sh, h', sh', c) && SameRows(d, d', c)
    requires h'.idOf == h.idOf && d'.sessions == d.sessions
    ensures ClientsOk(h', sh', d')
  {
    hide ClientOk, SameClient, SameRows;
    forall c | NUL !in c ensures ClientOk(h', sh', d', c) {
      ClientFrame(h, sh, d, h', sh', d', c);
    }
  }

  // ---- one client's rows ----

  lemma WipeClears(d: Disk, c: Text)
    requires NUL !in c
    ensures NoRows(Apply(d, RemoveSession(c)), c) && NoSubs(Apply(d, RemoveSession(c)), c)
  {
    forall raw ensures SubRow(Apply(d, RemoveSession(c)), c, raw) == None {
      OwnSubRow(d, RemoveSession(c), raw);
    }
    hide SubRow, WithoutPrefix;
  }

  /** Marking a session durable adds its marker and nothing else. */
  lemma MarkerOnly(d: Disk, c: Text, expiry: U32)
    requires NUL !in c
    ensures var d' := Apply(d, PutSession(c, expiry));
            && At(d'.sessions, c) == Some(expiry) && At(d'.inflight, c) == At(d.inflight, c)
            && forall raw :: SubRow(d', c, raw) == SubRow(d, c, raw)
  {
  }

  lemma NewSessionOk(r: R.RouterState, id: ClientId, c: Text, expiry: U32, generation: nat, d: Disk)
    requires NUL !in c && NoRows(d, c) && NoSubs(d, c)
    requires forall key :: R.Granted(r, id, key).None?
    ensures SessionOk(r, id, NewSession(c, Some([]), expiry, generation), NewMemo(expiry), Apply(d, Meta(c, expiry)))
  {
    WipeClears(d, c);
    MarkerOnly(d, c, expiry);
    hide Apply, SubRow, R.Granted, KeyOf, EncodeInflight;
  }

  lemma {:induction false} RearmEncodesSame(q: seq<Entry>, now: int, cfg: RetryConfig)
    ensures EncodeQueue(Sweep(Rearm(now, cfg), q)) == EncodeQueue(q)
  {
    hide Backoff;
    if q != [] {
      var n := |q| - 1;
      RearmEncodesSame(q[..n], now, cfg);
      EncodeLast(q[..n], q[n]);
      EncodeLast(Sweep(Rearm(now, cfg), q[..n]), Rearmed(q[n], now, cfg));
      assert q[..n] + [q[n]] == q;
      EncodeIgnoresDue(q[n], Rearmed(q[n], now, cfg));
    }
  }

  lemma EncodeIgnoresDue(e: Entry, e': Entry)
    requires e.state == e'.state && e.attempts == e'.attempts
    ensures EncodeEntry(e) == EncodeEntry(e')
  {
  }

  lemma {:induction false} EncodeLast(q: seq<Entry>, e: Entry)
    ensures EncodeQueue(q + [e]) == EncodeQueue(q) + EncodeEntry(e)
  {
    hide EncodeEntry;
    if q == [] {
      assert [e][1..] == [];
      assert q + [e] == [e];
    } else {
      assert (q + [e])[1..] == q[1..] + [e];
      EncodeLast(q[1..], e);
    }
  }

  lemma SettledAfterOne(h: HubState, h': HubState, op: PersistOp)
    requires h'.queue == h.queue + [op] && h'.disk == h.disk
    ensures Settled(h') == Apply(Settled(h), op)
  {
    SettledAfter(h, h', [op]);
    hide Apply;
    assert [op][1..] == [];
  }

  lemma SettledAfterNone(h: HubState, h': HubState)
    requires h'.queue == h.queue + [] && h'.disk == h.disk
    ensures Settled(h') == Settled(h)
  {
    assert h.queue + [] == h.queue;
  }

  // ---- connecting and leaving ----

  lemma AboutMeta(c: Text, expiry: U32)
    ensures About(Meta(c, expiry)) == Some(c)
  {
  }

  lemma MetaSessions(d: Disk, c: Text, expiry: U32)
    ensures Apply(d, Meta(c, expiry)).sessions.Keys <= d.sessions.Keys + {c}
  {
  }

  /** A session opened for a client with no rows and no registrations. */
  lemma OpenAgrees(h: HubState, sh: Shadow, h': HubState, sh': Shadow, d: Disk, d1: Disk, c0: Text, expiry: U32)
    requires ClientsOk(h, sh, d) && NUL !in c0
    requires NoRows(d1, c0) && NoSubs(d1, c0) && d1.sessions.Keys <= d.sessions.Keys
    requires forall c :: c != c0 && NUL !in c ==> SameClient(h, sh, h', sh', c) && SameRows(d, d1, c)
    requires h'.idOf == h.idOf[c0 := h.nextRaw] && h.nextRaw in h'.byId && h.nextRaw in sh'
    requires h'.byId[h.nextRaw] == NewSession(c0, Some([]), expiry, h.generation + 1)
    requires sh'[h.nextRaw] == NewMemo(expiry)
    requires forall key :: R.Granted(h'.router, h.nextRaw, key).None?
    ensures ClientsOk(h', sh', Apply(d1, Meta(c0, expiry)))
  {
    hide SameClient, SessionOk, NoSubs, R.Granted, Apply, NoRows;
    var d' := Apply(d1, Meta(c0, expiry));
    NewSessionOk(h'.router, h.nextRaw, c0, expiry, h.generation + 1, d1);
    MetaSessions(d1, c0, expiry);
    AboutMeta(c0, expiry);
    forall c | c != c0 && NUL !in c ensures SameClient(h, sh, h', sh', c) && SameRows(d, d', c) {
      OthersSame(d1, Meta(c0, expiry), c);
    }
    hide ClientsOk;
    OneClient(h, sh, d, h', sh', d', c0);
  }

  lemma NewAgrees(h: HubState, sh: Shadow, client: Text, expiry: U32, now: int, cfg: Config)
    requires TableOk(h) && ClientsOk(h, sh, Settled(h)) && NUL !in client && client !in h.idOf
    ensures var h' := Opened(h.(generation := h.generation + 1), client, expiry);
            ClientsOk(h', sh[h.nextRaw := NewMemo(expiry)], Settled(h'))
  {
    hide SessionOk, NoSubs, R.Granted, Apply, R.Tidy, Settled, NoRows, EncodeInflight;
    var h' := Opened(h.(generation := h.generation + 1), client, expiry);
    var d, sh' := Settled(h), sh[h.nextRaw := NewMemo(expiry)];
    SettledAfterOne(h, h', Meta(client, expiry));
    assert ClientOk(h, sh, d, client);
    forall c | c != client && NUL !in c ensures SameClient(h, sh, h', sh', c) && SameRows(d, d, c) {
      assert ClientOk(h, sh, d, c);
    }
    OpenAgrees(h, sh, h', sh', d, d, client, expiry);
  }

  lemma WipeSessions(d: Disk, c: Text)
    ensures Apply(d, RemoveSession(c)).sessions.Keys <= d.sessions.Keys
  {
  }

  lemma CleanAgrees(h: HubState, sh: Shadow, client: Text, expiry: U32, now: int, cfg: Config)
    requires TableOk(h) && ClientsOk(h, sh, Settled(h)) && NUL !in client && client in h.idOf
    ensures var h' := Opened(Replaced(h.(generation := h.generation + 1), client, h.idOf[client]), client, expiry);
            ClientsOk(h', (sh - {h.idOf[client]})[h.nextRaw := NewMemo(expiry)], Settled(h'))
  {
    hide SessionOk, NoSubs, R.Granted, R.ClientRemoved, Apply, R.Tidy, Settled, NoRows, EncodeInflight;
    var id, d := h.idOf[client], Settled(h);
    var h1 := Replaced(h.(generation := h.generation + 1), client, id);
    var h' := Opened(h1, client, expiry);
    var sh' := (sh - {id})[h.nextRaw := NewMemo(expiry)];
    SettledAfterOne(h, h1, RemoveSession(client));
    SettledAfterOne(h1, h', Meta(client, expiry));
    WipeClears(d, client);
    WipeSessions(d, client);
    R.RemoveClientForAll(h.router, id);
    forall c | c != client && NUL !in c ensures SameClient(h, sh, h', sh', c) && SameRows(d, Settled(h1), c) {
      assert ClientOk(h, sh, d, c);
      OthersSame(d, RemoveSession(client), c);
    }
    OpenAgrees(h, sh, h', sh', d, Settled(h1), client, expiry);
  }

  lemma KeysAreGranted(r: R.RouterState, id: ClientId)
    requires R.Tidy(r)
    ensures forall key :: R.Granted(r, id, key).Some? ==> key in KeysOf(r, id)
  {
    hide R.Granted, R.Registrations, R.Tidy;
    forall key | R.Granted(r, id, key).Some? ensures key in KeysOf(r, id) {
      R.RegistrationsAreGranted(r, id, key);
    }
  }

  lemma ResumedSessionOk(r: R.RouterState, id: ClientId, s: SessionState, memo: Memo, d: Disk,
                         expiry: U32, generation: nat, now: int, cfg: RetryConfig)
    requires SessionOk(r, id, s, memo, d) && NUL !in s.clientId && R.Tidy(r)
    ensures SessionOk(r, id, Stepped(s, Resume(expiry, generation), now, cfg),
                      if expiry == 0 then Memo(KeysOf(r, id), true, true) else memo, Apply(d, Meta(s.clientId, expiry)))
  {
    var s' := Stepped(s, Resume(expiry, generation), now, cfg);
    ResumeKeepsIdentity(s, expiry, generation, now, cfg);
    assert s'.nextId == s.nextId && s'.inflight == Sweep(Rearm(now, cfg), s.inflight) by {
      hide Sweep, Sent;
    }
    RearmEncodesSame(s.inflight, now, cfg);
    KeysAreGranted(r, id);
    WipeClears(d, s.clientId);
    MarkerOnly(d, s.clientId, expiry);
    hide Apply, SubRow, R.Granted, KeyOf, EncodeQueue, Stepped, KeysOf, R.Tidy;
  }

  lemma ResumeAgrees(h: HubState, sh: Shadow, client: Text, expiry: U32, now: int, cfg: Config)
    requires TableOk(h) && ClientsOk(h, sh, Settled(h)) && NUL !in client && client in h.idOf
    ensures var step := Connect(client, false, expiry);
            ClientsOk(After(h, step, now, cfg), MemoAfter(h, sh, step, now, cfg), Settled(After(h, step, now, cfg)))
  {
    hide SessionOk, NoSubs, R.Granted, Apply, Settled, KeysOf, Stepped, NoRows, EncodeInflight;
    var step, id, d := Connect(client, false, expiry), h.idOf[client], Settled(h);
    var h', sh' := After(h, step, now, cfg), MemoAfter(h, sh, step, now, cfg);
    SettledAfterOne(h, h', Meta(client, expiry));
    var d' := Settled(h');
    assert ClientOk(h, sh, d, client);
    ResumedSessionOk(h.router, id, h.byId[id], sh[id], d, expiry, h.generation + 1, now, cfg.retry);
    ResumeKeepsIdentity(h.byId[id], expiry, h.generation + 1, now, cfg.retry);
    MetaSessions(d, client, expiry);
    AboutMeta(client, expiry);
    forall c | c != client && NUL !in c ensures SameClient(h, sh, h', sh', c) && SameRows(d, d', c) {
      assert ClientOk(h, sh, d, c);
      OthersSame(d, Meta(client, expiry), c);
    }
    hide SameRows;
    OneClient(h, sh, d, h', sh', d', client);
  }

  lemma DiscardAgrees(h: HubState, sh: Shadow, id: ClientId)
    requires TableOk(h) && ClientsOk(h, sh, Settled(h)) && id in h.byId
    ensures ClientsOk(Discarded(h, id), sh - {id}, Settled(Discarded(h, id)))
  {
    hide SessionOk, NoSubs, R.Granted, R.ClientRemoved, Apply, Settled, R.Tidy, NoRows, EncodeInflight;
    var h', client, d := Discarded(h, id), h.byId[id].clientId, Settled(h);
    SettledAfterOne(h, h', RemoveSession(client));
    WipeClears(d, client);
    WipeSessions(d, client);
    R.RemoveClientForAll(h.router, id);
    forall c | c != client && NUL !in c ensures SameClient(h, sh, h', sh - {id}, c) && SameRows(d, Settled(h'), c) {
      assert ClientOk(h, sh, d, c);
      OthersSame(d, RemoveSession(client), c);
    }
    hide SameRows;
    OneClient(h, sh, d, h', sh - {id}, Settled(h'), client);
  }

  // ---- subscriptions ----

  /** No other string names the registration that an UNSUBSCRIBE removes. */
  lemma NamedOnce(raw: Text, other: Text)
    requires KeyOf(other) == Some(KeyNamed(raw))
    ensures other == raw
  {
    if ParseShared(raw).Some? {
      KeyOfInjective(other, raw);
    }
  }

  lemma SubscribedSessionOk(r: R.RouterState, id: ClientId, s: SessionState, memo: Memo, d: Disk, raw: Text, qos: QoS)
    requires SessionOk(r, id, s, memo, d) && NUL !in s.clientId && R.Tidy(r) && KeyOf(raw).Some?
    ensures var key := KeyOf(raw).value;
            var r' := R.Subscribed(r, id, key, qos);
            if s.expiry > 0 then
              SessionOk(r', id, s, memo.(forgotten := memo.forgotten - {key}),
                        Apply(d, PutSubscription(s.clientId, raw, qos)))
            else SessionOk(r', id, s, memo.(forgotten := memo.forgotten + {key}), d)
  {
    hide Apply, SubRow, R.Granted, R.Subscribed, KeyOf, EncodeInflight, R.Tidy;
    var key, op := KeyOf(raw).value, PutSubscription(s.clientId, raw, qos);
    R.SubscribeForAll(r, id, key, qos);
    forall raw' ensures SubRow(Apply(d, op), s.clientId, raw')
                     == if raw' == raw then Some(qos) else SubRow(d, s.clientId, raw') {
      OwnSubRow(d, op, raw');
    }
    forall raw' | KeyOf(raw') == Some(key) ensures raw' == raw {
      KeyOfInjective(raw', raw);
    }
    SubOpRows(d, op);
  }

  lemma SubOpRows(d: Disk, op: PersistOp)
    requires op.PutSubscription? || op.RemoveSubscription?
    ensures Apply(d, op).sessions == d.sessions && Apply(d, op).inflight == d.inflight
  {
  }

  lemma UnsubscribedSessionOk(r: R.RouterState, id: ClientId, s: SessionState, memo: Memo, d: Disk, raw: Text)
    requires SessionOk(r, id, s, memo, d) && NUL !in s.clientId && R.Tidy(r)
    ensures var key := KeyNamed(raw);
            SessionOk(R.Unsubscribed(r, id, key), id, s, memo.(forgotten := memo.forgotten - {key}),
                      if s.expiry > 0 then Apply(d, RemoveSubscription(s.clientId, raw)) else d)
  {
    assert KeyOf(raw).Some? ==> KeyOf(raw).value == KeyNamed(raw);
    hide Apply, SubRow, R.Granted, R.Unsubscribed, KeyOf, KeyNamed, EncodeInflight, R.Tidy;
    var key, op := KeyNamed(raw), RemoveSubscription(s.clientId, raw);
    R.UnsubscribeForAll(r, id, key);
    forall raw' ensures SubRow(Apply(d, op), s.clientId, raw')
                     == if raw' == raw then None else SubRow(d, s.clientId, raw') {
      OwnSubRow(d, op, raw');
    }
    forall raw' | KeyOf(raw') == Some(key) ensures raw' == raw {
      NamedOnce(raw, raw');
    }
    assert KeyOf(raw).Some? ==> KeyOf(raw).value == key;
    SubOpRows(d, op);
  }

  lemma SubscribeAgrees(h: HubState, sh: Shadow, id: ClientId, raw: Text, qos: QoS, now: int, cfg: Config)
    requires TableOk(h) && ClientsOk(h, sh, Settled(h))
    ensures var step := Subscribe(id, raw, qos);
            ClientsOk(After(h, step, now, cfg), MemoAfter(h, sh, step, now, cfg), Settled(After(h, step, now, cfg)))
  {
    hide SessionOk, NoSubs, R.Granted, R.Subscribed, Apply, Settled, R.Tidy, NoRows, EncodeInflight, KeyOf;
    var step, d := Subscribe(id, raw, qos), Settled(h);
    var h', sh' := After(h, step, now, cfg), MemoAfter(h, sh, step, now, cfg);
    if KeyOf(raw).Some? {
      R.SubscribeForAll(h.router, id, KeyOf(raw).value, qos);
      if id in h.byId {
        var client := h.byId[id].clientId;
        var op := PutSubscription(client, raw, qos);
        assert ClientOk(h, sh, d, client);
        SubscribedSessionOk(h.router, id, h.byId[id], sh[id], d, raw, qos);
        if h.byId[id].expiry > 0 {
          SettledAfterOne(h, h', op);
        } else {
          SettledAfterNone(h, h');
        }
        PutSubSessions(d, op);
        forall c | c != client && NUL !in c ensures SameClient(h, sh, h', sh', c) && SameRows(d, Settled(h'), c) {
          assert ClientOk(h, sh, d, c);
          OthersSame(d, op, c);
        }
        hide SameRows;
        OneClient(h, sh, d, h', sh', Settled(h'), client);
      } else {
        SettledAfterNone(h, h');
        forall c | NUL !in c ensures SameClient(h, sh, h', sh', c) && SameRows(d, d, c) {
          assert ClientOk(h, sh, d, c);
        }
        NoClient(h, sh, d, h', sh', d);
      }
    }
  }

  lemma PutSubSessions(d: Disk, op: PersistOp)
    requires op.PutSubscription? || op.RemoveSubscription? || op.PutInflight?
    ensures Apply(d, op).sessions == d.sessions
  {
  }

  lemma UnsubscribeAgrees(h: HubState, sh: Shadow, id: ClientId, raw: Text, now: int, cfg: Config)
    requires TableOk(h) && ClientsOk(h, sh, Settled(h))
    ensures var step := Unsubscribe(id, raw);
            ClientsOk(After(h, step, now, cfg), MemoAfter(h, sh, step, now, cfg), Settled(After(h, step, now, cfg)))
  {
    hide SessionOk, NoSubs, R.Granted, R.Unsubscribed, Apply, Settled, R.Tidy, NoRows, EncodeInflight, KeyNamed;
    var step, d := Unsubscribe(id, raw), Settled(h);
    var h', sh' := After(h, step, now, cfg), MemoAfter(h, sh, step, now, cfg);
    R.UnsubscribeForAll(h.router, id, KeyNamed(raw));
    if id in h.byId {
      var client := h.byId[id].clientId;
      var op := RemoveSubscription(client, raw);
      assert ClientOk(h, sh, d, client);
      UnsubscribedSessionOk(h.router, id, h.byId[id], sh[id], d, raw);
      if h.byId[id].expiry > 0 {
        SettledAfterOne(h, h', op);
      } else {
        SettledAfterNone(h, h');
      }
      PutSubSessions(d, op);
      forall c | c != client && NUL !in c ensures SameClient(h, sh, h', sh', c) && SameRows(d, Settled(h'), c) {
        assert ClientOk(h, sh, d, c);
        OthersSame(d, op, c);
      }
      hide SameRows;
      OneClient(h, sh, d, h', sh', Settled(h'), client);
    } else {
      SettledAfterNone(h, h');
      forall c | NUL !in c ensures SameClient(h, sh, h', sh', c) && SameRows(d, d, c) {
        assert ClientOk(h, sh, d, c);
      }
      NoClient(h, sh, d, h', sh', d);
    }
  }

  // ---- the queue ----

  lemma NotDueUnchanged(q: seq<Entry>, now: int, cfg: RetryConfig)
    requires !AnyDue(q, now)
    ensures Sweep(Retry(now, cfg), q) == q
  {
    hide Bumped, Mortal, Sweep;
    SweepAll(Retry(now, cfg), q, q);
  }

  /** An act that is not followed by a write has not changed what would be written. */
  lemma UnsavedIsUnchanged(s: SessionState, act: Act, now: int, cfg: RetryConfig)
    requires Ordinary(act) && !Saves(s, act, now)
    ensures var s' := Stepped(s, act, now, cfg); s'.nextId == s.nextId && s'.inflight == s.inflight
  {
    if act.Tick? && s.tx.Some? {
      NotDueUnchanged(s.inflight, now, cfg);
    }
    hide Sweep, Sent;
  }

  lemma {:induction false} NoneSaved(s: SessionState, acts: seq<Act>, now: int, cfg: RetryConfig)
    requires forall i :: 0 <= i < |acts| ==> Ordinary(acts[i])
    requires !SavesAny(s, acts, now, cfg)
    ensures var s' := SteppedAll(s, acts, now, cfg); s'.nextId == s.nextId && s'.inflight == s.inflight
    decreases |acts|
  {
    hide Stepped, Saves;
    if acts != [] {
      UnsavedIsUnchanged(s, acts[0], now, cfg);
      NoneSaved(Stepped(s, acts[0], now, cfg), acts[1..], now, cfg);
    }
  }

  lemma SavedSessionOk(r: R.RouterState, id: ClientId, s: SessionState, s': SessionState, memo: Memo, d: Disk)
    requires SessionOk(r, id, s, memo, d) && s'.clientId == s.clientId && s'.expiry == s.expiry && s.expiry > 0
    requires NUL !in s.clientId
    ensures var op := PutInflight(s.clientId, EncodeInflight(s'.nextId, s'.inflight));
            SessionOk(r, id, s', memo.(unsaved := false), Apply(d, op))
  {
    hide R.Granted, KeyOf, EncodeQueue;
    var op := PutInflight(s.clientId, EncodeInflight(s'.nextId, s'.inflight));
    assert op.blob != [];
    forall raw ensures SubRow(Apply(d, op), s.clientId, raw) == SubRow(d, s.clientId, raw) {
      OwnSubRow(d, op, raw);
    }
    assert At(Apply(d, op).sessions, s.clientId) == At(d.sessions, s.clientId);
    assert At(Apply(d, op).inflight, s.clientId) == Some(op.blob);
    hide Apply, SubRow, EncodeInflight;
  }

  lemma QuietSessionOk(r: R.RouterState, id: ClientId, s: SessionState, s': SessionState, memo: Memo, d: Disk)
    requires SessionOk(r, id, s, memo, d) && s'.clientId == s.clientId && s'.expiry == s.expiry
    requires (s'.nextId == s.nextId && s'.inflight == s.inflight) || s.expiry == 0
    ensures SessionOk(r, id, s', memo, d)
  {
    hide R.Granted, KeyOf, EncodeInflight, SubRow;
  }

  /** One session's state replaced, with or without a write of its queue. */
  lemma UpdateAgrees(h: HubState, sh: Shadow, id: ClientId, h': HubState, sh': Shadow, s': SessionState, saved: bool)
    requires TableOk(h) && ClientsOk(h, sh, Settled(h)) && id in h.byId && id in sh
    requires var s := h.byId[id];
             && s'.clientId == s.clientId && s'.expiry == s.expiry
             && (saved || (s'.nextId == s.nextId && s'.inflight == s.inflight))
    requires h'.byId == h.byId[id := s'] && h'.idOf == h.idOf && h'.router == h.router && h'.disk == h.disk
    requires h'.queue == h.queue + if saved then Snapshot(s') else []
    requires sh' == if saved && s'.expiry > 0 then sh[id := sh[id].(unsaved := false)] else sh
    ensures ClientsOk(h', sh', Settled(h'))
  {
    hide SessionOk, NoSubs, R.Granted, Apply, Settled, R.Tidy, NoRows, EncodeInflight;
    var s, d := h.byId[id], Settled(h);
    var client := s.clientId;
    var op := PutInflight(client, EncodeInflight(s'.nextId, s'.inflight));
    assert ClientOk(h, sh, d, client);
    if saved && s.expiry > 0 {
      SettledAfterOne(h, h', op);
      SavedSessionOk(h.router, id, s, s', sh[id], d);
    } else {
      SettledAfterNone(h, h');
      QuietSessionOk(h.router, id, s, s', sh[id], d);
    }
    PutSubSessions(d, op);
    forall c | c != client && NUL !in c ensures SameClient(h, sh, h', sh', c) && SameRows(d, Settled(h'), c) {
      assert ClientOk(h, sh, d, c);
      OthersSame(d, op, c);
    }
    hide SameRows;
    OneClient(h, sh, d, h', sh', Settled(h'), client);
  }

  lemma TouchAgrees(h: HubState, sh: Shadow, id: ClientId, acts: seq<Act>, now: int, cfg: Config)
    requires TableOk(h) && ClientsOk(h, sh, Settled(h)) && Legal(h, Touch(id, acts))
    ensures var step := Touch(id, acts);
            ClientsOk(After(h, step, now, cfg), MemoAfter(h, sh, step, now, cfg), Settled(After(h, step, now, cfg)))
  {
    hide SessionOk, NoSubs, R.Granted, Apply, Settled, R.Tidy, NoRows, EncodeInflight, SteppedAll, SavesAny, NoRows;
    var step := Touch(id, acts);
    if id in h.byId {
      var s := h.byId[id];
      var saved := SavesAny(s, acts, now, cfg.retry);
      assert ClientOk(h, sh, Settled(h), s.clientId);
      ActsKeepIdentity(s, acts, now, cfg.retry);
      if !saved {
        NoneSaved(s, acts, now, cfg.retry);
      }
      hide ClientsOk, Snapshot;
      UpdateAgrees(h, sh, id, After(h, step, now, cfg), MemoAfter(h, sh, step, now, cfg),
                   SteppedAll(s, acts, now, cfg.retry), saved);
    }
  }

  // ---- the rest ----

  /** Steps that touch no client's rows and no session. */
  lemma ElsewhereAgrees(h: HubState, sh: Shadow, h': HubState, op: PersistOp)
    requires ClientsOk(h, sh, Settled(h)) && About(op).None?
    requires h'.byId == h.byId && h'.idOf == h.idOf && h'.router == h.router
    requires h'.queue == h.queue + [op] && h'.disk == h.disk
    ensures ClientsOk(h', sh, Settled(h'))
  {
    hide R.Granted, Settled, EncodeInflight, ClientOk;
    SettledAfterOne(h, h', op);
    forall c | NUL !in c ensures SameClient(h, sh, h', sh, c) && SameRows(Settled(h), Settled(h'), c) {
      hide Apply;
      OthersSame(Settled(h), op, c);
    }
    assert Settled(h').sessions == Settled(h).sessions;
    hide SameRows, SameClient, Apply;
    NoClient(h, sh, Settled(h), h', sh, Settled(h'));
  }

  lemma RouteAgrees(h: HubState, sh: Shadow, topic: Text)
    requires TableOk(h) && ClientsOk(h, sh, Settled(h))
    ensures var h' := h.(router := R.Advanced(h.router, topic)); ClientsOk(h', sh, Settled(h'))
  {
    hide R.Granted, R.Advanced, R.Tidy, EncodeInflight, ClientOk;
    var h' := h.(router := R.Advanced(h.router, topic));
    AdvanceKeepsGrants(h.router, topic);
    forall c | NUL !in c ensures SameClient(h, sh, h', sh, c) && SameRows(Settled(h), Settled(h'), c) {
    }
    hide SameRows, SameClient;
    NoClient(h, sh, Settled(h), h', sh, Settled(h'));
  }

  /** The worker's writes were counted when they were queued. */
  lemma WriteSettles(h: HubState)
    ensures Settled(Written(h)) == Settled(h)
  {
    hide Apply;
  }

  lemma LeaveAgrees(h: HubState, sh: Shadow, id: ClientId, generation: nat, now: int, cfg: Config)
    requires TableOk(h) && ClientsOk(h, sh, Settled(h))
    ensures var step := Leave(id, generation);
            ClientsOk(After(h, step, now, cfg), MemoAfter(h, sh, step, now, cfg), Settled(After(h, step, now, cfg)))
  {
    hide SessionOk, NoSubs, R.Granted, Apply, Settled, R.Tidy, NoRows, EncodeInflight, Discarded;
    if Current(h, id, generation) {
      var s := h.byId[id];
      if s.expiry == 0 {
        DiscardAgrees(h, sh, id);
      } else {
        assert ClientOk(h, sh, Settled(h), s.clientId);
        var h' := Left(h, id, generation);
        assert h'.queue == h.queue + [];
        hide ClientsOk;
        UpdateAgrees(h, sh, id, h', sh, s.(tx := None), false);
      }
    }
  }

  lemma StepKeepsClients(h: HubState, sh: Shadow, step: Step, now: int, cfg: Config)
    requires TableOk(h) && ClientsOk(h, sh, Settled(h)) && Legal(h, step) && NulFree(step)
    ensures ClientsOk(After(h, step, now, cfg), MemoAfter(h, sh, step, now, cfg), Settled(After(h, step, now, cfg)))
  {
    hide ClientsOk, Opened, Replaced, Discarded, Settled, TableOk, SubscribedTo, UnsubscribedFrom, Touched, Left,
         Written, SavesAny, KeysOf, Stepped;
    match step
    case Connect(client, cleanStart, expiry) =>
      if client !in h.idOf {
        NewAgrees(h, sh, client, expiry, now, cfg);
      } else if cleanStart {
        CleanAgrees(h, sh, client, expiry, now, cfg);
      } else {
        ResumeAgrees(h, sh, client, expiry, now, cfg);
      }
    case Leave(id, generation) => LeaveAgrees(h, sh, id, generation, now, cfg);
    case Purge(id, generation) =>
      if Expired(h, id, generation) {
        DiscardAgrees(h, sh, id);
      }
    case Subscribe(id, raw, qos) => SubscribeAgrees(h, sh, id, raw, qos, now, cfg);
    case Unsubscribe(id, raw) => UnsubscribeAgrees(h, sh, id, raw, now, cfg);
    case Touch(id, acts) => TouchAgrees(h, sh, id, acts, now, cfg);
    case Retain(topic, payload, qos) =>
      ElsewhereAgrees(h, sh, After(h, step, now, cfg), PutRetained(topic, payload, qos));
    case Route(topic) => RouteAgrees(h, sh, topic);
    case Journal(entry) =>
      ElsewhereAgrees(h, sh, After(h, step, now, cfg), entry);
    case Write =>
      WriteSettles(h);
      WriteKeepsMemory(h, sh, Settled(h));
  }

  lemma WriteKeepsMemory(h: HubState, sh: Shadow, d: Disk)
    requires ClientsOk(h, sh, d)
    ensures ClientsOk(Written(h), sh, d)
  {
    hide SessionOk, NoSubs, NoRows, Apply;
    forall c | NUL !in c ensures ClientOk(Written(h), sh, d, c) {
      assert ClientOk(h, sh, d, c);
    }
  }

  // ---- the retained messages ----

  lemma ShelfSame(h: HubState, h': HubState, ops: seq<PersistOp>)
    requires ShelfOk(h, Settled(h)) && h'.retained == h.retained
    requires h'.queue == h.queue + ops && h'.disk == h.disk && forall op :: op in ops ==> !op.PutRetained?
    ensures ShelfOk(h', Settled(h'))
  {
    hide RowAgrees;
    SettledAfter(h, h', ops);
    hide Settled;
    ShelfUntouched(Settled(h), ops);
  }

  lemma OneOpKeepsShelf(d: Disk, op: PersistOp)
    requires !op.PutRetained?
    ensures Apply(d, op).retained == d.retained
  {
  }

  lemma {:induction false} ShelfUntouched(d: Disk, ops: seq<PersistOp>)
    requires forall op :: op in ops ==> !op.PutRetained?
    ensures ApplyAll(d, ops).retained == d.retained
    decreases |ops|
  {
    hide Apply;
    if ops != [] {
      assert ops[0] in ops && forall op :: op in ops[1..] ==> op in ops;
      OneOpKeepsShelf(d, ops[0]);
      ShelfUntouched(Apply(d, ops[0]), ops[1..]);
    }
  }

  /** The writes a step queues. */
  function Queued(h: HubState, step: Step, now: int, cfg: Config): seq<PersistOp> {
    match step
    case Connect(client, cleanStart, expiry) =>
      if client in h.idOf && cleanStart then [RemoveSession(client), Meta(client, expiry)]
      else if client in h.idOf && h.idOf[client] !in h.byId then []
      else [Meta(client, expiry)]
    case Leave(id, generation) =>
      if Current(h, id, generation) && h.byId[id].expiry == 0 then [RemoveSession(h.byId[id].clientId)] else []
    case Purge(id, generation) => if Expired(h, id, generation) then [RemoveSession(h.byId[id].clientId)] else []
    case Subscribe(id, raw, qos) =>
      if KeyOf(raw).Some? && Durable(h, id) then [PutSubscription(h.byId[id].clientId, raw, qos)] else []
    case Unsubscribe(id, raw) => if Durable(h, id) then [RemoveSubscription(h.byId[id].clientId, raw)] else []
    case Touch(id, acts) =>
      if id in h.byId && SavesAny(h.byId[id], acts, now, cfg.retry)
      then Snapshot(SteppedAll(h.byId[id], acts, now, cfg.retry)) else []
    case Retain(topic, payload, qos) => [PutRetained(topic, payload, qos)]
    case Journal(entry) => [entry]
    case _ => []
  }

  lemma QueueGrows(h: HubState, step: Step, now: int, cfg: Config)
    requires !step.Write?
    ensures var h' := After(h, step, now, cfg);
            h'.queue == h.queue + Queued(h, step, now, cfg) && h'.disk == h.disk
  {
    hide Stepped, SteppedAll, SavesAny, Snapshot, Meta, KeyOf, KeyNamed, Shelved,
         R.Subscribed, R.Unsubscribed, R.ClientRemoved, R.Advanced;
    assert h.queue + [] == h.queue;
    if step.Connect? {
      var a, b := RemoveSession(step.client), Meta(step.client, step.expiry);
      assert (h.queue + [a]) + [b] == h.queue + [a, b];
    }
  }

  lemma QueuedKinds(h: HubState, step: Step, now: int, cfg: Config)
    requires Legal(h, step)
    ensures forall op :: op in Queued(h, step, now, cfg) ==>
      (op.PutRetained? ==> step.Retain?) && (op.AppendEvent? || op.AppendDeadLetter? ==> step.Journal?)
  {
    hide SteppedAll, SavesAny, EncodeInflight, KeyOf;
  }

  lemma QueuesMore(h: HubState, step: Step, now: int, cfg: Config)
    requires !step.Write? && !step.Retain? && Legal(h, step)
    ensures var h', ops := After(h, step, now, cfg), Queued(h, step, now, cfg);
            && h'.queue == h.queue + ops && h'.disk == h.disk && h'.retained == h.retained
            && forall op :: op in ops ==> !op.PutRetained?
  {
    QueueGrows(h, step, now, cfg);
    QueuedKinds(h, step, now, cfg);
    hide Queued, Stepped, SteppedAll, SavesAny, KeyOf, KeyNamed,
         R.Subscribed, R.Unsubscribed, R.ClientRemoved, R.Advanced;
  }

  lemma StepKeepsShelf(h: HubState, step: Step, now: int, cfg: Config)
    requires ShelfOk(h, Settled(h)) && Legal(h, step)
    ensures ShelfOk(After(h, step, now, cfg), Settled(After(h, step, now, cfg)))
  {
    var h' := After(h, step, now, cfg);
    if step.Write? {
      WriteSettles(h);
    } else if step.Retain? {
      SettledAfterOne(h, h', PutRetained(step.topic, step.payload, step.qos));
      hide Settled, RowAgrees, Shelved, Apply;
      forall t ensures RowAgrees(h'.retained, Settled(h').retained, t) {
        PutRetainedAgrees(h.retained, Settled(h), step.topic, step.payload, step.qos, t);
      }
    } else {
      hide After, Settled, ShelfOk, Queued;
      QueuesMore(h, step, now, cfg);
      ShelfSame(h, h', Queued(h, step, now, cfg));
    }
  }

  // ---- sessions durable since their creation ----

  /** Nothing of a session that has always been durable is missing on disk. */
  predicate Whole(s: SessionState, memo: Memo) {
    !memo.lapsed ==> s.expiry > 0 && memo.forgotten == {} && (memo.unsaved ==> s.nextId == 1 && s.inflight == [])
  }

  predicate AllWhole(h: HubState, sh: Shadow) {
    forall id :: id in h.byId && id in sh ==> Whole(h.byId[id], sh[id])
  }

  lemma ResumeKeepsEmpty(s: SessionState, expiry: U32, generation: nat, now: int, cfg: RetryConfig)
    ensures var s' := Stepped(s, Resume(expiry, generation), now, cfg);
            s'.nextId == s.nextId && (s.inflight == [] ==> s'.inflight == [])
  {
  }

  lemma StepKeepsWhole(h: HubState, sh: Shadow, step: Step, now: int, cfg: Config)
    requires AllWhole(h, sh) && Inverse(h) && Legal(h, step)
    ensures AllWhole(After(h, step, now, cfg), MemoAfter(h, sh, step, now, cfg))
  {
    hide Stepped, SteppedAll, SavesAny, Snapshot, KeyOf, KeyNamed, KeysOf,
         R.Subscribed, R.Unsubscribed, R.ClientRemoved, R.Advanced;
    match step
    case Connect(client, _, expiry) =>
      if client in h.idOf {
        ResumeKeepsIdentity(h.byId[h.idOf[client]], expiry, h.generation + 1, now, cfg.retry);
        ResumeKeepsEmpty(h.byId[h.idOf[client]], expiry, h.generation + 1, now, cfg.retry);
      }
    case Touch(id, acts) =>
      if id in h.byId {
        ActsKeepIdentity(h.byId[id], acts, now, cfg.retry);
        if !SavesAny(h.byId[id], acts, now, cfg.retry) {
          NoneSaved(h.byId[id], acts, now, cfg.retry);
        }
      }
    case _ =>
  }

  // ---- whole runs ----

  function MemoAll(h: HubState, sh: Shadow, run: Run, cfg: Config): Shadow {
    if run == [] then sh
    else
      var n := |run| - 1;
      MemoAfter(AfterAll(h, run[..n], cfg), MemoAll(h, sh, run[..n], cfg), run[n].0, run[n].1, cfg)
  }

  ghost predicate Healthy(h: HubState, sh: Shadow) {
    TableOk(h) && Agree(h, sh) && AllWhole(h, sh)
  }

  lemma StepKeepsHealth(h: HubState, sh: Shadow, step: Step, now: int, cfg: Config)
    requires Healthy(h, sh) && Legal(h, step) && NulFree(step)
    ensures Healthy(After(h, step, now, cfg), MemoAfter(h, sh, step, now, cfg))
  {
    hide After, MemoAfter, ClientsOk, ShelfOk, AllWhole, Settled;
    StepKeepsTable(h, step, now, cfg);
    StepKeepsClients(h, sh, step, now, cfg);
    StepKeepsShelf(h, step, now, cfg);
    StepKeepsWhole(h, sh, step, now, cfg);
  }

  /** In every state of every run, the disk as it will be once the queue drains agrees with memory. */
  lemma {:induction false} EveryRunAgrees(h: HubState, sh: Shadow, run: Run, cfg: Config)
    requires Healthy(h, sh) && LegalRun(h, run, cfg) && NulFreeRun(run)
    ensures Healthy(AfterAll(h, run, cfg), MemoAll(h, sh, run, cfg))
  {
    hide After, MemoAfter, Healthy, Legal, LegalRun;
    if run != [] {
      var n := |run| - 1;
      LegalLast(h, run, cfg);
      EveryRunAgrees(h, sh, run[..n], cfg);
      StepKeepsHealth(AfterAll(h, run[..n], cfg), MemoAll(h, sh, run[..n], cfg), run[n].0, run[n].1, cfg);
    }
  }

  lemma FirstHealthy()
    ensures Healthy(FIRST, map[])
  {
    FirstTable();
  }
}
