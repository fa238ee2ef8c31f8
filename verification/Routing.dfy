/** Subscriptions and message routing (crates/relay-core/src/router.rs). */
module Routing {
  import opened Basics
  import opened Topics

  /** A subscription: what it is on, and the QoS granted to it. */
  datatype Row<K> = Row(key: K, qos: QoS)

  /** A share group. Members are (client, filter) pairs; the cursor is a 64-bit machine word. */
  datatype Group = Group(members: seq<Row<(ClientId, Text)>>, cursor: U64)

  datatype RouterState = RouterState(normal: map<ClientId, seq<Row<Text>>>, shared: map<Text, Group>)

  type Target = (ClientId, QoS)

  // ---- lists of subscriptions ----

  predicate Distinct<K(==)>(rows: seq<Row<K>>) {
    forall i, j :: 0 <= i < j < |rows| ==> rows[i].key != rows[j].key
  }

  /** Position of the first row with this key, or the length. */
  function Find<K(==)>(rows: seq<Row<K>>, key: K): (i: nat)
    ensures i <= |rows|
    ensures i < |rows| ==> rows[i].key == key
    ensures forall k :: 0 <= k < i ==> rows[k].key != key
  {
    if rows == [] then 0 else if rows[0].key == key then 0 else 1 + Find(rows[1..], key)
  }

  function Lookup<K(==)>(rows: seq<Row<K>>, key: K): Option<QoS> {
    var i := Find(rows, key);
    if i < |rows| then Some(rows[i].qos) else None
  }

  function Put<K(==)>(rows: seq<Row<K>>, key: K, qos: QoS): seq<Row<K>> {
    var i := Find(rows, key);
    if i < |rows| then rows[i := Row(key, qos)] else rows + [Row(key, qos)]
  }

  function Drop<K(==)>(rows: seq<Row<K>>, key: K): seq<Row<K>> {
    if rows == [] then [] else (if rows[0].key == key then [] else [rows[0]]) + Drop(rows[1..], key)
  }

  function DropClient(rows: seq<Row<(ClientId, Text)>>, client: ClientId): seq<Row<(ClientId, Text)>> {
    if rows == [] then []
    else (if rows[0].key.0 == client then [] else [rows[0]]) + DropClient(rows[1..], client)
  }

  /** In a list without duplicates, looking up finds exactly what is listed. */
  lemma LookupIsListed<K>(rows: seq<Row<K>>, key: K, qos: QoS)
    requires Distinct(rows)
    ensures Lookup(rows, key) == Some(qos) <==> Row(key, qos) in rows
  {
  }

  lemma SameLookup<K>(a: seq<Row<K>>, b: seq<Row<K>>, key: K)
    requires Distinct(a) && Distinct(b)
    requires forall qos :: Row(key, qos) in a <==> Row(key, qos) in b
    ensures Lookup(a, key) == Lookup(b, key)
  {
    forall qos ensures Lookup(a, key) == Some(qos) <==> Lookup(b, key) == Some(qos) {
      LookupIsListed(a, key, qos);
      LookupIsListed(b, key, qos);
    }
    hide Lookup;
    if Lookup(a, key).Some? {
      assert Lookup(b, key) == Some(Lookup(a, key).value);
    } else if Lookup(b, key).Some? {
      assert Lookup(a, key) == Some(Lookup(b, key).value);
    }
  }

  lemma PutListed<K>(rows: seq<Row<K>>, key: K, qos: QoS)
    requires Distinct(rows)
    ensures Distinct(Put(rows, key, qos)) && Put(rows, key, qos) != []
    ensures forall x :: x in Put(rows, key, qos) <==> x == Row(key, qos) || (x in rows && x.key != key)
  {
    var i, rows' := Find(rows, key), Put(rows, key, qos);
    forall x | x in rows && x.key != key ensures x in rows' {
      var j :| 0 <= j < |rows| && rows[j] == x;
      assert rows'[j] == x;
    }
    assert rows'[i] == Row(key, qos);
  }

  lemma LookupOfPut<K>(rows: seq<Row<K>>, key: K, qos: QoS, other: K)
    requires Distinct(rows)
    ensures Distinct(Put(rows, key, qos)) && Put(rows, key, qos) != []
    ensures Lookup(Put(rows, key, qos), other) == if other == key then Some(qos) else Lookup(rows, other)
  {
    PutListed(rows, key, qos);
    hide Put, Lookup;
    if other == key {
      LookupIsListed(Put(rows, key, qos), key, qos);
    } else {
      SameLookup(Put(rows, key, qos), rows, other);
    }
  }

  lemma {:induction false} DropListed<K>(rows: seq<Row<K>>, key: K)
    requires Distinct(rows)
    ensures Distinct(Drop(rows, key))
    ensures forall x :: x in Drop(rows, key) <==> x in rows && x.key != key
  {
    if rows != [] {
      DropListed(rows[1..], key);
      assert forall x :: x in rows <==> x == rows[0] || x in rows[1..];
    }
  }

  lemma {:induction false} DropLength<K>(rows: seq<Row<K>>, key: K)
    requires Distinct(rows)
    ensures |Drop(rows, key)| == |rows| - if Lookup(rows, key).Some? then 1 else 0
  {
    if rows != [] {
      DropLength(rows[1..], key);
      if rows[0].key == key {
        assert forall i :: 0 <= i < |rows[1..]| ==> rows[1..][i] == rows[i + 1];
      }
    }
  }

  lemma LookupOfDrop<K>(rows: seq<Row<K>>, key: K, other: K)
    requires Distinct(rows)
    ensures Distinct(Drop(rows, key))
    ensures Lookup(Drop(rows, key), other) == if other == key then None else Lookup(rows, other)
  {
    DropListed(rows, key);
    if other == key {
      var i := Find(Drop(rows, key), key);
      assert i < |Drop(rows, key)| ==> Drop(rows, key)[i] in Drop(rows, key);
    } else {
      hide Drop, Lookup;
      SameLookup(Drop(rows, key), rows, other);
    }
  }

  lemma {:induction false} DropClientMembers(rows: seq<Row<(ClientId, Text)>>, client: ClientId)
    ensures forall x :: x in DropClient(rows, client) <==> x in rows && x.key.0 != client
  {
    if rows != [] {
      DropClientMembers(rows[1..], client);
      assert forall x :: x in rows <==> x == rows[0] || x in rows[1..];
    }
  }

  lemma {:induction false} DropClientListed(rows: seq<Row<(ClientId, Text)>>, client: ClientId)
    requires Distinct(rows)
    ensures Distinct(DropClient(rows, client))
    ensures forall x :: x in DropClient(rows, client) <==> x in rows && x.key.0 != client
  {
    DropClientMembers(rows, client);
    if rows != [] {
      DropClientListed(rows[1..], client);
      forall x | x in DropClient(rows[1..], client) ensures x.key != rows[0].key {
        var i :| 0 <= i < |rows[1..]| && rows[1..][i] == x;
        assert rows[i + 1] == x;
      }
    }
  }

  lemma LookupOfDropClient(rows: seq<Row<(ClientId, Text)>>, client: ClientId, other: (ClientId, Text))
    requires Distinct(rows)
    ensures Distinct(DropClient(rows, client))
    ensures Lookup(DropClient(rows, client), other) == if other.0 == client then None else Lookup(rows, other)
  {
    DropClientListed(rows, client);
    if other.0 == client {
      var i := Find(DropClient(rows, client), other);
      assert i < |DropClient(rows, client)| ==> DropClient(rows, client)[i] in DropClient(rows, client);
    } else {
      hide DropClient, Lookup;
      SameLookup(DropClient(rows, client), rows, other);
    }
  }

  // ---- the nested tables, and the flat relation they stand for ----

  /** No duplicate registration and no empty entry. */
  predicate Tidy(r: RouterState) {
    && (forall c :: c in r.normal ==> r.normal[c] != [] && Distinct(r.normal[c]))
    && (forall g :: g in r.shared ==> r.shared[g].members != [] && Distinct(r.shared[g].members))
  }

  function SubsOf(r: RouterState, client: ClientId): seq<Row<Text>> {
    if client in r.normal then r.normal[client] else []
  }

  function GroupOf(r: RouterState, name: Text): Group {
    if name in r.shared then r.shared[name] else Group([], 0)
  }

  /** The flat relation: the QoS granted to a client for a registration, if it has it. */
  function Granted(r: RouterState, client: ClientId, key: Key): Option<QoS> {
    match key
    case Normal(filter) => Lookup(SubsOf(r, client), filter)
    case Shared(group, filter) => Lookup(GroupOf(r, group).members, (client, filter))
  }

  function Subscribed(r: RouterState, client: ClientId, key: Key, qos: QoS): RouterState {
    match key
    case Normal(filter) => r.(normal := r.normal[client := Put(SubsOf(r, client), filter, qos)])
    case Shared(group, filter) =>
      var g := GroupOf(r, group);
      r.(shared := r.shared[group := g.(members := Put(g.members, (client, filter), qos))])
  }

  function Unsubscribed(r: RouterState, client: ClientId, key: Key): RouterState {
    match key
    case Normal(filter) =>
      if client !in r.normal then r
      else
        var rows := Drop(r.normal[client], filter);
        r.(normal := if rows == [] then r.normal - {client} else r.normal[client := rows])
    case Shared(group, filter) =>
      if group !in r.shared then r
      else
        var rows := Drop(r.shared[group].members, (client, filter));
        r.(shared := if rows == [] then r.shared - {group} else r.shared[group := r.shared[group].(members := rows)])
  }

  function ClientRemoved(r: RouterState, client: ClientId): RouterState {
    RouterState(
      r.normal - {client},
      map g | g in r.shared && DropClient(r.shared[g].members, client) != [] ::
        r.shared[g].(members := DropClient(r.shared[g].members, client)))
  }

  /** Subscribing adds or replaces exactly one registration. */
  lemma SubscribeUpdatesRelation(r: RouterState, client: ClientId, key: Key, qos: QoS, client': ClientId, key': Key)
    requires Tidy(r)
    ensures Tidy(Subscribed(r, client, key, qos))
    ensures Granted(Subscribed(r, client, key, qos), client', key')
         == if client' == client && key' == key then Some(qos) else Granted(r, client', key')
  {
    hide Put, Lookup;
    match key
    case Normal(filter) =>
      LookupOfPut(SubsOf(r, client), filter, qos, if key'.Normal? then key'.filter else filter);
    case Shared(group, filter) =>
      LookupOfPut(GroupOf(r, group).members, (client, filter), qos,
                  (client', if key'.Shared? then key'.filter else filter));
  }

  lemma LookupNothing<K>(key: K)
    ensures Lookup<K>([], key) == None
  {
  }

  /** Unsubscribing removes exactly one registration. */
  lemma UnsubscribeUpdatesRelation(r: RouterState, client: ClientId, key: Key, client': ClientId, key': Key)
    requires Tidy(r)
    ensures Tidy(Unsubscribed(r, client, key))
    ensures Granted(Unsubscribed(r, client, key), client', key')
         == if client' == client && key' == key then None else Granted(r, client', key')
  {
    hide Drop, Lookup;
    match key
    case Normal(filter) =>
      var other := if key'.Normal? then key'.filter else filter;
      LookupOfDrop(SubsOf(r, client), filter, other);
      LookupNothing(other);
    case Shared(group, filter) =>
      var other := (client', if key'.Shared? then key'.filter else filter);
      LookupOfDrop(GroupOf(r, group).members, (client, filter), other);
      LookupNothing(other);
  }

  /** Removing a client removes all of its registrations and no others. */
  lemma RemoveClientUpdatesRelation(r: RouterState, client: ClientId, client': ClientId, key': Key)
    requires Tidy(r)
    ensures Tidy(ClientRemoved(r, client))
    ensures Granted(ClientRemoved(r, client), client', key')
         == if client' == client then None else Granted(r, client', key')
  {
    hide DropClient, Lookup;
    forall g | g in r.shared ensures Distinct(DropClient(r.shared[g].members, client)) {
      LookupOfDropClient(r.shared[g].members, client, (client', []));
    }
    match key'
    case Normal(filter) =>
      LookupNothing(filter);
    case Shared(group, filter) =>
      LookupNothing((client', filter));
      LookupOfDropClient(GroupOf(r, group).members, client, (client', filter));
  }

  // ---- counting ----

  /** The fan-out registrations of the clients in `among`. */
  function NormalKeys(normal: map<ClientId, seq<Row<Text>>>, among: set<ClientId>): set<(ClientId, Key)> {
    set c, row | c in among && c in normal && row in normal[c] :: (c, Normal(row.key))
  }

  /** The registrations in the share groups in `among`. */
  function SharedKeys(shared: map<Text, Group>, among: set<Text>): set<(ClientId, Key)> {
    set g, row | g in among && g in shared && row in shared[g].members :: (row.key.0, Shared(g, row.key.1))
  }

  /** The registrations held in the router, as a set. */
  function Registrations(r: RouterState): set<(ClientId, Key)> {
    NormalKeys(r.normal, r.normal.Keys) + SharedKeys(r.shared, r.shared.Keys)
  }

  lemma RegistrationsAreGranted(r: RouterState, client: ClientId, key: Key)
    requires Tidy(r)
    ensures (client, key) in Registrations(r) <==> Granted(r, client, key).Some?
  {
    match key
    case Normal(filter) => ListedIffSome(SubsOf(r, client), filter);
    case Shared(group, filter) => ListedIffSome(GroupOf(r, group).members, (client, filter));
  }

  lemma ListedIffSome<K>(rows: seq<Row<K>>, key: K)
    requires Distinct(rows)
    ensures Lookup(rows, key).Some? <==> exists row :: row in rows && row.key == key
  {
    var i := Find(rows, key);
    if i < |rows| {
      assert rows[i] in rows;
    }
  }

  lemma {:induction false} NormalRowCount(client: ClientId, rows: seq<Row<Text>>)
    requires Distinct(rows)
    ensures |set row | row in rows :: (client, Normal(row.key))| == |rows|
  {
    var keys := set row | row in rows :: (client, Normal(row.key));
    if rows == [] {
      assert keys == {};
    } else {
      NormalRowCount(client, rows[1..]);
      var rest := set row | row in rows[1..] :: (client, Normal(row.key));
      assert keys == {(client, Normal(rows[0].key))} + rest;
      assert (client, Normal(rows[0].key)) !in rest;
    }
  }

  lemma {:induction false} SharedRowCount(group: Text, rows: seq<Row<(ClientId, Text)>>)
    requires Distinct(rows)
    ensures |set row | row in rows :: (row.key.0, Shared(group, row.key.1))| == |rows|
  {
    var keys := set row | row in rows :: (row.key.0, Shared(group, row.key.1));
    if rows == [] {
      assert keys == {};
    } else {
      SharedRowCount(group, rows[1..]);
      var rest := set row | row in rows[1..] :: (row.key.0, Shared(group, row.key.1));
      assert keys == {(rows[0].key.0, Shared(group, rows[0].key.1))} + rest;
      assert (rows[0].key.0, Shared(group, rows[0].key.1)) !in rest;
    }
  }

  lemma NormalCountStep(normal: map<ClientId, seq<Row<Text>>>, done: set<ClientId>, c: ClientId)
    requires c in normal && c !in done && Distinct(normal[c])
    ensures |NormalKeys(normal, done + {c})| == |NormalKeys(normal, done)| + |normal[c]|
  {
    var base, more := NormalKeys(normal, done), set row | row in normal[c] :: (c, Normal(row.key));
    NormalRowCount(c, normal[c]);
    assert NormalKeys(normal, done + {c}) == base + more;
    assert base !! more;
  }

  lemma SharedCountStep(shared: map<Text, Group>, done: set<Text>, g: Text)
    requires g in shared && g !in done && Distinct(shared[g].members)
    ensures |SharedKeys(shared, done + {g})| == |SharedKeys(shared, done)| + |shared[g].members|
  {
    var base := SharedKeys(shared, done);
    var more := set row | row in shared[g].members :: (row.key.0, Shared(g, row.key.1));
    SharedRowCount(g, shared[g].members);
    assert SharedKeys(shared, done + {g}) == base + more;
    assert base !! more;
  }

  // ---- routing ----

  /** The subscriptions of a list that match a topic, in list order. */
  function MatchingMembers(rows: seq<Row<(ClientId, Text)>>, topic: Text): seq<Target> {
    if rows == [] then []
    else (if Matches(rows[0].key.1, topic) then [(rows[0].key.0, rows[0].qos)] else [])
         + MatchingMembers(rows[1..], topic)
  }

  /** The highest QoS among the matching subscriptions. */
  function Best(rows: seq<Row<Text>>, topic: Text): Option<QoS> {
    if rows == [] then None
    else
      var rest := Best(rows[1..], topic);
      if !Matches(rows[0].key, topic) then rest
      else if rest.None? then Some(rows[0].qos)
      else Some(MaxQoS(rows[0].qos, rest.value))
  }

  /** `qos` is the highest QoS among the client's fan-out registrations that match the topic. */
  ghost predicate IsBest(r: RouterState, client: ClientId, topic: Text, qos: QoS) {
    && (exists f :: Granted(r, client, Normal(f)) == Some(qos) && Matches(f, topic))
    && (forall f :: Granted(r, client, Normal(f)).Some? && Matches(f, topic) ==>
          Granted(r, client, Normal(f)).value.Level() <= qos.Level())
  }

  ghost predicate TopOf(rows: seq<Row<Text>>, topic: Text, qos: QoS) {
    && (exists row :: row in rows && row.qos == qos && Matches(row.key, topic))
    && (forall row :: row in rows && Matches(row.key, topic) ==> row.qos.Level() <= qos.Level())
  }

  lemma {:induction false} BestIsTop(rows: seq<Row<Text>>, topic: Text)
    ensures Best(rows, topic).None? ==> forall row :: row in rows ==> !Matches(row.key, topic)
    ensures Best(rows, topic).Some? ==> TopOf(rows, topic, Best(rows, topic).value)
  {
    hide Matches;
    if rows != [] {
      BestIsTop(rows[1..], topic);
      assert forall row :: row in rows <==> row == rows[0] || row in rows[1..];
    }
  }

  lemma LevelsDecide(a: QoS, b: QoS)
    requires a.Level() == b.Level()
    ensures a == b
  {
  }

  lemma GrantedListed(r: RouterState, client: ClientId, filter: Text, qos: QoS)
    requires Tidy(r)
    ensures Granted(r, client, Normal(filter)) == Some(qos) <==> Row(filter, qos) in SubsOf(r, client)
  {
    LookupIsListed(SubsOf(r, client), filter, qos);
  }

  lemma TopIsBest(r: RouterState, client: ClientId, topic: Text, qos: QoS)
    requires Tidy(r) && TopOf(SubsOf(r, client), topic, qos)
    ensures IsBest(r, client, topic, qos)
  {
    hide Matches, Granted, SubsOf, Tidy;
    var rows := SubsOf(r, client);
    var row :| row in rows && row.qos == qos && Matches(row.key, topic);
    GrantedListed(r, client, row.key, qos);
    forall f | Granted(r, client, Normal(f)).Some? && Matches(f, topic)
      ensures Granted(r, client, Normal(f)).value.Level() <= qos.Level()
    {
      GrantedListed(r, client, f, Granted(r, client, Normal(f)).value);
    }
  }

  lemma BestIsTopOf(r: RouterState, client: ClientId, topic: Text, qos: QoS)
    requires Tidy(r) && IsBest(r, client, topic, qos)
    ensures TopOf(SubsOf(r, client), topic, qos)
  {
    hide Matches, Granted, SubsOf, Tidy;
    var rows := SubsOf(r, client);
    var f :| Granted(r, client, Normal(f)) == Some(qos) && Matches(f, topic);
    GrantedListed(r, client, f, qos);
    forall row | row in rows && Matches(row.key, topic) ensures row.qos.Level() <= qos.Level() {
      GrantedListed(r, client, row.key, row.qos);
    }
  }

  /** The QoS offered to a client is the highest one granted to it for the topic. */
  lemma BestMeaning(r: RouterState, client: ClientId, topic: Text, qos: QoS)
    requires Tidy(r)
    ensures Best(SubsOf(r, client), topic) == Some(qos) <==> IsBest(r, client, topic, qos)
  {
    hide Matches, Best, SubsOf, IsBest;
    var rows := SubsOf(r, client);
    BestIsTop(rows, topic);
    if Best(rows, topic) == Some(qos) {
      TopIsBest(r, client, topic, qos);
    }
    if IsBest(r, client, topic, qos) {
      BestIsTopOf(r, client, topic, qos);
      LevelsDecide(Best(rows, topic).value, qos);
    }
  }

  // ---- sorting by client ----

  predicate Sorted(ts: seq<Target>) {
    forall i, j :: 0 <= i < j < |ts| ==> ts[i].0 <= ts[j].0
  }

  predicate OnePerClient(ts: seq<Target>) {
    forall i, j :: 0 <= i < j < |ts| ==> ts[i].0 != ts[j].0
  }

  function Insert(t: Target, ts: seq<Target>): seq<Target> {
    if ts == [] then [t] else if t.0 <= ts[0].0 then [t] + ts else [ts[0]] + Insert(t, ts[1..])
  }

  function SortByClient(ts: seq<Target>): seq<Target> {
    if ts == [] then [] else Insert(ts[0], SortByClient(ts[1..]))
  }

  lemma {:induction false} InsertListed(t: Target, ts: seq<Target>)
    ensures multiset(Insert(t, ts)) == multiset(ts) + multiset{t}
    ensures forall x :: x in Insert(t, ts) <==> x == t || x in ts
  {
    if ts != [] {
      assert ts == [ts[0]] + ts[1..];
      if ts[0].0 < t.0 {
        InsertListed(t, ts[1..]);
      }
    }
  }

  lemma {:induction false} InsertSorts(t: Target, ts: seq<Target>)
    requires Sorted(ts)
    ensures Sorted(Insert(t, ts)) && multiset(Insert(t, ts)) == multiset(ts) + multiset{t}
    ensures forall x :: x in Insert(t, ts) <==> x == t || x in ts
  {
    InsertListed(t, ts);
    if ts != [] && ts[0].0 < t.0 {
      InsertSorts(t, ts[1..]);
      forall x | x in Insert(t, ts[1..]) ensures ts[0].0 <= x.0 {
        if x != t {
          var i :| 0 <= i < |ts[1..]| && ts[1..][i] == x;
          assert ts[i + 1] == x;
        }
      }
    }
  }

  lemma {:induction false} SortSorts(ts: seq<Target>)
    ensures Sorted(SortByClient(ts)) && multiset(SortByClient(ts)) == multiset(ts)
    ensures forall x :: x in SortByClient(ts) <==> x in ts
  {
    if ts != [] {
      SortSorts(ts[1..]);
      InsertSorts(ts[0], SortByClient(ts[1..]));
      assert ts == [ts[0]] + ts[1..];
    }
  }

  lemma {:induction false} InsertOnePerClient(t: Target, ts: seq<Target>)
    requires OnePerClient(ts) && Sorted(ts) && forall x :: x in ts ==> x.0 != t.0
    ensures OnePerClient(Insert(t, ts))
  {
    if ts != [] && ts[0].0 < t.0 {
      InsertOnePerClient(t, ts[1..]);
      InsertSorts(t, ts[1..]);
      forall x | x in Insert(t, ts[1..]) ensures ts[0].0 != x.0 {
        if x != t {
          var i :| 0 <= i < |ts[1..]| && ts[1..][i] == x;
          assert ts[i + 1] == x;
        }
      }
    }
  }

  lemma {:induction false} SortOnePerClient(ts: seq<Target>)
    requires OnePerClient(ts)
    ensures OnePerClient(SortByClient(ts))
  {
    if ts != [] {
      SortOnePerClient(ts[1..]);
      SortSorts(ts[1..]);
      forall x | x in SortByClient(ts[1..]) ensures x.0 != ts[0].0 {
        var i :| 0 <= i < |ts[1..]| && ts[1..][i] == x;
        assert ts[i + 1] == x;
      }
      InsertOnePerClient(ts[0], SortByClient(ts[1..]));
    }
  }

  // ---- share groups ----

  /** Every member a group may pick for a topic holds a matching registration in it, and the other way round. */
  lemma {:induction false} MatchingMembersExactly(rows: seq<Row<(ClientId, Text)>>, topic: Text, t: Target)
    ensures t in MatchingMembers(rows, topic)
       <==> exists row :: row in rows && row.key.0 == t.0 && row.qos == t.1 && Matches(row.key.1, topic)
  {
    hide Matches;
    if rows != [] {
      MatchingMembersExactly(rows[1..], topic, t);
      assert forall row :: row in rows <==> row == rows[0] || row in rows[1..];
    }
  }

  predicate Competes(g: Group, topic: Text) {
    MatchingMembers(g.members, topic) != []
  }

  function PickOf(g: Group, topic: Text): Target
    requires Competes(g, topic)
  {
    var matching := MatchingMembers(g.members, topic);
    matching[g.cursor % |matching|]
  }

  /** The routed group moves its cursor on, wrapping with the machine word. */
  function Advance(g: Group, topic: Text): Group {
    if Competes(g, topic) then g.(cursor := (g.cursor + 1) % U64_SIZE) else g
  }

  function Advanced(r: RouterState, topic: Text): RouterState {
    r.(shared := map g | g in r.shared :: Advance(r.shared[g], topic))
  }

  function Picks(r: RouterState, topic: Text, groups: seq<Text>): seq<Target>
    requires forall g :: g in groups ==> g in r.shared && Competes(r.shared[g], topic)
  {
    if groups == [] then []
    else Picks(r, topic, groups[..|groups| - 1]) + [PickOf(r.shared[groups[|groups| - 1]], topic)]
  }

  /**
   * What routing a topic must return: sorted by client, the fan-out clients each once at their best
   * QoS, plus one pick from each share group that has a matching member.
   */
  ghost predicate IsRoute(r: RouterState, topic: Text, out: seq<Target>, fanOut: seq<Target>, groups: seq<Text>) {
    && Sorted(out) && OnePerClient(fanOut)
    && (forall c: ClientId, q :: (c, q) in fanOut <==> IsBest(r, c, topic, q))
    && (forall i, j :: 0 <= i < j < |groups| ==> groups[i] != groups[j])
    && (forall g :: g in groups <==> g in r.shared && Competes(r.shared[g], topic))
    && multiset(out) == multiset(fanOut) + multiset(Picks(r, topic, groups))
  }

  /** A pick is a member with a matching registration in its group. */
  lemma PickHasRegistration(r: RouterState, topic: Text, group: Text)
    requires Tidy(r) && group in r.shared && Competes(r.shared[group], topic)
    ensures var (c, q) := PickOf(r.shared[group], topic);
            exists f :: Granted(r, c, Shared(group, f)) == Some(q) && Matches(f, topic)
  {
    hide Matches;
    var t := PickOf(r.shared[group], topic);
    var rows := r.shared[group].members;
    MatchingMembersExactly(rows, topic, t);
    var row :| row in rows && row.key.0 == t.0 && row.qos == t.1 && Matches(row.key.1, topic);
    LookupIsListed(rows, row.key, row.qos);
    assert row == Row(row.key, row.qos) && row.key == (t.0, row.key.1);
    assert Granted(r, t.0, Shared(group, row.key.1)) == Some(t.1);
  }

  lemma SubscribeForAll(r: RouterState, client: ClientId, key: Key, qos: QoS)
    requires Tidy(r)
    ensures Tidy(Subscribed(r, client, key, qos))
    ensures forall c, k :: Granted(Subscribed(r, client, key, qos), c, k)
                        == if c == client && k == key then Some(qos) else Granted(r, c, k)
  {
    SubscribeUpdatesRelation(r, client, key, qos, client, key);
    forall c: ClientId, k ensures Granted(Subscribed(r, client, key, qos), c, k)
                       == if c == client && k == key then Some(qos) else Granted(r, c, k)
    {
      SubscribeUpdatesRelation(r, client, key, qos, c, k);
    }
  }

  lemma UnsubscribeForAll(r: RouterState, client: ClientId, key: Key)
    requires Tidy(r)
    ensures Tidy(Unsubscribed(r, client, key))
    ensures forall c, k :: Granted(Unsubscribed(r, client, key), c, k)
                        == if c == client && k == key then None else Granted(r, c, k)
  {
    UnsubscribeUpdatesRelation(r, client, key, client, key);
    forall c: ClientId, k ensures Granted(Unsubscribed(r, client, key), c, k)
                       == if c == client && k == key then None else Granted(r, c, k)
    {
      UnsubscribeUpdatesRelation(r, client, key, c, k);
    }
  }

  lemma RemoveClientForAll(r: RouterState, client: ClientId)
    requires Tidy(r)
    ensures Tidy(ClientRemoved(r, client))
    ensures forall c, k :: Granted(ClientRemoved(r, client), c, k) == if c == client then None else Granted(r, c, k)
  {
    RemoveClientUpdatesRelation(r, client, client, Normal([]));
    forall c: ClientId, k
      ensures Granted(ClientRemoved(r, client), c, k) == if c == client then None else Granted(r, c, k)
    {
      RemoveClientUpdatesRelation(r, client, c, k);
    }
  }

  // ---- the router ----

  class Router {
    var normal: map<ClientId, seq<Row<Text>>>
    var shared: map<Text, Group>

    function State(): RouterState
      reads this
    {
      RouterState(normal, shared)
    }

    ghost predicate Valid()
      reads this
    {
      Tidy(State())
    }

    constructor ()
      ensures Valid() && State() == RouterState(map[], map[])
    {
      normal, shared := map[], map[];
    }

    method Subscribe(client: ClientId, filter: Text, qos: QoS)
      requires Valid()
      modifies this
      ensures Valid() && State() == Subscribed(old(State()), client, Normal(filter), qos)
      ensures forall c, k :: Granted(State(), c, k)
                          == if c == client && k == Normal(filter) then Some(qos) else Granted(old(State()), c, k)
    {
      SubscribeForAll(State(), client, Normal(filter), qos);
      var subs := if client in normal then normal[client] else [];
      var i := Find(subs, filter);
      if i < |subs| {
        subs := subs[i := Row(filter, qos)];
      } else {
        subs := subs + [Row(filter, qos)];
      }
      normal := normal[client := subs];
    }

    method SubscribeShared(group: Text, client: ClientId, filter: Text, qos: QoS)
      requires Valid()
      modifies this
      ensures Valid() && State() == Subscribed(old(State()), client, Shared(group, filter), qos)
      ensures forall c, k :: Granted(State(), c, k)
                          == if c == client && k == Shared(group, filter) then Some(qos)
                             else Granted(old(State()), c, k)
    {
      SubscribeForAll(State(), client, Shared(group, filter), qos);
      var g := if group in shared then shared[group] else Group([], 0);
      var i := Find(g.members, (client, filter));
      var row := Row((client, filter), qos);
      if i < |g.members| {
        g := g.(members := g.members[i := row]);
      } else {
        g := g.(members := g.members + [row]);
      }
      shared := shared[group := g];
    }

    method Unsubscribe(client: ClientId, filter: Text) returns (removed: bool)
      requires Valid()
      modifies this
      ensures Valid() && State() == Unsubscribed(old(State()), client, Normal(filter))
      ensures removed <==> Granted(old(State()), client, Normal(filter)).Some?
      ensures forall c, k :: Granted(State(), c, k)
                          == if c == client && k == Normal(filter) then None else Granted(old(State()), c, k)
    {
      UnsubscribeForAll(State(), client, Normal(filter));
      if client in normal {
        var before := |normal[client]|;
        DropLength(normal[client], filter);
        var subs := Drop(normal[client], filter);
        removed := |subs| != before;
        normal := if subs == [] then normal - {client} else normal[client := subs];
      } else {
        removed := false;
      }
    }

    method UnsubscribeShared(group: Text, client: ClientId, filter: Text) returns (removed: bool)
      requires Valid()
      modifies this
      ensures Valid() && State() == Unsubscribed(old(State()), client, Shared(group, filter))
      ensures removed <==> Granted(old(State()), client, Shared(group, filter)).Some?
      ensures forall c, k :: Granted(State(), c, k)
                          == if c == client && k == Shared(group, filter) then None else Granted(old(State()), c, k)
    {
      UnsubscribeForAll(State(), client, Shared(group, filter));
      if group in shared {
        var g := shared[group];
        DropLength(g.members, (client, filter));
        var members := Drop(g.members, (client, filter));
        removed := |members| != |g.members|;
        shared := if members == [] then shared - {group} else shared[group := g.(members := members)];
      } else {
        removed := false;
      }
    }

    method RemoveClient(client: ClientId)
      requires Valid()
      modifies this
      ensures Valid() && State() == ClientRemoved(old(State()), client)
      ensures forall c, k :: Granted(State(), c, k) == if c == client then None else Granted(old(State()), c, k)
    {
      RemoveClientForAll(State(), client);
      hide DropClient, Tidy, Granted, WithoutClient, ClientRemoved;
      WithoutClientEnds(State(), client);
      normal := normal - {client};
      var left := shared.Keys;
      while left != {}
        modifies this`shared
        invariant left <= old(shared).Keys
        invariant shared == WithoutClient(old(shared), client, left)
        decreases |left|
      {
        var g :| g in left;
        WithoutClientStep(old(shared), client, left, g);
        left := left - {g};
        shared := shared[g := shared[g].(members := DropClient(shared[g].members, client))];
      }
      shared := map g | g in shared && shared[g].members != [] :: shared[g];
    }

    method SubscriptionCount() returns (count: nat)
      requires Valid()
      ensures count == |Registrations(State())|
    {
      var n := CountNormal();
      var s := CountShared();
      assert NormalKeys(normal, normal.Keys) !! SharedKeys(shared, shared.Keys);
      count := n + s;
    }

    method CountNormal() returns (count: nat)
      requires Valid()
      ensures count == |NormalKeys(normal, normal.Keys)|
    {
      count := 0;
      var left := normal.Keys;
      assert NormalKeys(normal, normal.Keys - left) == {};
      while left != {}
        invariant left <= normal.Keys
        invariant count == |NormalKeys(normal, normal.Keys - left)|
        decreases |left|
      {
        var c :| c in left;
        NormalCountStep(normal, normal.Keys - left, c);
        assert normal.Keys - (left - {c}) == (normal.Keys - left) + {c};
        left := left - {c};
        count := count + |normal[c]|;
      }
      assert normal.Keys - left == normal.Keys;
    }

    method CountShared() returns (count: nat)
      requires Valid()
      ensures count == |SharedKeys(shared, shared.Keys)|
    {
      count := 0;
      var left := shared.Keys;
      assert SharedKeys(shared, shared.Keys - left) == {};
      while left != {}
        invariant left <= shared.Keys
        invariant count == |SharedKeys(shared, shared.Keys - left)|
        decreases |left|
      {
        var g :| g in left;
        SharedCountStep(shared, shared.Keys - left, g);
        assert shared.Keys - (left - {g}) == (shared.Keys - left) + {g};
        left := left - {g};
        count := count + |shared[g].members|;
      }
      assert shared.Keys - left == shared.Keys;
    }

    /** Each client with a matching fan-out subscription, once, at its highest matching QoS. */
    method MatchingSubscribers(topic: Text) returns (matched: seq<Target>)
      requires Valid()
      ensures Sorted(matched) && OnePerClient(matched)
      ensures forall c: ClientId, q :: (c, q) in matched <==> IsBest(State(), c, topic, q)
    {
      hide Best, IsBest;
      matched := [];
      var left := normal.Keys;
      while left != {}
        invariant left <= normal.Keys && OnePerClient(matched)
        invariant forall t :: t in matched <==>
          t.0 in normal && t.0 !in left && Best(normal[t.0], topic) == Some(t.1)
        decreases |left|
      {
        var c :| c in left;
        left := left - {c};
        var best := Best(normal[c], topic);
        if best.Some? {
          matched := matched + [(c, best.value)];
        }
      }
      SortSorts(matched);
      SortOnePerClient(matched);
      matched := SortByClient(matched);
      forall c: ClientId, q ensures (c, q) in matched <==> IsBest(State(), c, topic, q) {
        BestMeaning(State(), c, topic, q);
        NothingBest(topic);
      }
    }

    /** One group's turn: its pick for the topic, and the groups with its cursor moved on. */
    method PickFrom(group: Text, topic: Text) returns (pick: Option<Target>, after: map<Text, Group>)
      requires group in shared
      ensures pick == if Competes(shared[group], topic) then Some(PickOf(shared[group], topic)) else None
      ensures after == shared[group := Advance(shared[group], topic)]
    {
      var g := shared[group];
      var matching := MatchingMembers(g.members, topic);
      if matching == [] {
        return None, shared;
      }
      pick := Some(matching[g.cursor % |matching|]);
      after := shared[group := g.(cursor := (g.cursor + 1) % U64_SIZE)];
    }

    /** Resolve every recipient of a topic and move the cursors of the groups that took part. */
    method Route(topic: Text) returns (out: seq<Target>, ghost fanOut: seq<Target>, ghost groups: seq<Text>)
      requires Valid()
      modifies this`shared
      ensures Valid() && State() == Advanced(old(State()), topic)
      ensures IsRoute(old(State()), topic, out, fanOut, groups)
    {
      ghost var r := State();
      hide IsBest, MatchingMembers, Competes, Advance, PickOf, MovedOn, Advanced, Tidy, Resolved;
      MovedOnEnds(r, topic);
      var recipients := MatchingSubscribers(topic);
      fanOut, groups := recipients, [];
      ResolveStart(r, topic, fanOut);
      var left := shared.Keys;
      while left != {}
        modifies this`shared
        invariant left <= r.shared.Keys
        invariant shared == MovedOn(r.shared, topic, left)
        invariant Resolved(r, topic, left, recipients, fanOut, groups)
        decreases |left|
      {
        var g :| g in left;
        var pick: Option<Target>;
        MovedOnStep(r.shared, topic, left, g);
        pick, shared := PickFrom(g, topic);
        ResolveStep(r, topic, left, recipients, fanOut, groups, g);
        left := left - {g};
        if pick.Some? {
          recipients := recipients + [pick.value];
          groups := groups + [g];
        }
      }
      SortSorts(recipients);
      out := SortByClient(recipients);
      ResolveEnd(r, topic, recipients, out, fanOut, groups);
    }
  }

  /** The groups, with `client` already taken out of those not in `todo`. */
  function WithoutClient(shared: map<Text, Group>, client: ClientId, todo: set<Text>): map<Text, Group> {
    map g | g in shared ::
      if g in todo then shared[g] else shared[g].(members := DropClient(shared[g].members, client))
  }

  /** The groups, with the cursors of those not in `todo` moved on. */
  function MovedOn(shared: map<Text, Group>, topic: Text, todo: set<Text>): map<Text, Group> {
    map g | g in shared :: if g in todo then shared[g] else Advance(shared[g], topic)
  }

  /** Half-way through routing: the groups not in `todo` have been asked for a member. */
  ghost predicate Resolved(r: RouterState, topic: Text, todo: set<Text>, recipients: seq<Target>,
                           fanOut: seq<Target>, groups: seq<Text>) {
    && (forall i, j :: 0 <= i < j < |groups| ==> groups[i] != groups[j])
    && (forall g :: g in groups <==> g in r.shared && g !in todo && Competes(r.shared[g], topic))
    && multiset(recipients) == multiset(fanOut) + multiset(Picks(r, topic, groups))
  }

  lemma ResolveStep(r: RouterState, topic: Text, todo: set<Text>, recipients: seq<Target>,
                    fanOut: seq<Target>, groups: seq<Text>, g: Text)
    requires Resolved(r, topic, todo, recipients, fanOut, groups) && g in todo && g in r.shared
    ensures Competes(r.shared[g], topic) ==>
      Resolved(r, topic, todo - {g}, recipients + [PickOf(r.shared[g], topic)], fanOut, groups + [g])
    ensures !Competes(r.shared[g], topic) ==> Resolved(r, topic, todo - {g}, recipients, fanOut, groups)
  {
    hide Competes, PickOf;
    if Competes(r.shared[g], topic) {
      PicksMore(r, topic, groups, g);
      hide Picks;
      assert forall h :: h in groups + [g] <==> h in groups || h == g;
    }
  }

  lemma ResolveStart(r: RouterState, topic: Text, fanOut: seq<Target>)
    ensures Resolved(r, topic, r.shared.Keys, fanOut, fanOut, [])
  {
  }

  lemma ResolveEnd(r: RouterState, topic: Text, recipients: seq<Target>, out: seq<Target>,
                   fanOut: seq<Target>, groups: seq<Text>)
    requires Resolved(r, topic, {}, recipients, fanOut, groups)
    requires Sorted(out) && multiset(out) == multiset(recipients) && OnePerClient(fanOut)
    requires forall c: ClientId, q :: (c, q) in fanOut <==> IsBest(r, c, topic, q)
    ensures IsRoute(r, topic, out, fanOut, groups)
  {
    hide IsBest, Competes;
  }

  lemma MovedOnEnds(r: RouterState, topic: Text)
    requires Tidy(r)
    ensures MovedOn(r.shared, topic, r.shared.Keys) == r.shared
    ensures RouterState(r.normal, MovedOn(r.shared, topic, {})) == Advanced(r, topic) && Tidy(Advanced(r, topic))
  {
    hide Competes;
  }

  lemma MovedOnStep(shared: map<Text, Group>, topic: Text, todo: set<Text>, g: Text)
    requires g in shared && g in todo
    ensures var m := MovedOn(shared, topic, todo);
            g in m && m[g] == shared[g] && m[g := Advance(m[g], topic)] == MovedOn(shared, topic, todo - {g})
  {
    hide Advance;
  }

  lemma WithoutClientEnds(r: RouterState, client: ClientId)
    ensures WithoutClient(r.shared, client, r.shared.Keys) == r.shared
    ensures var m := WithoutClient(r.shared, client, {});
            RouterState(r.normal - {client}, map g | g in m && m[g].members != [] :: m[g]) == ClientRemoved(r, client)
  {
    hide DropClient;
  }

  lemma WithoutClientStep(shared: map<Text, Group>, client: ClientId, todo: set<Text>, g: Text)
    requires g in shared && g in todo
    ensures var m := WithoutClient(shared, client, todo);
            && g in m
            && m[g := m[g].(members := DropClient(m[g].members, client))] == WithoutClient(shared, client, todo - {g})
  {
    hide DropClient;
  }

  lemma NothingBest(topic: Text)
    ensures Best([], topic) == None
  {
  }

  lemma PicksMore(r: RouterState, topic: Text, groups: seq<Text>, g: Text)
    requires forall h :: h in groups ==> h in r.shared && Competes(r.shared[h], topic)
    requires g in r.shared && Competes(r.shared[g], topic)
    ensures forall h :: h in groups + [g] ==> h in r.shared && Competes(r.shared[h], topic)
    ensures Picks(r, topic, groups + [g]) == Picks(r, topic, groups) + [PickOf(r.shared[g], topic)]
  {
    assert (groups + [g])[..|groups|] == groups;
  }
}
