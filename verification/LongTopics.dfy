/**
 * A dead letter is published on a topic longer than the one it died on (`dead_letter` in
 * crates/relay-server/src/hub.rs), and the queue blob cuts topic lengths to 16 bits. A run in which every
 * published topic is one MQTT allows leaves a durable watcher with a queue that no restart brings back.
 */
module LongTopics {
  import opened Basics
  import opened Topics
  import opened Access
  import opened Sessions
  import opened Codec
  import opened Storage
  import opened Broker
  import opened Calls
  import opened Accounts
  import opened Restart
  import A = Agreement
  import R = Routing

  const PLAIN: Config := Config(RetryConfig(5, 5, 60), 0)

  /** The longest topic a PUBLISH can carry: 65535 letters `a`. */
  function Longest(): (t: Text)
    ensures |t| == 65535 && forall i :: 0 <= i < |t| ==> t[i] == 97
  {
    Letters(65535)
  }

  function Letters(n: nat): (t: Text)
    ensures |t| == n && forall i :: 0 <= i < |t| ==> t[i] == 97
  {
    if n == 0 then [] else Letters(n - 1) + [97]
  }

  const WATCHER: Text := [119]

  const SLEEPER: Text := [112]

  /** A durable client watching `$dlq/#`, and another one subscribed to `#`. */
  const SETUP: Run := [
    (Connect(WATCHER, false, 60), 0), (Subscribe(1, ALL_DEAD_LETTERS, AtLeastOnce), 0),
    (Connect(SLEEPER, false, 60), 0), (Subscribe(2, ANY_REST, AtLeastOnce), 0)]

  /** The sleeper disconnects and its session expires. */
  const EXPIRY: Run := [(Leave(2, 2), 0), (Purge(2, 2), 0)]

  function Lost(): Publish {
    MakePublish(Longest(), [1], AtLeastOnce, Some(1), false)
  }

  function MessageRun(): Run {
    PublishRun(0, [(2, AtLeastOnce)], Longest(), [1], AtLeastOnce, false, 0, PLAIN)
  }

  function Letter(): Run {
    [(Journal(AppendDeadLetter(RecordOf(0, SLEEPER, DeadMsg(Lost(), 1), SESSION_EXPIRED))), 0)]
    + PublishRun(0, [(1, AtLeastOnce)], DlqTopic(SLEEPER, Longest()), [1], AtLeastOnce, false, 0, PLAIN)
  }

  // ---- matching ----

  lemma WordMatches(t: Text)
    requires SLASH !in t && t != [] && t[0] == 97
    ensures Matches(ANY_REST, t) && !Matches(ALL_DEAD_LETTERS, t) && !IsDlqTopic(t)
  {
    DeadLetterLevels();
    OneLevel(t);
    FirstByte(t);
  }

  lemma LongestMatches()
    ensures Matches(ANY_REST, Longest()) && !Matches(ALL_DEAD_LETTERS, Longest()) && !IsDlqTopic(Longest())
  {
    hide Longest, Matches, IsDlqTopic;
    WordMatches(Longest());
  }

  lemma LetterMatches()
    ensures Matches(ALL_DEAD_LETTERS, DlqTopic(SLEEPER, Longest())) && |DlqTopic(SLEEPER, Longest())| == 65542
  {
    var topic, levels: Levels := DlqTopic(SLEEPER, Longest()), [DLQ_LEVEL, SLEEPER, Longest()];
    DeadLetterLevels();
    assert Join(levels[1..][1..]) == Longest();
    assert Join(levels[1..]) == SLEEPER + [SLASH] + Longest();
    assert Join(levels) == DLQ_LEVEL + [SLASH] + (SLEEPER + [SLASH] + Longest());
    assert topic == Join(levels);
    SplitOfJoin(levels);
    var f := Split(ALL_DEAD_LETTERS);
    assert f[1..] == [ANY_REST];
    assert LevelsMatch(f[1..], levels[1..]);
    FirstByte(ALL_DEAD_LETTERS);
  }

  lemma OnlyTarget(r: R.RouterState, topic: Text, id: ClientId)
    requires R.Tidy(r) && r.shared == map[]
    requires forall c: ClientId :: R.Best(R.SubsOf(r, c), topic) == if c == id then Some(AtLeastOnce) else None
    ensures R.IsRoute(r, topic, [(id, AtLeastOnce)], [(id, AtLeastOnce)], [])
  {
    hide R.Best, R.IsBest, R.SubsOf, R.Tidy;
    var out: seq<R.Target> := [(id, AtLeastOnce)];
    forall c: ClientId, q ensures (c, q) in out <==> R.IsBest(r, c, topic, q) {
      R.BestMeaning(r, c, topic, q);
    }
    assert multiset(out) == multiset(out) + multiset(R.Picks(r, topic, []));
  }

  // ---- the states of the run ----

  function Watching(): seq<R.Row<Text>> {
    [R.Row(ALL_DEAD_LETTERS, AtLeastOnce)]
  }

  predicate Settling(h: HubState, sleeper: SessionState) {
    && h.byId == map[1 := NewSession(WATCHER, Some([]), 60, 1), 2 := sleeper]
    && h.idOf == map[WATCHER := 1, SLEEPER := 2] && h.nextRaw == 3 && h.generation == 2
    && h.router == R.RouterState(map[1 := Watching(), 2 := [R.Row(ANY_REST, AtLeastOnce)]], map[])
  }

  lemma Keys()
    ensures KeyOf(ALL_DEAD_LETTERS) == Some(Normal(ALL_DEAD_LETTERS)) && KeyOf(ANY_REST) == Some(Normal(ANY_REST))
  {
    DeadLetterLevels();
    assert ALL_DEAD_LETTERS[1] == 100 && SHARE[1] == 115 && |SHARE| == 7;
  }

  lemma FirstRows(filter: Text, q: QoS)
    ensures R.Put([], filter, q) == [R.Row(filter, q)]
  {
  }

  lemma AfterSetup()
    ensures Settling(AfterAll(FIRST, SETUP, PLAIN), NewSession(SLEEPER, Some([]), 60, 2))
    ensures LegalRun(FIRST, SETUP, PLAIN)
  {
    hide R.Put, KeyOf;
    Keys();
    FirstRows(ALL_DEAD_LETTERS, AtLeastOnce);
    FirstRows(ANY_REST, AtLeastOnce);
    assert SETUP[..1][..0] == [] && SETUP[..2][..1] == SETUP[..1] && SETUP[..3][..2] == SETUP[..2];
    assert SETUP[..4][..3] == SETUP[..3] && SETUP[..4] == SETUP && SETUP[..0] == [];
    var h1 := After(FIRST, SETUP[0].0, 0, PLAIN);
    assert AfterAll(FIRST, SETUP[..1], PLAIN) == h1;
    var h2 := After(h1, SETUP[1].0, 0, PLAIN);
    assert AfterAll(FIRST, SETUP[..2], PLAIN) == h2;
    var h3 := After(h2, SETUP[2].0, 0, PLAIN);
    assert AfterAll(FIRST, SETUP[..3], PLAIN) == h3;
    var h4 := After(h3, SETUP[3].0, 0, PLAIN);
    assert AfterAll(FIRST, SETUP, PLAIN) == h4;
  }

  lemma AfterFront(h: HubState, topic: Text, qos: QoS)
    requires h.router.shared == map[]
    ensures AfterAll(h, FrontRun(0, topic, [1], qos, false, 0, PLAIN), PLAIN) == h
  {
    assert FrontRun(0, topic, [1], qos, false, 0, PLAIN) == [(Route(topic), 0)];
    AfterOne(h, Route(topic), 0, PLAIN);
    assert R.Advanced(h.router, topic) == h.router;
  }

  /** A publish with one target: that session gets one delivery, and its queue is written. */
  lemma AfterPublish(h: HubState, id: ClientId, topic: Text)
    requires h.router.shared == map[] && id in h.byId
    ensures var run := PublishRun(0, [(id, AtLeastOnce)], topic, [1], AtLeastOnce, false, 0, PLAIN);
            var h' := AfterAll(h, run, PLAIN);
            && h'.byId == h.byId[id := Stepped(h.byId[id], Deliver(topic, [1], AtLeastOnce, false), 0, PLAIN.retry)]
            && h'.idOf == h.idOf && h'.router == h.router && h'.nextRaw == h.nextRaw && h'.generation == h.generation
  {
    hide Stepped, Snapshot, SavesAny, FrontRun;
    var targets: seq<R.Target>, act := [(id, AtLeastOnce)], Deliver(topic, [1], AtLeastOnce, false);
    var front := FrontRun(0, topic, [1], AtLeastOnce, false, 0, PLAIN);
    var copies := CopyRun(targets, topic, [1], AtLeastOnce, 0);
    assert copies == [(Touch(id, [act]), 0)];
    AfterFront(h, topic, AtLeastOnce);
    AfterMore(h, front, copies, PLAIN);
    AfterOne(h, Touch(id, [act]), 0, PLAIN);
    OneActRun(h.byId[id], act, 0, PLAIN.retry);
  }

  /** The sleeper's session with its one message, online or not. */
  predicate Sleeping(s: SessionState) {
    && s.clientId == SLEEPER && s.expiry == 60 && s.generation == 2
    && OneQueued(s.inflight, Longest())
  }

  /** One message on this topic, sent once, is all the queue holds. */
  predicate OneQueued(q: seq<Entry>, topic: Text) {
    |q| == 1 && q[0].state == Qos1(MakePublish(topic, [1], AtLeastOnce, Some(1), false)) && q[0].attempts == 1
  }

  lemma DeliveredOnce(s: SessionState, topic: Text)
    requires s.nextId == 1 && s.inflight == []
    ensures var s' := Stepped(s, Deliver(topic, [1], AtLeastOnce, false), 0, PLAIN.retry);
            && s'.clientId == s.clientId && s'.expiry == s.expiry && s'.generation == s.generation
            && OneQueued(s'.inflight, topic)
  {
    hide Backoff;
  }

  lemma BothRouted()
    ensures var h := AfterAll(FIRST, SETUP, PLAIN);
            R.IsRoute(h.router, Longest(), [(2, AtLeastOnce)], [(2, AtLeastOnce)], [])
  {
    AfterSetup();
    LongestMatches();
    hide AfterAll, Matches, R.IsRoute;
    OnlyTarget(AfterAll(FIRST, SETUP, PLAIN).router, Longest(), 2);
  }

  lemma AfterMessage()
    ensures var h := AfterAll(AfterAll(FIRST, SETUP, PLAIN), MessageRun(), PLAIN);
            2 in h.byId && Sleeping(h.byId[2]) && Settling(h, h.byId[2])
  {
    AfterSetup();
    hide AfterAll, Stepped, PublishRun;
    var h := AfterAll(FIRST, SETUP, PLAIN);
    AfterPublish(h, 2, Longest());
    DeliveredOnce(h.byId[2], Longest());
  }

  /** Only the watcher is left, with nothing queued. */
  predicate Alone(h: HubState) {
    && h.byId == map[1 := NewSession(WATCHER, Some([]), 60, 1)] && h.idOf == map[WATCHER := 1]
    && h.router == R.RouterState(map[1 := Watching()], map[])
  }

  lemma AfterLeave(h: HubState, s: SessionState)
    requires Settling(h, s) && s.expiry == 60 && s.generation == 2
    ensures Settling(After(h, Leave(2, 2), 0, PLAIN), s.(tx := None))
  {
    assert h.byId[2 := s.(tx := None)] == map[1 := NewSession(WATCHER, Some([]), 60, 1), 2 := s.(tx := None)];
  }

  lemma AfterPurge(h: HubState, s: SessionState)
    requires Settling(h, s) && s.tx == None && s.generation == 2
    ensures Alone(After(h, Purge(2, 2), 0, PLAIN))
  {
    var h' := Discarded(h, 2);
    assert h'.byId == map[1 := NewSession(WATCHER, Some([]), 60, 1)];
    assert h'.idOf == map[WATCHER := 1];
    assert h'.router.normal == map[1 := Watching()] && h'.router.shared == map[];
  }

  lemma AfterExpiry(h: HubState, s: SessionState)
    requires Sleeping(s) && Settling(h, s)
    ensures Alone(AfterAll(h, EXPIRY, PLAIN))
  {
    SleepingIs(s);
    hide Sleeping, Settling, Alone, After;
    assert EXPIRY == [(Leave(2, 2), 0)] + [(Purge(2, 2), 0)];
    AfterMore(h, [(Leave(2, 2), 0)], [(Purge(2, 2), 0)], PLAIN);
    AfterOne(h, Leave(2, 2), 0, PLAIN);
    AfterLeave(h, s);
    var h1 := After(h, Leave(2, 2), 0, PLAIN);
    AfterOne(h1, Purge(2, 2), 0, PLAIN);
    AfterPurge(h1, s.(tx := None));
  }

  lemma SleepingIs(s: SessionState)
    requires Sleeping(s)
    ensures s.clientId == SLEEPER && s.expiry == 60 && s.generation == 2
    ensures Buried(Drain, s.inflight) == [DeadMsg(Lost(), 1)]
  {
    hide Longest, IsDlqTopic, Buried, Matches;
    LongestMatches();
    DrainOne(s.inflight, Longest());
  }

  lemma DrainOne(q: seq<Entry>, topic: Text)
    requires OneQueued(q, topic) && !IsDlqTopic(topic)
    ensures Buried(Drain, q) == [DeadMsg(MakePublish(topic, [1], AtLeastOnce, Some(1), false), 1)]
  {
    hide IsDlqTopic;
    assert q[..0] == [];
    assert Mortal(q[0]);
  }

  lemma WatcherRouted(h: HubState)
    requires Alone(h)
    ensures R.IsRoute(h.router, DlqTopic(SLEEPER, Longest()), [(1, AtLeastOnce)], [(1, AtLeastOnce)], [])
  {
    LetterMatches();
    hide Matches, R.IsRoute, DlqTopic, Longest;
    OnlyTarget(h.router, DlqTopic(SLEEPER, Longest()), 1);
  }

  lemma LetterIsDeadLetter(h: HubState)
    requires Alone(h)
    ensures IsDeadLetter(h, Letter(), SLEEPER, DeadMsg(Lost(), 1), SESSION_EXPIRED, 0, PLAIN)
  {
    LongestMatches();
    WatcherRouted(h);
    hide Longest, IsDlqTopic, R.IsRoute, PublishRun, RecordOf, DlqTopic, Alone, Matches;
    var topic := DlqTopic(SLEEPER, Longest());
    var rest := PublishRun(0, [(1, AtLeastOnce)], topic, [1], AtLeastOnce, false, 0, PLAIN);
    assert IsTargets(h, topic, [(1, AtLeastOnce)]);
    assert IsPublish(h, rest, topic, [1], AtLeastOnce, false, 0, PLAIN);
  }

  lemma AfterLetter(h: HubState)
    requires Alone(h)
    ensures var h' := AfterAll(h, Letter(), PLAIN);
            && 1 in h'.byId && h'.byId[1].clientId == WATCHER && h'.byId[1].expiry == 60
            && OneQueued(h'.byId[1].inflight, DlqTopic(SLEEPER, Longest()))
  {
    hide Longest, DlqTopic, RecordOf, Stepped, PublishRun;
    var topic, first := DlqTopic(SLEEPER, Longest()),
                        Journal(AppendDeadLetter(RecordOf(0, SLEEPER, DeadMsg(Lost(), 1), SESSION_EXPIRED)));
    var rest := PublishRun(0, [(1, AtLeastOnce)], topic, [1], AtLeastOnce, false, 0, PLAIN);
    AfterMore(h, [(first, 0)], rest, PLAIN);
    AfterOne(h, first, 0, PLAIN);
    var h1 := After(h, first, 0, PLAIN);
    hide AfterAll;
    AfterPublish(h1, 1, topic);
    DeliveredOnce(h1.byId[1], topic);
  }

  // ---- the run ----

  function FullRun(): Run {
    SETUP + MessageRun() + EXPIRY + Letter()
  }

  lemma ExpiryIsSafe()
    ensures SafeRun(MessageRun()) && SafeRun(EXPIRY) && SafeRun(Letter())
  {
    PublishIsSafe(0, [(2, AtLeastOnce)], Longest(), [1], AtLeastOnce, false, 0, PLAIN);
    PublishIsSafe(0, [(1, AtLeastOnce)], DlqTopic(SLEEPER, Longest()), [1], AtLeastOnce, false, 0, PLAIN);
    hide PublishRun, RecordOf, Longest, DlqTopic;
  }

  lemma LegalThenSafe(h: HubState, a: Run, b: Run, cfg: Config)
    requires LegalRun(h, a, cfg) && SafeRun(b)
    ensures LegalRun(h, a + b, cfg)
  {
    hide AfterAll;
    forall n | 0 <= n < |a + b| ensures Legal(AfterAll(h, (a + b)[..n], cfg), (a + b)[n].0) {
      if n < |a| {
        assert (a + b)[..n] == a[..n];
      } else {
        assert Safe(b[n - |a|].0);
      }
    }
  }

  /**
   * A client subscribed to `#` is sent one message on a topic of 65535 bytes, goes offline and expires.
   * The dead letter is queued for a durable client subscribed to `$dlq/#`. Every call is one the hub can
   * make, every published topic is at most 65535 bytes, and the watcher's queue cannot be recovered by a
   * restart, whatever has been written of it.
   */
  lemma LongDeadLetterIsNotRecoverable()
    ensures var h4 := AfterAll(FIRST, SETUP, PLAIN);
            var h5 := AfterAll(h4, MessageRun(), PLAIN);
            var h7 := AfterAll(h5, EXPIRY, PLAIN);
            var h := AfterAll(h7, Letter(), PLAIN);
            && LegalRun(FIRST, FullRun(), PLAIN) && h == AfterAll(FIRST, FullRun(), PLAIN)
            && |Longest()| == 65535 && IsPublish(h4, MessageRun(), Longest(), [1], AtLeastOnce, false, 0, PLAIN)
            && 2 in h5.byId && Buried(Drain, h5.byId[2].inflight) == [DeadMsg(Lost(), 1)]
            && IsDeadLetter(h7, Letter(), SLEEPER, DeadMsg(Lost(), 1), SESSION_EXPIRED, 0, PLAIN)
            && 1 in h.byId && h.byId[1].clientId == WATCHER && h.byId[1].expiry > 0 && !AllFit(h.byId[1].inflight)
            && forall memo :: !Recoverable(h.byId[1], memo)
  {
    var h4 := AfterAll(FIRST, SETUP, PLAIN);
    var h5 := AfterAll(h4, MessageRun(), PLAIN);
    var h7 := AfterAll(h5, EXPIRY, PLAIN);
    var h := AfterAll(h7, Letter(), PLAIN);
    AfterSetup();
    BothRouted();
    AfterMessage();
    LetterMatches();
    ExpiryIsSafe();
    hide AfterAll, Settling, Sleeping, Alone, MessageRun, Letter, SafeRun, LegalRun, R.IsRoute, DlqTopic, IsDeadLetter,
         Longest, Matches;
    SleepingIs(h5.byId[2]);
    AfterExpiry(h5, h5.byId[2]);
    LetterIsDeadLetter(h7);
    AfterLetter(h7);
    FullRunIsLegal();
    MessageIsPublish(h4);
    NotFitting(h.byId[1].inflight);
  }

  lemma NotFitting(q: seq<Entry>)
    requires |DlqTopic(SLEEPER, Longest())| == 65542
    requires OneQueued(q, DlqTopic(SLEEPER, Longest()))
    ensures !AllFit(q) && q != []
  {
    hide DlqTopic, Longest;
    assert !Fits(q[0]);
  }

  lemma MessageIsPublish(h: HubState)
    requires R.IsRoute(h.router, Longest(), [(2, AtLeastOnce)], [(2, AtLeastOnce)], [])
    ensures IsPublish(h, MessageRun(), Longest(), [1], AtLeastOnce, false, 0, PLAIN)
  {
    hide R.IsRoute, PublishRun, Longest;
    assert IsTargets(h, Longest(), [(2, AtLeastOnce)]);
  }

  lemma FullRunIsLegal()
    requires LegalRun(FIRST, SETUP, PLAIN) && SafeRun(MessageRun()) && SafeRun(EXPIRY) && SafeRun(Letter())
    ensures LegalRun(FIRST, FullRun(), PLAIN)
    ensures AfterAll(FIRST, FullRun(), PLAIN)
         == AfterAll(AfterAll(AfterAll(AfterAll(FIRST, SETUP, PLAIN), MessageRun(), PLAIN), EXPIRY, PLAIN), Letter(),
                     PLAIN)
  {
    hide AfterAll, MessageRun, Letter, SafeRun, LegalRun;
    LegalThenSafe(FIRST, SETUP, MessageRun(), PLAIN);
    LegalThenSafe(FIRST, SETUP + MessageRun(), EXPIRY, PLAIN);
    LegalThenSafe(FIRST, SETUP + MessageRun() + EXPIRY, Letter(), PLAIN);
    AfterMore(FIRST, SETUP, MessageRun(), PLAIN);
    AfterMore(FIRST, SETUP + MessageRun(), EXPIRY, PLAIN);
    AfterMore(FIRST, SETUP + MessageRun() + EXPIRY, Letter(), PLAIN);
  }

  // ---- and the restart does lose it ----

  predicate AtZero(run: Run) {
    forall i :: 0 <= i < |run| ==> run[i].1 == 0
  }

  /** No NUL in a client identifier, and every step at time 0. */
  predicate Orderly(run: Run) {
    NulFreeRun(run) && AtZero(run)
  }

  lemma OrderlyMore(a: Run, b: Run)
    requires Orderly(a) && Orderly(b)
    ensures Orderly(a + b)
  {
  }

  lemma SafeIsOrderly(run: Run)
    requires SafeRun(run) && AtZero(run)
    ensures Orderly(run)
  {
    forall n | 0 <= n < |run| ensures NulFree(run[n].0) {
      assert Safe(run[n].0);
    }
  }

  lemma OrderlyIsClocked(run: Run)
    requires Orderly(run)
    ensures NulFreeRun(run) && Clocked(0, run) && EndOf(0, run) == 0
  {
  }

  lemma PartsAtZero()
    ensures AtZero(MessageRun()) && AtZero(Letter()) && AtZero(EXPIRY) && Orderly(SETUP)
  {
    PublishAtZero([(2, AtLeastOnce)], Longest());
    PublishAtZero([(1, AtLeastOnce)], DlqTopic(SLEEPER, Longest()));
    hide PublishRun, RecordOf, Longest, DlqTopic;
  }

  lemma FullRunIsOrderly()
    ensures NulFreeRun(FullRun()) && Clocked(0, FullRun()) && EndOf(0, FullRun()) == 0
  {
    hide MessageRun, Letter, Orderly, SafeRun, AtZero, NulFreeRun, Clocked, EndOf;
    ExpiryIsSafe();
    PartsAtZero();
    SafeIsOrderly(MessageRun());
    SafeIsOrderly(EXPIRY);
    SafeIsOrderly(Letter());
    OrderlyMore(SETUP, MessageRun());
    OrderlyMore(SETUP + MessageRun(), EXPIRY);
    OrderlyMore(SETUP + MessageRun() + EXPIRY, Letter());
    OrderlyIsClocked(FullRun());
  }

  lemma PublishAtZero(targets: seq<R.Target>, topic: Text)
    ensures AtZero(PublishRun(0, targets, topic, [1], AtLeastOnce, false, 0, PLAIN))
  {
    var copies := CopyRun(targets, topic, [1], AtLeastOnce, 0);
    assert AtZero(copies);
  }

  lemma FullRunEnds()
    ensures LegalRun(FIRST, FullRun(), PLAIN)
    ensures var h := AfterAll(FIRST, FullRun(), PLAIN);
            && 1 in h.byId && h.byId[1].clientId == WATCHER && h.byId[1].expiry > 0
            && forall memo :: !Recoverable(h.byId[1], memo)
  {
    hide AfterAll, MessageRun, Letter, FullRun, LegalRun, Longest, Recoverable, AllFit, IsPublish, IsDeadLetter, Buried;
    LongDeadLetterIsNotRecoverable();
  }

  /** Restarted on the drained disk of that run, the broker has the watcher's session, and not its queue. */
  lemma LongDeadLetterIsLost(now: int, h': HubState)
    requires IsReload(A.Settled(AfterAll(FIRST, FullRun(), PLAIN)), now, PLAIN.retry, h')
    ensures var h := AfterAll(FIRST, FullRun(), PLAIN);
            && 1 in h.byId && WATCHER in h'.idOf && h'.idOf[WATCHER] in h'.byId
            && h'.byId[h'.idOf[WATCHER]] != Stepped(h.byId[1], Reload, now, PLAIN.retry)
  {
    hide AfterAll, FullRun, LegalRun, NulFreeRun, Clocked, EndOf, Stepped, IsReload, Recoverable, A.Settled, A.MemoAll,
         AllAccounted, A.Healthy;
    FullRunEnds();
    FullRunIsOrderly();
    FirstRun(FullRun(), PLAIN, 0);
    var h, sh := AfterAll(FIRST, FullRun(), PLAIN), A.MemoAll(FIRST, map[], FullRun(), PLAIN);
    WatcherHasMemo(h, sh);
    UnrecoverableIsLost(h, sh, h', 0, now, PLAIN, 1);
  }

  lemma WatcherHasMemo(h: HubState, sh: A.Shadow)
    requires A.Healthy(h, sh) && 1 in h.byId && h.byId[1].clientId == WATCHER
    ensures 1 in sh
  {
    hide A.Settled, A.Agree, A.AllWhole;
    LiveHasMemo(h, sh, WATCHER);
  }
}
