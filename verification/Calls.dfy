/** The hub's calls as sequences of steps, and what a publish gives each session (crates/relay-server/src/hub.rs). */
module Calls {
  import opened Basics
  import opened Sessions
  import opened Codec
  import opened Storage
  import opened Broker
  import R = Routing

  // ---- runs ----

  lemma {:induction false} AfterMore(h: HubState, a: Run, b: Run, cfg: Config)
    ensures AfterAll(h, a + b, cfg) == AfterAll(AfterAll(h, a, cfg), b, cfg)
  {
    hide After;
    if b == [] {
      assert a + b == a;
    } else {
      var n := |b| - 1;
      assert (a + b)[..|a + b| - 1] == a + b[..n] && (a + b)[|a + b| - 1] == b[n];
      AfterMore(h, a, b[..n], cfg);
    }
  }

  lemma AfterOne(h: HubState, step: Step, now: int, cfg: Config)
    ensures AfterAll(h, [(step, now)], cfg) == After(h, step, now, cfg)
  {
    hide After;
    assert [(step, now)][..0] == [];
  }

  lemma AfterLast(h: HubState, run: Run, step: Step, now: int, cfg: Config)
    ensures AfterAll(h, run + [(step, now)], cfg) == After(AfterAll(h, run, cfg), step, now, cfg)
  {
    hide After;
    assert (run + [(step, now)])[..|run|] == run;
  }

  /** Steps that are legal in any state. */
  predicate Safe(step: Step) {
    match step
    case Touch(_, acts) => forall i :: 0 <= i < |acts| ==> Ordinary(acts[i])
    case Journal(entry) => entry.AppendEvent? || entry.AppendDeadLetter?
    case Connect(_, _, _) => false
    case Subscribe(_, _, _) => false
    case _ => true
  }

  predicate SafeRun(run: Run) {
    forall i :: 0 <= i < |run| ==> Safe(run[i].0)
  }

  lemma SafeIsLegal(h: HubState, run: Run, cfg: Config)
    requires SafeRun(run)
    ensures LegalRun(h, run, cfg)
  {
    hide AfterAll;
    forall n | 0 <= n < |run| ensures Legal(AfterAll(h, run[..n], cfg), run[n].0) {
      assert Safe(run[n].0);
    }
  }

  // ---- publishing ----

  /** One delivery to each target, at the lower of the published and the granted QoS. */
  function CopyRun(targets: seq<R.Target>, topic: Text, payload: Bytes, qos: QoS, now: int): (run: Run)
    ensures |run| == |targets|
    ensures forall k :: 0 <= k < |run| ==>
      run[k] == (Touch(targets[k].0, [Deliver(topic, payload, MinQoS(qos, targets[k].1), false)]), now)
  {
    if targets == [] then []
    else
      var n := |targets| - 1;
      CopyRun(targets[..n], topic, payload, qos, now)
      + [(Touch(targets[n].0, [Deliver(topic, payload, MinQoS(qos, targets[n].1), false)]), now)]
  }

  /** The store, the journal and the router, before any session is touched. */
  function FrontRun(ts: U64, topic: Text, payload: Bytes, qos: QoS, retain: bool, now: int, cfg: Config): Run {
    (if retain then [(Retain(topic, payload, qos), now)] else [])
    + (if cfg.eventLogMax > 0 && !StartsWith(topic, [DOLLAR])
       then [(Journal(AppendEvent(EncodeEvent(ts, topic, qos, payload), cfg.eventLogMax)), now)] else [])
    + [(Route(topic), now)]
  }

  function PublishRun(ts: U64, targets: seq<R.Target>, topic: Text, payload: Bytes, qos: QoS, retain: bool, now: int,
                      cfg: Config): Run {
    FrontRun(ts, topic, payload, qos, retain, now, cfg) + CopyRun(targets, topic, payload, qos, now)
  }

  /** The targets of a publish are those the router resolves. */
  ghost predicate IsTargets(h: HubState, topic: Text, targets: seq<R.Target>) {
    exists fanOut, groups :: R.IsRoute(h.router, topic, targets, fanOut, groups)
  }

  ghost predicate IsPublish(h: HubState, run: Run, topic: Text, payload: Bytes, qos: QoS, retain: bool, now: int,
                            cfg: Config) {
    exists ts, targets ::
      IsTargets(h, topic, targets) && run == PublishRun(ts, targets, topic, payload, qos, retain, now, cfg)
  }

  lemma PublishIsSafe(ts: U64, targets: seq<R.Target>, topic: Text, payload: Bytes, qos: QoS, retain: bool, now: int,
                      cfg: Config)
    ensures SafeRun(PublishRun(ts, targets, topic, payload, qos, retain, now, cfg))
  {
    hide EncodeEvent;
    var front := FrontRun(ts, topic, payload, qos, retain, now, cfg);
    var copies := CopyRun(targets, topic, payload, qos, now);
    assert forall i :: 0 <= i < |front| ==> Safe(front[i].0);
    forall i | 0 <= i < |copies| ensures Safe(copies[i].0) {
    }
  }

  /** The QoS levels a client is granted among the targets, in order. */
  function Grants(targets: seq<R.Target>, id: ClientId): seq<QoS> {
    if targets == [] then []
    else
      var n := |targets| - 1;
      Grants(targets[..n], id) + if targets[n].0 == id then [targets[n].1] else []
  }

  function Copies(grants: seq<QoS>, topic: Text, payload: Bytes, qos: QoS): (acts: seq<Act>)
    ensures |acts| == |grants|
    ensures forall k :: 0 <= k < |acts| ==> acts[k] == Deliver(topic, payload, MinQoS(qos, grants[k]), false)
  {
    seq(|grants|, k requires 0 <= k < |grants| => Deliver(topic, payload, MinQoS(qos, grants[k]), false))
  }

  lemma {:induction false} SteppedMore(s: SessionState, acts: seq<Act>, act: Act, now: int, cfg: RetryConfig)
    ensures SteppedAll(s, acts + [act], now, cfg) == Stepped(SteppedAll(s, acts, now, cfg), act, now, cfg)
    decreases |acts|
  {
    hide Stepped;
    if acts == [] {
      assert (acts + [act])[1..] == [];
      assert acts + [act] == [act];
    } else {
      assert (acts + [act])[1..] == acts[1..] + [act];
      SteppedMore(Stepped(s, acts[0], now, cfg), acts[1..], act, now, cfg);
    }
  }

  /** Each live session gets exactly its own copies, in order, and every other session is left alone. */
  lemma {:induction false} EachGetsItsCopies(h: HubState, targets: seq<R.Target>, topic: Text, payload: Bytes, qos: QoS,
                                             now: int, cfg: Config)
    ensures var h' := AfterAll(h, CopyRun(targets, topic, payload, qos, now), cfg);
            && h'.byId.Keys == h.byId.Keys
            && forall id :: id in h.byId ==>
                 h'.byId[id] == SteppedAll(h.byId[id], Copies(Grants(targets, id), topic, payload, qos), now, cfg.retry)
  {
    hide Stepped, SavesAny, Snapshot;
    if targets != [] {
      var n := |targets| - 1;
      var copies, t := CopyRun(targets, topic, payload, qos, now), targets[n];
      var act := Deliver(topic, payload, MinQoS(qos, t.1), false);
      EachGetsItsCopies(h, targets[..n], topic, payload, qos, now, cfg);
      assert copies[..n] == CopyRun(targets[..n], topic, payload, qos, now);
      var h1 := AfterAll(h, copies[..n], cfg);
      forall id | id in h.byId
        ensures After(h1, copies[n].0, now, cfg).byId[id]
             == SteppedAll(h.byId[id], Copies(Grants(targets, id), topic, payload, qos), now, cfg.retry)
      {
        CopyStep(h.byId[id], targets, topic, payload, qos, id, now, cfg.retry);
        OneActRun(h1.byId[id], act, now, cfg.retry);
      }
    }
  }

  lemma OneActRun(s: SessionState, act: Act, now: int, cfg: RetryConfig)
    ensures SteppedAll(s, [act], now, cfg) == Stepped(s, act, now, cfg)
  {
    hide Stepped;
    assert [act][1..] == [];
  }

  lemma CopyStep(s: SessionState, targets: seq<R.Target>, topic: Text, payload: Bytes, qos: QoS, id: ClientId, now: int,
                 cfg: RetryConfig)
    requires targets != []
    ensures var n := |targets| - 1;
            var before := SteppedAll(s, Copies(Grants(targets[..n], id), topic, payload, qos), now, cfg);
            SteppedAll(s, Copies(Grants(targets, id), topic, payload, qos), now, cfg)
            == if targets[n].0 == id
               then Stepped(before, Deliver(topic, payload, MinQoS(qos, targets[n].1), false), now, cfg) else before
  {
    hide Stepped, SteppedAll;
    var n := |targets| - 1;
    var grants, act := Grants(targets[..n], id), Deliver(topic, payload, MinQoS(qos, targets[n].1), false);
    if targets[n].0 == id {
      assert Copies(grants + [targets[n].1], topic, payload, qos) == Copies(grants, topic, payload, qos) + [act];
      SteppedMore(s, Copies(grants, topic, payload, qos), act, now, cfg);
    } else {
      assert grants + [] == grants;
    }
  }

  // ---- how many copies ----

  lemma {:induction false} GrantsCount(targets: seq<R.Target>, id: ClientId, g: QoS)
    ensures multiset(Grants(targets, id))[g] == multiset(targets)[(id, g)]
  {
    if targets != [] {
      var n := |targets| - 1;
      GrantsCount(targets[..n], id, g);
      assert targets == targets[..n] + [targets[n]];
    }
  }

  /** How many of these groups pick this client at this QoS. */
  function PicksOf(r: R.RouterState, topic: Text, groups: seq<Text>, t: R.Target): nat
    requires forall g :: g in groups ==> g in r.shared && R.Competes(r.shared[g], topic)
  {
    if groups == [] then 0
    else
      var n := |groups| - 1;
      PicksOf(r, topic, groups[..n], t) + if R.PickOf(r.shared[groups[n]], topic) == t then 1 else 0
  }

  lemma {:induction false} PicksCount(r: R.RouterState, topic: Text, groups: seq<Text>, t: R.Target)
    requires forall g :: g in groups ==> g in r.shared && R.Competes(r.shared[g], topic)
    ensures multiset(R.Picks(r, topic, groups))[t] == PicksOf(r, topic, groups, t)
  {
    hide R.Competes, R.PickOf;
    if groups != [] {
      PicksCount(r, topic, groups[..|groups| - 1], t);
    }
  }

  lemma {:induction false} OneFanOut(fanOut: seq<R.Target>, t: R.Target)
    requires R.OnePerClient(fanOut)
    ensures multiset(fanOut)[t] == if t in fanOut then 1 else 0
  {
    if fanOut != [] {
      var n := |fanOut| - 1;
      OneFanOut(fanOut[..n], t);
      assert fanOut == fanOut[..n] + [fanOut[n]];
    }
  }

  /**
   * The copies a client is due at each QoS: one at its best matching fan-out subscription, if it has
   * one, and one for every share group that picks it.
   */
  lemma CopiesDue(h: HubState, topic: Text, targets: seq<R.Target>, fanOut: seq<R.Target>, groups: seq<Text>,
                  id: ClientId, g: QoS)
    requires R.IsRoute(h.router, topic, targets, fanOut, groups)
    ensures multiset(Grants(targets, id))[g]
         == (if R.IsBest(h.router, id, topic, g) then 1 else 0) + PicksOf(h.router, topic, groups, (id, g))
  {
    hide R.IsBest, R.Competes, R.Picks;
    GrantsCount(targets, id, g);
    OneFanOut(fanOut, (id, g));
    PicksCount(h.router, topic, groups, (id, g));
  }

  // ---- dead letters ----

  function DlqTopic(client: Text, topic: Text): Text {
    DLQ + client + [SLASH] + topic
  }

  /** `max_delivery_attempts_exceeded` */
  const EXHAUSTED: Text := [109, 97, 120, 95, 100, 101, 108, 105, 118, 101, 114, 121, 95, 97, 116, 116, 101, 109, 112,
                            116, 115, 95, 101, 120, 99, 101, 101, 100, 101, 100]

  /** `session_expired` */
  const SESSION_EXPIRED: Text := [115, 101, 115, 115, 105, 111, 110, 95, 101, 120, 112, 105, 114, 101, 100]

  function RecordOf(ts: U64, client: Text, msg: DeadMsg, reason: Text): Bytes {
    EncodeDeadLetter(ts, msg.attempts, reason, client, msg.publish.topic, msg.publish.qos, msg.publish.payload)
  }

  /** A dead letter is recorded once and published once, on a topic that can produce no further one. */
  ghost predicate IsDeadLetter(h: HubState, run: Run, client: Text, msg: DeadMsg, reason: Text, now: int, cfg: Config) {
    if IsDlqTopic(msg.publish.topic) then run == []
    else
      exists ts: U64, rest: Run ::
        && run == [(Journal(AppendDeadLetter(RecordOf(ts, client, msg, reason))), now)] + rest
        && IsPublish(h, rest, DlqTopic(client, msg.publish.topic), msg.publish.payload, msg.publish.qos, false, now,
                     cfg)
  }

  ghost predicate IsDeadLetters(h: HubState, run: Run, dead: seq<(Text, DeadMsg)>, reason: Text, now: int, cfg: Config)
    decreases |dead|
  {
    if dead == [] then run == []
    else
      var n := |dead| - 1;
      exists before: Run, last: Run ::
        && run == before + last && IsDeadLetters(h, before, dead[..n], reason, now, cfg)
        && IsDeadLetter(AfterAll(h, before, cfg), last, dead[n].0, dead[n].1, reason, now, cfg)
  }

  lemma DeadLettersMore(h: HubState, before: Run, last: Run, dead: seq<(Text, DeadMsg)>, k: nat, reason: Text, now: int,
                        cfg: Config)
    requires k < |dead| && IsDeadLetters(h, before, dead[..k], reason, now, cfg)
    requires IsDeadLetter(AfterAll(h, before, cfg), last, dead[k].0, dead[k].1, reason, now, cfg)
    ensures IsDeadLetters(h, before + last, dead[..k + 1], reason, now, cfg)
  {
    hide IsDeadLetter, AfterAll;
    assert dead[..k + 1][..k] == dead[..k];
  }

  // ---- the retry timer ----

  /** The timer's turn at each session, in the order the table gives them. */
  function TickRun(order: seq<ClientId>, now: int): Run {
    if order == [] then []
    else TickRun(order[..|order| - 1], now) + [(Touch(order[|order| - 1], [Tick]), now)]
  }

  /** Dead letters, each with the client they are of. */
  function Tagged(client: Text, dead: seq<DeadMsg>): (r: seq<(Text, DeadMsg)>)
    ensures |r| == |dead| && forall i :: 0 <= i < |r| ==> r[i] == (client, dead[i])
  {
    seq(|dead|, i requires 0 <= i < |dead| => (client, dead[i]))
  }

  /** What the timer buries at a session: nothing while it is offline. */
  function BuriedAt(s: SessionState, now: int, cfg: RetryConfig): seq<(Text, DeadMsg)> {
    if s.tx.None? then [] else Tagged(s.clientId, Buried(Retry(now, cfg), s.inflight))
  }

  function BuriedIn(byId: map<ClientId, SessionState>, order: seq<ClientId>, now: int, cfg: RetryConfig)
    : seq<(Text, DeadMsg)>
    requires forall id :: id in order ==> id in byId
  {
    if order == [] then []
    else BuriedIn(byId, order[..|order| - 1], now, cfg) + BuriedAt(byId[order[|order| - 1]], now, cfg)
  }

  /** What is published for a dead letter is itself in the dead-letter namespace, so it ends there. */
  lemma DeadLettersEnd(client: Text, topic: Text)
    ensures IsDlqTopic(DlqTopic(client, topic)) && StartsWith(DlqTopic(client, topic), [DOLLAR])
  {
    var t := DlqTopic(client, topic);
    assert t[..5] == DLQ;
    assert t[..1] == [DOLLAR];
  }
}
