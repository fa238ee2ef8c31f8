/** The retained-message store (crates/relay-core/src/retained.rs) and its rows on disk. */
module Retained {
  import opened Basics
  import opened Topics
  import opened Storage

  type Shelf = map<Text, Message>

  function Shelved(shelf: Shelf, m: Message): Shelf {
    if m.payload == [] then shelf - {m.topic} else shelf[m.topic := m]
  }

  function ShelvedAll(shelf: Shelf, ms: seq<Message>): Shelf {
    if ms == [] then shelf else Shelved(ShelvedAll(shelf, ms[..|ms| - 1]), ms[|ms| - 1])
  }

  predicate Labelled(shelf: Shelf) {
    forall t :: t in shelf ==> shelf[t].topic == t && shelf[t].payload != []
  }

  /** The last message of a list on a topic. */
  function LastOn(ms: seq<Message>, topic: Text): Option<Message> {
    if ms == [] then None
    else if ms[|ms| - 1].topic == topic then Some(ms[|ms| - 1])
    else LastOn(ms[..|ms| - 1], topic)
  }

  /** After any run of retained publishes each topic holds its last message, unless that one was empty. */
  lemma {:induction false} RetainsTheLast(ms: seq<Message>, topic: Text)
    ensures Labelled(ShelvedAll(map[], ms))
    ensures At(ShelvedAll(map[], ms), topic)
         == match LastOn(ms, topic)
            case None => None
            case Some(m) => if m.payload == [] then None else Some(m)
  {
    if ms != [] {
      RetainsTheLast(ms[..|ms| - 1], topic);
    }
  }

  // ---- byte order of topics ----

  predicate Precedes(a: Text, b: Text) {
    b != [] && (a == [] || a[0] < b[0] || (a[0] == b[0] && Precedes(a[1..], b[1..])))
  }

  lemma {:induction false} PrecedesTotal(a: Text, b: Text)
    ensures a == b || Precedes(a, b) || Precedes(b, a)
  {
    if a != [] && b != [] && a[0] == b[0] {
      PrecedesTotal(a[1..], b[1..]);
      assert a == [a[0]] + a[1..] && b == [b[0]] + b[1..];
    }
  }

  lemma {:induction false} PrecedesTransitive(a: Text, b: Text, c: Text)
    requires Precedes(a, b) && Precedes(b, c)
    ensures Precedes(a, c)
  {
    if a != [] && a[0] == b[0] && b[0] == c[0] {
      PrecedesTransitive(a[1..], b[1..], c[1..]);
    }
  }

  /** How many bytes two topics have in common at the start. */
  function InCommon(a: Text, b: Text): (n: nat)
    ensures n <= |a| && n <= |b|
    ensures forall i :: 0 <= i < n ==> a[i] == b[i]
    ensures n < |a| && n < |b| ==> a[n] != b[n]
  {
    if a != [] && b != [] && a[0] == b[0] then 1 + InCommon(a[1..], b[1..]) else 0
  }

  /** The order is by the first byte that differs, a topic before its own extensions. */
  lemma {:induction false} PrecedesIsByteOrder(a: Text, b: Text)
    ensures var n := InCommon(a, b); Precedes(a, b) <==> n < |b| && (n == |a| || a[n] < b[n])
  {
    if a != [] && b != [] && a[0] == b[0] {
      PrecedesIsByteOrder(a[1..], b[1..]);
    }
  }

  predicate ByTopic(ms: seq<Message>) {
    forall i, j :: 0 <= i < j < |ms| ==> Precedes(ms[i].topic, ms[j].topic)
  }

  function Place(m: Message, ms: seq<Message>): seq<Message> {
    if ms == [] then [m]
    else if Precedes(m.topic, ms[0].topic) then [m] + ms
    else [ms[0]] + Place(m, ms[1..])
  }

  lemma {:induction false} PlaceListed(m: Message, ms: seq<Message>)
    ensures forall x :: x in Place(m, ms) <==> x == m || x in ms
  {
    hide Precedes;
    if ms != [] {
      PlaceListed(m, ms[1..]);
      assert ms == [ms[0]] + ms[1..];
    }
  }

  lemma {:induction false} PlaceSorts(m: Message, ms: seq<Message>)
    requires ByTopic(ms) && forall x :: x in ms ==> x.topic != m.topic
    ensures ByTopic(Place(m, ms))
  {
    hide Precedes;
    if ms == [] {
    } else if Precedes(m.topic, ms[0].topic) {
      forall i | 0 < i < |ms| ensures Precedes(m.topic, ms[i].topic) {
        PrecedesTransitive(m.topic, ms[0].topic, ms[i].topic);
      }
    } else {
      assert ms[0] in ms;
      PrecedesTotal(m.topic, ms[0].topic);
      PlaceSorts(m, ms[1..]);
      PlaceListed(m, ms[1..]);
      forall x | x in Place(m, ms[1..]) ensures Precedes(ms[0].topic, x.topic) {
        if x != m {
          var i :| 0 <= i < |ms[1..]| && ms[1..][i] == x;
          assert ms[i + 1] == x;
        }
      }
    }
  }

  /** The messages of the topics in `among` that match a filter. */
  ghost predicate IsMatching(shelf: Shelf, among: set<Text>, filter: Text, out: seq<Message>) {
    && ByTopic(out)
    && (forall m :: m in out <==> m.topic in among && At(shelf, m.topic) == Some(m) && Matches(filter, m.topic))
  }

  lemma MatchingStep(shelf: Shelf, done: set<Text>, filter: Text, out: seq<Message>, t: Text)
    requires Labelled(shelf) && IsMatching(shelf, done, filter, out) && t in shelf && t !in done
    ensures IsMatching(shelf, done + {t}, filter, if Matches(filter, t) then Place(shelf[t], out) else out)
  {
    hide Precedes, Place, Matches;
    if Matches(filter, t) {
      PlaceListed(shelf[t], out);
      PlaceSorts(shelf[t], out);
    }
  }

  class RetainedStore {
    var byTopic: Shelf

    constructor ()
      ensures byTopic == map[] && Labelled(byTopic)
    {
      byTopic := map[];
    }

    method Apply(m: Message)
      requires Labelled(byTopic)
      modifies this
      ensures Labelled(byTopic) && byTopic == Shelved(old(byTopic), m)
    {
      if m.payload == [] {
        byTopic := byTopic - {m.topic};
      } else {
        byTopic := byTopic[m.topic := m];
      }
    }

    /** Every retained message that matches, once each, in topic order. */
    method Matching(filter: Text) returns (out: seq<Message>)
      requires Labelled(byTopic)
      ensures ByTopic(out)
      ensures forall m :: m in out <==> At(byTopic, m.topic) == Some(m) && Matches(filter, m.topic)
    {
      hide Precedes, Place, Matches;
      out := [];
      var left := byTopic.Keys;
      while left != {}
        invariant left <= byTopic.Keys
        invariant IsMatching(byTopic, byTopic.Keys - left, filter, out)
        decreases |left|
      {
        var t :| t in left;
        MatchingStep(byTopic, byTopic.Keys - left, filter, out, t);
        assert byTopic.Keys - (left - {t}) == (byTopic.Keys - left) + {t};
        left := left - {t};
        var hit := TopicMatches(filter, t);
        if hit {
          out := Place(byTopic[t], out);
        }
      }
      assert byTopic.Keys - left == byTopic.Keys;
    }

    /** Fill the store from its table on disk. */
    method Load(table: map<Text, Bytes>)
      requires byTopic == map[]
      modifies this
      ensures Labelled(byTopic) && byTopic == Unpacked(table, table.Keys)
    {
      hide QosOf;
      var left := table.Keys;
      assert Unpacked(table, {}) == map[];
      while left != {}
        modifies this
        invariant left <= table.Keys && Labelled(byTopic)
        invariant byTopic == Unpacked(table, table.Keys - left)
        decreases |left|
      {
        var t :| t in left;
        UnpackStep(table, table.Keys - left, t);
        assert table.Keys - (left - {t}) == (table.Keys - left) + {t};
        left := left - {t};
        var value := table[t];
        if value != [] {
          Apply(Message(t, value[1..], QosOf(value), true));
        }
      }
      assert table.Keys - left == table.Keys;
    }
  }

  /** The messages stored in the rows in `among`. */
  function Unpacked(table: map<Text, Bytes>, among: set<Text>): Shelf {
    map t | t in table && t in among && |table[t]| >= 2 :: Message(t, table[t][1..], QosOf(table[t]), true)
  }

  lemma UnpackStep(table: map<Text, Bytes>, done: set<Text>, t: Text)
    requires t in table && t !in done
    ensures Unpacked(table, done + {t})
         == if table[t] == [] then Unpacked(table, done)
            else Shelved(Unpacked(table, done), Message(t, table[t][1..], QosOf(table[t]), true))
  {
    hide QosOf;
  }

  /** A topic's row holds its retained message. */
  predicate RowAgrees(shelf: Shelf, table: map<Text, Bytes>, t: Text) {
    && (t in shelf ==> shelf[t].topic == t && shelf[t].payload != [] && shelf[t].retain)
    && At(table, t) == if t in shelf then Some([shelf[t].qos.Level()] + shelf[t].payload) else None
  }

  /** From agreeing rows the same messages are loaded. */
  lemma UnpackedAgain(shelf: Shelf, table: map<Text, Bytes>)
    requires forall t :: RowAgrees(shelf, table, t)
    ensures Unpacked(table, table.Keys) == shelf
  {
    var back := Unpacked(table, table.Keys);
    forall t ensures At(back, t) == At(shelf, t) {
      assert RowAgrees(shelf, table, t);
      if t in shelf {
        QosBack(shelf[t].qos);
        assert QosOf(table[t]) == shelf[t].qos;
        assert table[t][1..] == shelf[t].payload;
      }
    }
    hide QosOf, Unpacked, RowAgrees;
    SameEntries(back, shelf);
  }

  lemma SameEntries<V>(a: map<Text, V>, b: map<Text, V>)
    requires forall k :: At(a, k) == At(b, k)
    ensures a == b
  {
    forall k ensures (k in a <==> k in b) && (k in a && k in b ==> a[k] == b[k]) {
      assert At(a, k) == At(b, k);
    }
  }

  lemma PutRetainedAgrees(shelf: Shelf, d: Disk, topic: Text, payload: Bytes, qos: QoS, t: Text)
    requires RowAgrees(shelf, d.retained, t)
    ensures RowAgrees(Shelved(shelf, Message(topic, payload, qos, true)),
                      Apply(d, PutRetained(topic, payload, qos)).retained, t)
  {
  }
}
