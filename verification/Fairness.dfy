/** How evenly a share group spreads messages over its members (crates/relay-core/src/router.rs). */
module Fairness {
  import opened Basics
  import opened Routing

  /** The cursor `j` turns after cursor `c`. */
  function CursorAfter(c: U64, j: nat): U64 {
    (c + j) % U64_SIZE
  }

  /** The position picked `j` turns after cursor `c`, among `n` matching members. */
  function Slot(c: U64, n: nat, j: nat): nat
    requires n > 0
  {
    CursorAfter(c, j) % n
  }

  /** How many of the next `k` turns pick position `i`. */
  function Turns(c: U64, n: nat, k: nat, i: nat): nat
    requires n > 0
  {
    if k == 0 then 0 else Turns(c, n, k - 1, i) + if Slot(c, n, k - 1) == i then 1 else 0
  }

  /** In the next `k` turns every position is picked k/n times, rounded down or up. */
  ghost predicate Even(c: U64, n: nat, k: nat)
    requires n > 0
  {
    forall i :: 0 <= i < n ==> k / n <= Turns(c, n, k, i) <= (k + n - 1) / n
  }

  /** How many numbers below `x` leave remainder `i`. */
  function Upto(x: nat, n: nat, i: nat): nat
    requires n > 0
  {
    x / n + if x % n > i then 1 else 0
  }

  lemma QuotientIs(x: int, n: int, q: int, r: int)
    requires 0 <= r < n && x == q * n + r
    ensures x / n == q && x % n == r
  {
    OnlyZero(x / n - q, n, r - x % n);
  }

  lemma OnlyZero(d: int, n: int, e: int)
    requires d * n == e && -n < e < n
    ensures d == 0
  {
  }

  lemma UptoStep(x: nat, n: nat, i: nat)
    requires 0 <= i < n
    ensures Upto(x + 1, n, i) == Upto(x, n, i) + if x % n == i then 1 else 0
  {
    if x % n + 1 < n {
      QuotientIs(x + 1, n, x / n, x % n + 1);
    } else {
      QuotientIs(x + 1, n, x / n + 1, 0);
    }
  }

  /** As long as the picked slot is (c + j) mod n, counting turns is counting remainders. */
  lemma {:induction false} TurnsCount(c: U64, n: nat, k: nat, i: nat)
    requires 0 <= i < n
    requires forall j {:trigger Slot(c, n, j)} :: 0 <= j < k ==> Slot(c, n, j) == (c + j) % n
    ensures Turns(c, n, k, i) == Upto(c + k, n, i) - Upto(c, n, i)
  {
    if k > 0 {
      TurnsCount(c, n, k - 1, i);
      UptoStep(c + k - 1, n, i);
      hide Slot, Upto;
      assert Slot(c, n, k - 1) == (c + (k - 1)) % n;
    }
  }

  lemma Carry(c: nat, k: nat, n: nat)
    requires n > 0
    ensures k / n == (c + k) / n - c / n - if (c + k) % n < c % n then 1 else 0
    ensures (k + n - 1) / n == (c + k) / n - c / n + if (c + k) % n > c % n then 1 else 0
  {
    var q, d := (c + k) / n - c / n, (c + k) % n - c % n;
    assert k == q * n + d;
    if d < 0 {
      QuotientIs(k, n, q - 1, d + n);
      QuotientIs(k + n - 1, n, q, d + n - 1);
    } else if d == 0 {
      QuotientIs(k, n, q, 0);
      QuotientIs(k + n - 1, n, q, n - 1);
    } else {
      QuotientIs(k, n, q, d);
      QuotientIs(k + n - 1, n, q + 1, d - 1);
    }
  }

  lemma EvenWhenPlain(c: U64, n: nat, k: nat)
    requires n > 0
    requires forall j {:trigger Slot(c, n, j)} :: 0 <= j < k ==> Slot(c, n, j) == (c + j) % n
    ensures Even(c, n, k)
  {
    forall i | 0 <= i < n ensures k / n <= Turns(c, n, k, i) <= (k + n - 1) / n {
      TurnsCount(c, n, k, i);
      Carry(c, k, n);
    }
  }

  /** Until the cursor wraps, any number of turns is spread evenly, for any number of members. */
  lemma EvenUntilWrap(c: U64, n: nat, k: nat)
    requires n > 0 && c + k <= U64_SIZE
    ensures Even(c, n, k)
  {
    EvenWhenPlain(c, n, k);
  }

  lemma RemainderOfRemainder(x: nat, w: nat, n: nat)
    requires n > 0 && w > 0 && w % n == 0
    ensures x % w % n == x % n
  {
    var q, p := x / w, w / n;
    assert x % w == (x % w / n) * n + x % w % n;
    assert x == q * (p * n) + x % w;
    assert q * (p * n) == (q * p) * n;
    assert x == (q * p + x % w / n) * n + x % w % n;
    QuotientIs(x, n, q * p + x % w / n, x % w % n);
  }

  lemma {:induction false} TurnsGrow(c: U64, n: nat, k: nat, more: nat, i: nat)
    requires n > 0
    ensures Turns(c, n, k, i) <= Turns(c, n, k + more, i)
  {
    if more > 0 {
      TurnsGrow(c, n, k, more - 1, i);
    }
  }

  lemma WholeRounds(w: nat, n: nat)
    requires n > 0
    ensures 0 <= w % n < n && w % n <= w && (w - w % n) % n == 0
  {
    assert w == (w / n) * n + w % n;
    QuotientIs(w - w % n, n, w / n, 0);
  }

  /** Just before the wrap, the first member is picked twice before others have had their turn. */
  lemma UnevenAtWrap(n: nat)
    requires 0 < n && U64_SIZE % n != 0
    ensures var s := U64_SIZE % n;
            0 < s < n && Turns(U64_SIZE - s, n, s + 1, 0) >= 2 && !Even(U64_SIZE - s, n, s + 1)
  {
    var s := U64_SIZE % n;
    WholeRounds(U64_SIZE, n);
    WrapSlots(n, s);
    hide Slot;
    TurnsGrow(U64_SIZE - s, n, 1, s - 1, 0);
    QuotientIs(s + 1 + n - 1, n, 1, s);
    hide Turns;
  }

  /** From `s` before the wrap, the turn at once and the turn `s` later both pick the first position. */
  lemma WrapSlots(n: nat, s: nat)
    requires 0 < s < n && s <= U64_SIZE && (U64_SIZE - s) % n == 0
    ensures Slot(U64_SIZE - s, n, 0) == 0 && Slot(U64_SIZE - s, n, s) == 0
  {
    CursorMoves(U64_SIZE - s, 0);
    assert CursorAfter(U64_SIZE - s, s) == 0;
    hide CursorAfter;
  }

  /** Round robin is even over every window from every cursor exactly when n divides 2^64. */
  lemma EvenForeverExactlyWhen(n: nat)
    requires n > 0
    ensures (forall c: U64, k: nat :: Even(c, n, k)) <==> U64_SIZE % n == 0
  {
    hide Even, Turns;
    if U64_SIZE % n == 0 {
      forall c: U64, k: nat ensures Even(c, n, k) {
        forall j | 0 <= j < k ensures Slot(c, n, j) == (c + j) % n {
          RemainderOfRemainder(c + j, U64_SIZE, n);
        }
        EvenWhenPlain(c, n, k);
      }
    } else {
      UnevenAtWrap(n);
    }
  }

  // ---- the router ----

  lemma CursorMoves(c: U64, k: nat)
    ensures CursorAfter(c, 0) == c && (CursorAfter(c, k) + 1) % U64_SIZE == CursorAfter(c, k + 1)
  {
  }

  /** The router after routing some topics in turn. */
  function RoutedAll(r: RouterState, topics: seq<Text>): RouterState {
    if topics == [] then r else Advanced(RoutedAll(r, topics[..|topics| - 1]), topics[|topics| - 1])
  }

  /** What a group picked while those topics were routed. */
  function PicksFor(r: RouterState, group: Text, topics: seq<Text>): seq<Target> {
    if topics == [] then []
    else
      var before, topic := RoutedAll(r, topics[..|topics| - 1]), topics[|topics| - 1];
      PicksFor(r, group, topics[..|topics| - 1])
      + if group in before.shared && Competes(before.shared[group], topic)
        then [PickOf(before.shared[group], topic)] else []
  }

  lemma WalkStep(b: RouterState, group: Text, topic: Text, g: Group, k: nat, matching: seq<Target>)
    requires group in b.shared && b.shared[group] == g.(cursor := CursorAfter(g.cursor, k)) && matching != []
    requires MatchingMembers(g.members, topic) in {matching, []}
    ensures group in Advanced(b, topic).shared
    ensures Competes(b.shared[group], topic) ==>
      && PickOf(b.shared[group], topic) == matching[Slot(g.cursor, |matching|, k)]
      && Advanced(b, topic).shared[group] == g.(cursor := CursorAfter(g.cursor, k + 1))
    ensures !Competes(b.shared[group], topic) ==> Advanced(b, topic).shared[group] == b.shared[group]
  {
    CursorMoves(g.cursor, k);
    hide MatchingMembers, CursorAfter;
  }

  /**
   * While every routed topic matches either the same members of a group or none of them, the group
   * walks through them in order: its k-th pick is slot k, whatever was routed to others in between.
   */
  lemma {:induction false} GroupWalksItsMembers(r: RouterState, group: Text, topics: seq<Text>, matching: seq<Target>)
    requires group in r.shared && matching != []
    requires forall t :: t in topics ==> MatchingMembers(r.shared[group].members, t) in {matching, []}
    ensures var picks, g := PicksFor(r, group, topics), r.shared[group];
            && group in RoutedAll(r, topics).shared
            && RoutedAll(r, topics).shared[group] == g.(cursor := CursorAfter(g.cursor, |picks|))
            && forall k :: 0 <= k < |picks| ==> picks[k] == matching[Slot(g.cursor, |matching|, k)]
  {
    hide CursorAfter, Slot, Advanced, PickOf, Competes;
    CursorMoves(r.shared[group].cursor, 0);
    if topics != [] {
      var before, topic := topics[..|topics| - 1], topics[|topics| - 1];
      assert forall t :: t in before ==> t in topics;
      GroupWalksItsMembers(r, group, before, matching);
      assert topic in topics;
      WalkStep(RoutedAll(r, before), group, topic, r.shared[group], |PicksFor(r, group, before)|, matching);
    }
  }

  lemma {:induction false} PicksAreTurns(picks: seq<Target>, c: U64, matching: seq<Target>, i: nat)
    requires i < |matching| && (forall a, b :: 0 <= a < b < |matching| ==> matching[a] != matching[b])
    requires forall k :: 0 <= k < |picks| ==> picks[k] == matching[Slot(c, |matching|, k)]
    ensures multiset(picks)[matching[i]] == Turns(c, |matching|, |picks|, i)
  {
    hide Slot;
    if picks != [] {
      var n := |picks| - 1;
      PicksAreTurns(picks[..n], c, matching, i);
      assert picks == picks[..n] + [picks[n]];
      SlotInRange(c, |matching|, n);
    }
  }

  lemma SlotInRange(c: U64, n: nat, j: nat)
    requires n > 0
    ensures Slot(c, n, j) < n
  {
  }

  /**
   * Over any topics that see the same n members of a group or none of them, each position is picked
   * floor(k/n) or ceil(k/n) times in the k picks made, as long as the cursor does not wrap; and so is
   * each member, when no two members are the same client at the same QoS.
   */
  lemma {:induction false} GroupPicksEvenly(r: RouterState, group: Text, topics: seq<Text>, matching: seq<Target>)
    requires group in r.shared && matching != []
    requires forall t :: t in topics ==> MatchingMembers(r.shared[group].members, t) in {matching, []}
    requires r.shared[group].cursor + |PicksFor(r, group, topics)| <= U64_SIZE
    ensures var picks, n := PicksFor(r, group, topics), |matching|;
            && Even(r.shared[group].cursor, n, |picks|)
            && ((forall a, b :: 0 <= a < b < n ==> matching[a] != matching[b]) ==>
                  forall i :: 0 <= i < n ==>
                    |picks| / n <= multiset(picks)[matching[i]] <= (|picks| + n - 1) / n)
  {
    hide MatchingMembers, PicksFor, RoutedAll, Turns, Slot;
    var picks, n, c := PicksFor(r, group, topics), |matching|, r.shared[group].cursor;
    GroupWalksItsMembers(r, group, topics, matching);
    EvenUntilWrap(c, n, |picks|);
    if forall a, b :: 0 <= a < b < n ==> matching[a] != matching[b] {
      forall i | 0 <= i < n ensures |picks| / n <= multiset(picks)[matching[i]] <= (|picks| + n - 1) / n {
        PicksAreTurns(picks, c, matching, i);
      }
    }
  }
}
