/** Topic names, topic filters and shared subscriptions (crates/relay-core/src/topic.rs). */
module Topics {
  import opened Basics

  type Levels = seq<Text>

  const ANY_ONE: Text := [PLUS]
  const ANY_REST: Text := [HASH]

  // ---- splitting on '/' ----

  function Split(s: Text): (ls: Levels)
    ensures |ls| >= 1
    ensures forall i :: 0 <= i < |ls| ==> SLASH !in ls[i]
  {
    if s == [] then [[]]
    else
      var rest := Split(s[1..]);
      if s[0] == SLASH then [[]] + rest else [[s[0]] + rest[0]] + rest[1..]
  }

  function Join(ls: Levels): Text
    requires |ls| >= 1
  {
    if |ls| == 1 then ls[0] else ls[0] + [SLASH] + Join(ls[1..])
  }

  lemma {:induction false} JoinOfSplit(s: Text)
    ensures Join(Split(s)) == s
  {
    if s != [] {
      JoinOfSplit(s[1..]);
      var rest := Split(s[1..]);
      if s[0] == SLASH {
        assert Split(s)[1..] == rest;
      } else if |rest| > 1 {
        assert Split(s)[1..] == rest[1..];
        assert Join(Split(s)) == ([s[0]] + rest[0]) + [SLASH] + Join(rest[1..]);
      }
    }
  }

  lemma {:induction false} SplitOfJoin(ls: Levels)
    requires |ls| >= 1
    requires forall i :: 0 <= i < |ls| ==> SLASH !in ls[i]
    ensures Split(Join(ls)) == ls
    decreases |ls|, |ls[0]|
  {
    var s := Join(ls);
    if ls[0] == [] {
      if |ls| > 1 {
        assert s[1..] == Join(ls[1..]);
        SplitOfJoin(ls[1..]);
      }
    } else {
      var shorter := [ls[0][1..]] + ls[1..];
      assert shorter[1..] == ls[1..];
      assert s[0] == ls[0][0] && s[1..] == Join(shorter);
      SplitOfJoin(shorter);
      assert [ls[0][0]] + shorter[0] == ls[0];
    }
  }

  lemma SplitInjective(s: Text, t: Text)
    requires Split(s) == Split(t)
    ensures s == t
  {
    JoinOfSplit(s);
    JoinOfSplit(t);
  }

  /** Text without a separator is one level, and text before the first separator is the first one. */
  lemma {:induction false} OneLevel(s: Text)
    requires SLASH !in s
    ensures Split(s) == [s]
  {
    if s != [] {
      OneLevel(s[1..]);
      assert [s[0]] + s[1..] == s;
    }
  }

  lemma {:induction false} LevelFirst(level: Text, rest: Text)
    requires SLASH !in level
    ensures Split(level + [SLASH] + rest) == [level] + Split(rest)
  {
    var s := level + [SLASH] + rest;
    if level == [] {
      assert s[1..] == rest;
    } else {
      LevelFirst(level[1..], rest);
      assert s[1..] == level[1..] + [SLASH] + rest;
      assert [level[0]] + level[1..] == level;
    }
  }

  // ---- well-formed filters ----

  /** A wildcard fills its whole level, and `#` only closes a filter. */
  predicate LevelOk(level: Text, last: bool) {
    (HASH in level ==> level == ANY_REST && last) && (PLUS in level ==> level == ANY_ONE)
  }

  predicate LevelsOk(ls: Levels) {
    forall i :: 0 <= i < |ls| ==> LevelOk(ls[i], i == |ls| - 1)
  }

  predicate WellFormed(filter: Text) {
    filter != [] && LevelsOk(Split(filter))
  }

  /** A topic a message can be published on carries no wildcard; the broker does not refuse the empty topic. */
  predicate Concrete(topic: Text) {
    HASH !in topic && PLUS !in topic
  }

  method ParseFilter(filter: Text) returns (r: Option<Text>)
    ensures r == if WellFormed(filter) then Some(filter) else None
  {
    if filter == [] {
      return None;
    }
    var levels := Split(filter);
    for i := 0 to |levels|
      invariant forall k :: 0 <= k < i ==> LevelOk(levels[k], k == |levels| - 1)
    {
      var level := levels[i];
      if HASH in level {
        if level != ANY_REST || i != |levels| - 1 {
          assert !LevelOk(levels[i], i == |levels| - 1);
          return None;
        }
      }
      if PLUS in level && level != ANY_ONE {
        assert !LevelOk(levels[i], i == |levels| - 1);
        return None;
      }
    }
    return Some(filter);
  }

  // ---- matching ----

  predicate WildFirst(ls: Levels) {
    |ls| > 0 && (ls[0] == ANY_ONE || ls[0] == ANY_REST)
  }

  predicate StartsDollar(s: Text) {
    |s| > 0 && s[0] == DOLLAR
  }

  predicate LevelsMatch(f: Levels, t: Levels) {
    if f != [] && f[0] == ANY_REST then true
    else if f == [] || t == [] then f == [] && t == []
    else (f[0] == ANY_ONE || f[0] == t[0]) && LevelsMatch(f[1..], t[1..])
  }

  predicate Matches(filter: Text, topic: Text) {
    !(StartsDollar(topic) && WildFirst(Split(filter))) && LevelsMatch(Split(filter), Split(topic))
  }

  method TopicMatches(filter: Text, topic: Text) returns (r: bool)
    ensures r == Matches(filter, topic)
  {
    var f, t := Split(filter), Split(topic);
    if StartsDollar(topic) {
      if f[0] == ANY_ONE || f[0] == ANY_REST {
        return false;
      }
    }
    var i := 0;
    while true
      invariant i <= |f| && i <= |t|
      invariant LevelsMatch(f, t) == LevelsMatch(f[i..], t[i..])
      decreases |f| - i
    {
      if i < |f| && f[i] == ANY_REST {
        return true;
      } else if i < |f| && i < |t| && (f[i] == ANY_ONE || f[i] == t[i]) {
        assert f[i..][1..] == f[i + 1..] && t[i..][1..] == t[i + 1..];
        i := i + 1;
      } else {
        return i == |f| && i == |t|;
      }
    }
  }

  /** What section 4.7.1 of MQTT 5.0 says a well-formed filter means, level by level. */
  predicate Covers(f: Levels, t: Levels) {
    var open := f != [] && f[|f| - 1] == ANY_REST;
    var fixed := if open then |f| - 1 else |f|;
    (if open then fixed <= |t| else fixed == |t|)
    && forall i :: 0 <= i < fixed && i < |t| ==> f[i] == ANY_ONE || f[i] == t[i]
  }

  /** The matching loop computes exactly the level-by-level meaning of a well-formed filter. */
  lemma {:induction false} MatchingIsCovering(f: Levels, t: Levels)
    requires LevelsOk(f)
    ensures LevelsMatch(f, t) <==> Covers(f, t)
  {
    if f != [] && f[0] == ANY_REST {
      assert LevelOk(f[0], 0 == |f| - 1);
    } else if f != [] && t != [] {
      var f', t' := f[1..], t[1..];
      assert LevelsOk(f') by {
        forall i | 0 <= i < |f'| ensures LevelOk(f'[i], i == |f'| - 1) {
          assert LevelOk(f[i + 1], i + 1 == |f| - 1);
        }
      }
      MatchingIsCovering(f', t');
      if Covers(f, t) {
        assert forall i :: 0 <= i < |f'| && i < |t'| ==> f'[i] == f[i + 1] && t'[i] == t[i + 1];
      }
      if LevelsMatch(f, t) {
        assert forall i :: 0 < i < |f| && i < |t| ==> f[i] == f'[i - 1] && t[i] == t'[i - 1];
      }
    }
  }

  // ---- topics built from a filter ----

  predicate PlainLevel(level: Text) {
    HASH !in level && PLUS !in level && SLASH !in level
  }

  /** The topic levels got by writing `w` for every wildcard. */
  function Instance(f: Levels, w: Text): (t: Levels)
    ensures |t| == |f|
    ensures forall i :: 0 <= i < |f| ==> t[i] == if f[i] == ANY_ONE || f[i] == ANY_REST then w else f[i]
  {
    if f == [] then [] else [if f[0] == ANY_ONE || f[0] == ANY_REST then w else f[0]] + Instance(f[1..], w)
  }

  lemma {:induction false} InstanceMatches(f: Levels, w: Text)
    ensures LevelsMatch(f, Instance(f, w))
  {
    if f != [] && f[0] != ANY_REST {
      assert Instance(f, w)[1..] == Instance(f[1..], w);
      InstanceMatches(f[1..], w);
    }
  }

  /** Joining plain levels gives a topic that splits back into them. */
  lemma TopicOfLevels(t: Levels)
    requires |t| >= 1
    requires forall i :: 0 <= i < |t| ==> PlainLevel(t[i])
    ensures Split(Join(t)) == t
    ensures Concrete(Join(t))
    ensures StartsDollar(Join(t)) <==> StartsDollar(t[0])
  {
    SplitOfJoin(t);
    JoinPlain(t);
    FirstByte(Join(t));
  }

  lemma {:induction false} JoinPlain(t: Levels)
    requires |t| >= 1
    requires forall i :: 0 <= i < |t| ==> PlainLevel(t[i])
    ensures Concrete(Join(t))
  {
    assert PlainLevel(t[0]);
    if |t| > 1 {
      JoinPlain(t[1..]);
    }
  }

  lemma FirstByte(s: Text)
    ensures StartsDollar(s) <==> StartsDollar(Split(s)[0])
  {
    if s != [] {
      assert Split(s)[0] == if s[0] == SLASH then [] else [s[0]] + Split(s[1..])[0];
    }
  }

  /** The levels of a filter up to and including its first `#` level. */
  function Truncated(f: Levels): (g: Levels)
    ensures |g| <= |f| && g == f[..|g|]
    ensures f != [] ==> g != []
  {
    if f == [] then [] else if f[0] == ANY_REST then [f[0]] else [f[0]] + Truncated(f[1..])
  }

  lemma {:induction false} TruncatedMatchesSame(f: Levels, t: Levels)
    ensures LevelsMatch(Truncated(f), t) == LevelsMatch(f, t)
  {
    if f != [] && f[0] != ANY_REST {
      assert Truncated(f)[1..] == Truncated(f[1..]);
      if t != [] {
        TruncatedMatchesSame(f[1..], t[1..]);
      }
    }
  }

  /** A level matched against plain text is plain text or a lone wildcard. */
  lemma {:induction false} MatchedLevelsOk(f: Levels, t: Levels)
    requires LevelsMatch(f, t)
    requires forall i :: 0 <= i < |t| ==> PlainLevel(t[i])
    ensures LevelsOk(Truncated(f))
  {
    var g := Truncated(f);
    if f != [] && f[0] != ANY_REST {
      MatchedLevelsOk(f[1..], t[1..]);
      assert PlainLevel(t[0]);
      assert g[1..] == Truncated(f[1..]);
      forall i | 0 <= i < |g| ensures LevelOk(g[i], i == |g| - 1) {
        if i > 0 {
          assert LevelOk(g[1..][i - 1], i - 1 == |g[1..]| - 1);
        }
      }
    }
  }

  lemma {:induction false} SplitPlain(topic: Text)
    requires Concrete(topic)
    ensures forall i :: 0 <= i < |Split(topic)| ==> PlainLevel(Split(topic)[i])
  {
    if topic != [] {
      SplitPlain(topic[1..]);
    }
  }

  /** The documentation of matching says a malformed filter never matches. `a/#/c` matches `a/x`. */
  lemma MalformedFilterMatches()
    ensures var filter, topic := [97, SLASH, HASH, SLASH, 99], [97, SLASH, 120];
            !WellFormed(filter) && Concrete(topic) && Matches(filter, topic)
  {
    var filter, topic := [97, SLASH, HASH, SLASH, 99], [97, SLASH, 120];
    var f, t: Levels := [[97], [HASH], [99]], [[97], [120]];
    assert filter == Join(f) by {
      assert f[1..] == [[HASH], [99]] && f[1..][1..] == [[99]];
      assert Join(f[1..]) == [HASH] + [SLASH] + Join(f[1..][1..]);
    }
    SplitOfJoin(f);
    assert topic == Join(t) by {
      assert t[1..] == [[120]];
    }
    SplitOfJoin(t);
    assert !LevelOk(f[1], 1 == |f| - 1);
    assert LevelsMatch(f[1..], t[1..]);
  }

  /**
   * Exactly when the documentation is right: a filter matches no concrete topic if and only
   * if one of its levels, up to the first `#` level, misuses a wildcard.
   */
  lemma NeverMatchesExactlyWhen(filter: Text)
    ensures (forall topic | Concrete(topic) :: !Matches(filter, topic)) <==> !LevelsOk(Truncated(Split(filter)))
  {
    var f := Split(filter);
    if LevelsOk(Truncated(f)) {
      var t := Instance(Truncated(f), [120]);
      forall i | 0 <= i < |t| ensures PlainLevel(t[i]) {
        assert LevelOk(Truncated(f)[i], i == |Truncated(f)| - 1);
      }
      TopicOfLevels(t);
      InstanceMatches(Truncated(f), [120]);
      TruncatedMatchesSame(f, t);
      assert Concrete(Join(t)) && Matches(filter, Join(t));
    } else {
      forall topic | Concrete(topic) ensures !Matches(filter, topic) {
        SplitPlain(topic);
        if LevelsMatch(f, Split(topic)) {
          MatchedLevelsOk(f, Split(topic));
        }
      }
    }
  }

  // ---- shared subscriptions ----

  /** `$share/` */
  const SHARE: Text := [36, 115, 104, 97, 114, 101, 47]

  predicate GroupOk(group: Text) {
    group != [] && PLUS !in group && HASH !in group && SLASH !in group
  }

  /** Where a subscription string is registered: among the fan-out filters, or in a share group. */
  datatype Key = Normal(filter: Text) | Shared(group: Text, filter: Text)

  function ParseShared(raw: Text): (r: Option<Key>)
  {
    if !StartsWith(raw, SHARE) then None
    else
      match SplitOnce(raw[|SHARE|..], SLASH)
      case None => None
      case Some(p) =>
        if p.0 == [] || PLUS in p.0 || HASH in p.0 || !WellFormed(p.1) then None else Some(Shared(p.0, p.1))
  }

  /** Share strings are read exactly as `$share/{group}/{filter}`, and nothing else is. */
  lemma ParseSharedExactly(raw: Text, group: Text, filter: Text)
    ensures ParseShared(raw) == Some(Shared(group, filter))
       <==> raw == SHARE + group + [SLASH] + filter && GroupOk(group) && WellFormed(filter)
  {
    hide WellFormed;
    if StartsWith(raw, SHARE) {
      var rest := raw[|SHARE|..];
      assert raw == SHARE + rest;
      if raw == SHARE + group + [SLASH] + filter && GroupOk(group) {
        assert rest == group + [SLASH] + filter;
        SplitOnceOfJoined(group, SLASH, filter);
      }
      if ParseShared(raw) == Some(Shared(group, filter)) {
        assert rest == group + [SLASH] + filter;
      }
    } else {
      var shared := SHARE + group + [SLASH] + filter;
      assert shared[..|SHARE|] == SHARE;
    }
  }

  /** How SUBSCRIBE and start-up read a subscription string: share syntax first, plain filter second. */
  function KeyOf(raw: Text): Option<Key> {
    match ParseShared(raw)
    case Some(k) => Some(k)
    case None => if WellFormed(raw) then Some(Normal(raw)) else None
  }

  /** The string that names a registration. */
  function RawOf(key: Key): Text {
    match key
    case Normal(filter) => filter
    case Shared(group, filter) => SHARE + group + [SLASH] + filter
  }

  /** A subscription string is recovered from its registration. */
  lemma RawOfKey(raw: Text)
    ensures KeyOf(raw).Some? ==> RawOf(KeyOf(raw).value) == raw
  {
    if KeyOf(raw).Some? && KeyOf(raw).value.Shared? {
      ParseSharedExactly(raw, KeyOf(raw).value.group, KeyOf(raw).value.filter);
    }
  }

  /** Two subscription strings never collide on one registration. */
  lemma KeyOfInjective(a: Text, b: Text)
    requires KeyOf(a).Some? && KeyOf(a) == KeyOf(b)
    ensures a == b
  {
    RawOfKey(a);
    RawOfKey(b);
  }
}
