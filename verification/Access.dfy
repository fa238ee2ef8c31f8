/** Topic permissions and the SUBSCRIBE decision (crates/relay-core/src/acl.rs, connection.rs). */
module Access {
  import opened Basics
  import opened Topics

  // ---- structural subsumption ----

  predicate LevelsSubsume(a: Levels, r: Levels) {
    if a != [] && a[0] == ANY_REST then true
    else if a == [] || r == [] then a == [] && r == []
    else if r[0] == ANY_REST then false
    else if a[0] == ANY_ONE then LevelsSubsume(a[1..], r[1..])
    else if r[0] == ANY_ONE then false
    else a[0] == r[0] && LevelsSubsume(a[1..], r[1..])
  }

  predicate Subsumes(allowed: Text, requested: Text) {
    LevelsSubsume(Split(allowed), Split(requested))
  }

  method FilterSubsumes(allowed: Text, requested: Text) returns (ok: bool)
    ensures ok == Subsumes(allowed, requested)
  {
    var a, r := Split(allowed), Split(requested);
    var i := 0;
    while true
      invariant i <= |a| && i <= |r|
      invariant LevelsSubsume(a, r) == LevelsSubsume(a[i..], r[i..])
      decreases |a| - i
    {
      if i < |a| && a[i] == ANY_REST {
        return true;
      }
      if i == |a| && i == |r| {
        return true;
      }
      if i == |a| || i == |r| {
        return false;
      }
      assert a[i..][1..] == a[i + 1..] && r[i..][1..] == r[i + 1..];
      if r[i] == ANY_REST {
        return false;
      }
      if a[i] == ANY_ONE {
        i := i + 1;
        continue;
      }
      if r[i] == ANY_ONE {
        return false;
      }
      if a[i] == r[i] {
        i := i + 1;
        continue;
      }
      return false;
    }
  }

  // ---- subsumption against containment of topic sets ----

  ghost predicate Contains(allowed: Text, requested: Text) {
    forall topic | Concrete(topic) && Matches(requested, topic) :: Matches(allowed, topic)
  }

  lemma {:induction false} LevelsSubsumeSound(a: Levels, r: Levels, t: Levels)
    requires LevelsSubsume(a, r) && LevelsMatch(r, t)
    ensures LevelsMatch(a, t)
  {
    if a != [] && a[0] != ANY_REST {
      LevelsSubsumeSound(a[1..], r[1..], t[1..]);
    }
  }

  /** A wildcard-first permission never reaches `$` topics, so it cannot cover a `$` request. */
  predicate Shielded(allowed: Text, requested: Text) {
    StartsDollar(requested) && WildFirst(Split(allowed))
  }

  /** Every topic, concrete or not, that an unshielded subsumed request matches is permitted. */
  lemma SubsumesSound(allowed: Text, requested: Text, topic: Text)
    requires Subsumes(allowed, requested) && !Shielded(allowed, requested)
    requires Matches(requested, topic)
    ensures Matches(allowed, topic)
  {
    LevelsSubsumeSound(Split(allowed), Split(requested), Split(topic));
    FirstByte(topic);
    FirstByte(requested);
  }

  /** A level no filter in `a` spells out. */
  function Fresh(a: Levels): (w: Text)
    ensures |w| >= 1 && w[0] == 120 && PlainLevel(w)
    ensures forall i :: 0 <= i < |a| ==> |a[i]| < |w|
  {
    if a == [] then [120]
    else
      var w := Fresh(a[1..]);
      if |a[0]| < |w| then w else
      var longer := seq(|a[0]| + 1, _ => 120);
      assert forall i :: 0 < i < |a| ==> a[i] == a[1..][i - 1];
      longer
  }

  /** Levels that `r` matches and `a` does not; `r` may already be used up. */
  lemma {:induction false} Separate(a: Levels, r: Levels, w: Text) returns (t: Levels)
    requires LevelsOk(a) && LevelsOk(r) && PlainLevel(w) && !LevelsSubsume(a, r)
    requires forall i :: 0 <= i < |a| ==> a[i] != w
    requires forall i :: 0 <= i < |r| ==> SLASH !in r[i]
    ensures LevelsMatch(r, t) && !LevelsMatch(a, t)
    ensures forall i :: 0 <= i < |t| ==> PlainLevel(t[i])
    ensures |t| > 0 && |r| > 0 ==> t[0] == if r[0] == ANY_ONE || r[0] == ANY_REST then w else r[0]
  {
    if a == [] {
      InstanceMatches(r, w);
      t := Instance(r, w);
      PlainInstance(r, w);
    } else if r == [] || r[0] == ANY_REST {
      t := [];
    } else if a[0] == ANY_ONE || a[0] == r[0] {
      TailOk(a);
      TailOk(r);
      var rest := Separate(a[1..], r[1..], w);
      var head := if r[0] == ANY_ONE then w else r[0];
      t := [head] + rest;
      assert t[1..] == rest;
      assert LevelOk(r[0], 0 == |r| - 1);
    } else {
      InstanceMatches(r, w);
      t := Instance(r, w);
      PlainInstance(r, w);
    }
  }

  lemma TailOk(f: Levels)
    requires LevelsOk(f) && f != []
    ensures LevelsOk(f[1..])
  {
    forall i | 0 <= i < |f[1..]| ensures LevelOk(f[1..][i], i == |f[1..]| - 1) {
      assert LevelOk(f[i + 1], i + 1 == |f| - 1);
    }
  }

  lemma PlainInstance(f: Levels, w: Text)
    requires LevelsOk(f) && PlainLevel(w)
    requires forall i :: 0 <= i < |f| ==> SLASH !in f[i]
    ensures forall i :: 0 <= i < |f| ==> PlainLevel(Instance(f, w)[i])
  {
    forall i | 0 <= i < |f| ensures PlainLevel(Instance(f, w)[i]) {
      assert LevelOk(f[i], i == |f| - 1);
    }
  }

  /** The one pair of filters with equal topic sets that subsumption cannot relate. */
  predicate PlusHashForHash(allowed: Text, requested: Text) {
    Split(allowed) == [ANY_ONE, ANY_REST] && Split(requested) == [ANY_REST]
  }

  /** As Separate, for a whole filter: a topic has at least one level. */
  lemma SeparateTopic(allowed: Text, requested: Text) returns (t: Levels)
    requires WellFormed(allowed) && WellFormed(requested)
    requires !Subsumes(allowed, requested) && !PlusHashForHash(allowed, requested)
    ensures |t| >= 1 && LevelsMatch(Split(requested), t) && !LevelsMatch(Split(allowed), t)
    ensures forall i :: 0 <= i < |t| ==> PlainLevel(t[i])
    ensures WildFirst(Split(requested)) ==> !StartsDollar(t[0])
  {
    var a, r := Split(allowed), Split(requested);
    var w := Fresh(a);
    if r[0] == ANY_REST {
      assert LevelOk(r[0], 0 == |r| - 1);
      if a[0] == ANY_ONE && |a| == 1 {
        t := [w, w];
        assert t[1..] == [w];
      } else {
        t := [w];
        if a[0] == ANY_ONE {
          assert a[1..][0] != ANY_REST by {
            assert LevelOk(a[1], 1 == |a| - 1);
          }
        }
      }
    } else {
      t := Separate(a, r, w);
    }
  }

  /**
   * Subsumption decides containment of topic sets, exactly: a permission contains a request if and
   * only if it subsumes it and is not shielded from it, or the two are `+/#` and `#`.
   */
  lemma ContainmentExactly(allowed: Text, requested: Text)
    requires WellFormed(allowed) && WellFormed(requested)
    ensures Contains(allowed, requested)
       <==> (Subsumes(allowed, requested) && !Shielded(allowed, requested)) || PlusHashForHash(allowed, requested)
  {
    if Subsumes(allowed, requested) && !Shielded(allowed, requested) {
      forall topic | Concrete(topic) && Matches(requested, topic) ensures Matches(allowed, topic) {
        SubsumesSound(allowed, requested, topic);
      }
    } else if PlusHashForHash(allowed, requested) {
      forall topic | Concrete(topic) && Matches(requested, topic) ensures Matches(allowed, topic) {
        assert Split(allowed)[1..] == [ANY_REST];
      }
    } else if Subsumes(allowed, requested) {
      ShieldedNotContained(allowed, requested);
    } else {
      var t := SeparateTopic(allowed, requested);
      TopicOfLevels(t);
      assert Matches(requested, Join(t)) && !Matches(allowed, Join(t));
    }
  }

  lemma ShieldedNotContained(allowed: Text, requested: Text)
    requires WellFormed(requested) && Shielded(allowed, requested)
    ensures !Contains(allowed, requested)
  {
    var r := Split(requested);
    var t := Instance(r, [120]);
    PlainInstance(r, [120]);
    InstanceMatches(r, [120]);
    TopicOfLevels(t);
    FirstByte(requested);
    assert Matches(requested, Join(t)) && !Matches(allowed, Join(t));
  }

  /**
   * The promise of the permission check, and its two exceptions: the answer of subsumption is the
   * answer of containment unless a wildcard-first permission is asked for a `$` filter it subsumes,
   * or `+/#` is asked for `#`.
   */
  lemma SubsumptionRightExactlyWhen(allowed: Text, requested: Text)
    requires WellFormed(allowed) && WellFormed(requested)
    ensures (Subsumes(allowed, requested) <==> Contains(allowed, requested))
       <==> !(Shielded(allowed, requested) && Subsumes(allowed, requested)) && !PlusHashForHash(allowed, requested)
  {
    ContainmentExactly(allowed, requested);
  }

  // ---- subsumption is a partial order ----

  lemma {:induction false} LevelsSubsumeReflexive(a: Levels)
    requires LevelsOk(a)
    ensures LevelsSubsume(a, a)
  {
    if a != [] {
      TailOk(a);
      LevelsSubsumeReflexive(a[1..]);
    }
  }

  lemma {:induction false} LevelsSubsumeTransitive(a: Levels, b: Levels, c: Levels)
    requires LevelsSubsume(a, b) && LevelsSubsume(b, c)
    ensures LevelsSubsume(a, c)
  {
    if a != [] && a[0] != ANY_REST {
      LevelsSubsumeTransitive(a[1..], b[1..], c[1..]);
    }
  }

  lemma {:induction false} LevelsSubsumeAntisymmetric(a: Levels, b: Levels)
    requires LevelsOk(a) && LevelsOk(b) && LevelsSubsume(a, b) && LevelsSubsume(b, a)
    ensures a == b
  {
    if a != [] && b != [] {
      assert LevelOk(a[0], 0 == |a| - 1) && LevelOk(b[0], 0 == |b| - 1);
      if a[0] != ANY_REST && b[0] != ANY_REST {
        TailOk(a);
        TailOk(b);
        LevelsSubsumeAntisymmetric(a[1..], b[1..]);
        assert a == [a[0]] + a[1..] && b == [b[0]] + b[1..];
      }
    }
  }

  lemma SubsumptionPartialOrder(a: Text, b: Text, c: Text)
    requires WellFormed(a) && WellFormed(b) && WellFormed(c)
    ensures Subsumes(a, a)
    ensures Subsumes(a, b) && Subsumes(b, c) ==> Subsumes(a, c)
    ensures Subsumes(a, b) && Subsumes(b, a) ==> a == b
  {
    LevelsSubsumeReflexive(Split(a));
    if Subsumes(a, b) && Subsumes(b, c) {
      LevelsSubsumeTransitive(Split(a), Split(b), Split(c));
    }
    if Subsumes(a, b) && Subsumes(b, a) {
      LevelsSubsumeAntisymmetric(Split(a), Split(b));
      SplitInjective(a, b);
    }
  }

  // ---- permissions and the SUBSCRIBE decision ----

  datatype Acl = Acl(publish: seq<Text>, subscribe: seq<Text>) {
    predicate CanPublish(topic: Text) {
      exists i :: 0 <= i < |publish| && Matches(publish[i], topic)
    }

    predicate CanSubscribe(filter: Text) {
      exists i :: 0 <= i < |subscribe| && Subsumes(subscribe[i], filter)
    }

    /** Some subscribe permission matches the topic. */
    predicate Reaches(topic: Text) {
      exists i :: 0 <= i < |subscribe| && Matches(subscribe[i], topic)
    }

    /** A `$` filter that only wildcard-first permissions subsume. */
    predicate OnlyShielded(filter: Text) {
      StartsDollar(filter)
      && forall i :: 0 <= i < |subscribe| && Subsumes(subscribe[i], filter) ==> WildFirst(Split(subscribe[i]))
    }
  }

  datatype Reply = NotAuthorized | QuotaExceeded | FilterInvalid | Granted(key: Key)

  /** One filter of a SUBSCRIBE: permission on the inner filter first, quota second, syntax last. */
  function Decide(acl: Acl, active: set<Text>, limit: nat, raw: Text): Reply {
    var effective := match ParseShared(raw) case Some(k) => k.filter case None => raw;
    if !acl.CanSubscribe(effective) then NotAuthorized
    else if raw !in active && |active| >= limit then QuotaExceeded
    else
      match KeyOf(raw)
      case Some(key) => Granted(key)
      case None => FilterInvalid
  }

  function ActiveAfter(active: set<Text>, raw: Text, reply: Reply): set<Text> {
    if reply.Granted? then active + {raw} else active
  }

  /**
   * No widening: every topic a granted registration can receive is matched by one permission,
   * unless the request starts with `$` and every permission that let it in starts with a wildcard.
   */
  lemma GrantedStaysPermitted(acl: Acl, active: set<Text>, limit: nat, raw: Text, topic: Text)
    requires Decide(acl, active, limit, raw).Granted?
    requires Matches(Decide(acl, active, limit, raw).key.filter, topic)
    ensures |active| <= limit ==> |ActiveAfter(active, raw, Decide(acl, active, limit, raw))| <= limit
    ensures acl.Reaches(topic) || acl.OnlyShielded(Decide(acl, active, limit, raw).key.filter)
  {
    var filter := Decide(acl, active, limit, raw).key.filter;
    if raw in active {
      assert active + {raw} == active;
    }
    FirstByte(topic);
    FirstByte(filter);
    if i :| 0 <= i < |acl.subscribe| && Subsumes(acl.subscribe[i], filter) && !Shielded(acl.subscribe[i], filter) {
      SubsumesSound(acl.subscribe[i], filter, topic);
    }
  }

  /** The filter a subscription string asks for: what follows the group in a share string, else the string. */
  predicate AsksFor(raw: Text, filter: Text) {
    if ParseShared(raw).Some? then ParseShared(raw).value.filter == filter else filter == raw
  }

  /**
   * Each reply to one filter of a SUBSCRIBE, exactly: refused without a permission that subsumes the
   * filter asked for; over quota when it would be one string too many; invalid when it is neither a share
   * string nor a well-formed filter; and granted, in the share group it names if it names one, otherwise.
   */
  lemma DecideExactly(acl: Acl, active: set<Text>, limit: nat, raw: Text, filter: Text)
    requires AsksFor(raw, filter)
    ensures var reply := Decide(acl, active, limit, raw);
            var permitted := exists i :: 0 <= i < |acl.subscribe| && Subsumes(acl.subscribe[i], filter);
            var fits := raw in active || |active| < limit;
            && (reply == NotAuthorized <==> !permitted)
            && (reply == QuotaExceeded <==> permitted && !fits)
            && (reply == FilterInvalid <==> permitted && fits && ParseShared(raw).None? && !WellFormed(raw))
            && (reply == Granted(Normal(raw)) <==> permitted && fits && ParseShared(raw).None? && WellFormed(raw))
            && (forall group, f :: reply == Granted(Shared(group, f)) <==>
                  permitted && fits && raw == SHARE + group + [SLASH] + f && GroupOk(group) && WellFormed(f))
            && (reply.Granted? ==> reply.key.filter == filter)
            && (forall r :: r in ActiveAfter(active, raw, reply) <==> r in active || (r == raw && reply.Granted?))
  {
    hide Subsumes, WellFormed;
    forall group, f ensures ParseShared(raw) == Some(Shared(group, f))
                       <==> raw == SHARE + group + [SLASH] + f && GroupOk(group) && WellFormed(f) {
      ParseSharedExactly(raw, group, f);
    }
    SharedIsShared(raw);
    hide ParseShared, GroupOk;
  }

  lemma SharedIsShared(raw: Text)
    ensures ParseShared(raw).Some? ==> ParseShared(raw).value.Shared?
  {
  }

  /**
   * A PUBLISH is let through exactly when some permission covers its topic level by level, and does not
   * begin with a wildcard if the topic begins with `$`.
   */
  lemma PublishPermittedExactly(acl: Acl, topic: Text)
    requires forall i :: 0 <= i < |acl.publish| ==> WellFormed(acl.publish[i])
    ensures acl.CanPublish(topic) <==>
      exists i :: 0 <= i < |acl.publish| && Covers(Split(acl.publish[i]), Split(topic))
                  && !(StartsDollar(topic) && WildFirst(Split(acl.publish[i])))
  {
    hide Covers, LevelsMatch, Split;
    forall i | 0 <= i < |acl.publish|
      ensures Matches(acl.publish[i], topic) <==>
        Covers(Split(acl.publish[i]), Split(topic)) && !(StartsDollar(topic) && WildFirst(Split(acl.publish[i])))
    {
      MatchingIsCovering(Split(acl.publish[i]), Split(topic));
    }
  }

  /** Each publish permission of one list is covered by a permission of another. */
  predicate PublishesWithin(narrow: Acl, wide: Acl) {
    forall i :: 0 <= i < |narrow.publish| ==>
      exists j :: 0 <= j < |wide.publish| && Subsumes(wide.publish[j], narrow.publish[i])
                  && !Shielded(wide.publish[j], narrow.publish[i])
  }

  /** A list whose permissions cover another's lets through every PUBLISH the other lets through. */
  lemma WiderListPermitsMore(narrow: Acl, wide: Acl, topic: Text)
    requires PublishesWithin(narrow, wide) && narrow.CanPublish(topic)
    ensures wide.CanPublish(topic)
  {
    hide Subsumes, Matches, Shielded;
    var i :| 0 <= i < |narrow.publish| && Matches(narrow.publish[i], topic);
    var j :| 0 <= j < |wide.publish| && Subsumes(wide.publish[j], narrow.publish[i])
             && !Shielded(wide.publish[j], narrow.publish[i]);
    SubsumesSound(wide.publish[j], narrow.publish[i], topic);
  }

  // ---- the two exceptions, at real filters ----

  /** What a caller can check before asking: outside the two exceptions the answer is right. */
  lemma SubsumptionRightOutside(allowed: Text, requested: Text)
    requires WellFormed(allowed) && WellFormed(requested)
    ensures !Shielded(allowed, requested) && !PlusHashForHash(allowed, requested) ==>
      (Subsumes(allowed, requested) <==> Contains(allowed, requested))
    ensures Shielded(allowed, requested) ==> !Contains(allowed, requested)
    ensures PlusHashForHash(allowed, requested) ==> Contains(allowed, requested) && !Subsumes(allowed, requested)
  {
    ContainmentExactly(allowed, requested);
    if Shielded(allowed, requested) {
      ShieldedNotContained(allowed, requested);
    }
  }

  /** `$dlq` */
  const DLQ_LEVEL: Text := [36, 100, 108, 113]

  /** `$dlq/#` */
  const ALL_DEAD_LETTERS: Text := DLQ_LEVEL + [SLASH] + ANY_REST

  lemma DeadLetterLevels()
    ensures Split(ALL_DEAD_LETTERS) == [DLQ_LEVEL, ANY_REST] && WellFormed(ALL_DEAD_LETTERS)
    ensures Split(DLQ_LEVEL + [SLASH, 97, SLASH, 98]) == [DLQ_LEVEL, [97], [98]]
    ensures Split(ANY_REST) == [ANY_REST] && WellFormed(ANY_REST)
  {
    var levels: Levels := [DLQ_LEVEL, ANY_REST];
    assert Join(levels[1..]) == ANY_REST;
    assert Join(levels) == ALL_DEAD_LETTERS;
    SplitOfJoin(levels);
    var topic: Levels := [DLQ_LEVEL, [97], [98]];
    assert Join(topic[1..][1..]) == [98];
    assert Join(topic[1..]) == [97, SLASH, 98];
    assert Join(topic) == DLQ_LEVEL + [SLASH, 97, SLASH, 98];
    SplitOfJoin(topic);
    assert Join([ANY_REST]) == ANY_REST;
    SplitOfJoin([ANY_REST]);
  }

  /** `#` is said to cover `$dlq/#`, and matches no topic of it. */
  lemma ShieldedRequestIsCovered()
    ensures Subsumes(ANY_REST, ALL_DEAD_LETTERS) && !Contains(ANY_REST, ALL_DEAD_LETTERS)
  {
    DeadLetterLevels();
    FirstByte(ALL_DEAD_LETTERS);
    ShieldedNotContained(ANY_REST, ALL_DEAD_LETTERS);
  }

  /** So a client allowed `#` is granted `$dlq/#`, and receives `$dlq/a/b`, which no permission matches. */
  lemma ShieldedGrantReachesFurther()
    ensures var acl, topic := Acl([], [ANY_REST]), DLQ_LEVEL + [SLASH, 97, SLASH, 98];
            && Decide(acl, {}, 1, ALL_DEAD_LETTERS) == Granted(Normal(ALL_DEAD_LETTERS))
            && Matches(ALL_DEAD_LETTERS, topic) && !acl.Reaches(topic)
  {
    var acl, topic := Acl([], [ANY_REST]), DLQ_LEVEL + [SLASH, 97, SLASH, 98];
    DeadLetterLevels();
    ShieldedRequestIsCovered();
    FirstByte(topic);
    FirstByte(ALL_DEAD_LETTERS);
    assert acl.subscribe[0] == ANY_REST;
    assert ParseShared(ALL_DEAD_LETTERS).None? by {
      assert ALL_DEAD_LETTERS[1] == 100 && SHARE[1] == 115;
      assert |SHARE| == 7;
    }
    var f, t := Split(ALL_DEAD_LETTERS), Split(topic);
    assert f[1..] == [ANY_REST] && t[1..] == [[97], [98]];
  }

  /** `+/#` covers every topic `#` matches, and is refused. */
  lemma PlusHashIsRefused()
    ensures var plusHash := ANY_ONE + [SLASH] + ANY_REST;
            WellFormed(plusHash) && Contains(plusHash, ANY_REST) && !Subsumes(plusHash, ANY_REST)
  {
    var plusHash, levels: Levels := ANY_ONE + [SLASH] + ANY_REST, [ANY_ONE, ANY_REST];
    DeadLetterLevels();
    assert Join(levels[1..]) == ANY_REST;
    assert Join(levels) == plusHash;
    SplitOfJoin(levels);
    SubsumptionRightOutside(plusHash, ANY_REST);
  }
}
