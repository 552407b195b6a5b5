/** Lazy renewal does not depend on when, or how often, the rows were brought up to date. */
module LazyRenewal {
  import opened Prelude
  import opened CreditPolicy
  import opened CreditRecords
  import opened CreditLifecycle
  import opened CreditInvariant
  import opened LifecycleInvariant

  function ExpireAll(grants: seq<Grant>, now: int): (r: seq<Grant>)
    ensures |r| == |grants|
    ensures forall i | 0 <= i < |grants| :: r[i] == Expired(grants[i], now)
  {
    if grants == [] then [] else ExpireAll(grants[..|grants| - 1], now) + [Expired(grants[|grants| - 1], now)]
  }

  /** Expiring at `t1` and then at `t2` is expiring at `t2`. */
  lemma ExpireAllTwice(grants: seq<Grant>, t1: int, t2: int)
    requires t1 <= t2
    ensures ExpireAll(ExpireAll(grants, t1), t2) == ExpireAll(grants, t2)
  {
    forall i | 0 <= i < |grants|
      ensures Expired(Expired(grants[i], t1), t2) == Expired(grants[i], t2)
    {
    }
  }

  /** What a caller sees of an account that is up to date. */
  datatype View = View(plan: Plan, pending: Option<Plan>, bounds: CycleBounds, allowance: int, available: int, held: int)

  function ViewOf(e: Current): View
    requires Ready(e)
  {
    var a, c := e.state.account.value, e.state.cycles[e.cycle];
    View(a.plan, a.pending, CycleBounds(c.index, c.startsAt, c.endsAt), c.allowance,
         SumOf(e.state.book.grants, AvailableOf), SumOf(e.state.book.grants, ReservedOf))
  }

  /** The grant a renewal at `now` would add, if one is due. */
  function Added(s: State, b: CycleBounds, now: int, tag: nat): seq<Grant>
    requires s.account.Some? ==> s.cycles != []
  {
    if NeedsCycle(s, b) then [NewBase(|s.cycles|, PlanBefore(s), b, now, tag)] else []
  }

  /** The plan the next renewal would use. */
  function PlanBefore(s: State): Plan {
    if s.account.None? then (if s.user.role.Master? then Max else Free) else NextPlan(s.account.value)
  }

  /** Renewal, spelled out: what each table holds afterwards. */
  lemma EnsureSpelledOut(s: State, now: int, tag: nat)
    requires Core(s) && Started(s) && EnsureCycle(s, now, tag).Ok?
    ensures var b := BoundsAt(s.user.signedUpAt, now).value;
            var e := EnsureCycle(s, now, tag).value;
            var a := e.state.account.value;
            var c := e.state.cycles[e.cycle];
            && AsOf(s) <= now
            && e.state.book.grants == ExpireAll(s.book.grants, now) + Added(s, b, now, tag)
            && c.index == b.index && c.startsAt == b.startsAt && c.endsAt == b.endsAt
            && c.plan == a.plan && c.allowance == PolicyOf(a.plan).allowance
            && a.plan == (if NeedsCycle(s, b) then PlanBefore(s) else s.account.value.plan)
            && a.pending == (if NeedsCycle(s, b) then None else s.account.value.pending)
  {
    EnsureClock(s, now, tag);
    EnsureKeeps(s, now, tag);
    PreparedCore(s, now);
    var b := BoundsAt(s.user.signedUpAt, now).value;
    var e := EnsureCycle(s, now, tag).value;
    assert Prepared(s, now).book.grants == ExpireAll(s.book.grants, now);
    if s.account.Some? {
      InvCoherent(s);
    }
    EnsureTables(s, now, tag);
    CurrentCycleContains(e.state, e.cycle, b, now);
    assert CycleOk(e.state, e.state.cycles[e.cycle]);
  }

  lemma EnsureTables(s: State, now: int, tag: nat)
    requires EnsureCycle(s, now, tag).Ok?
    requires s.account.Some? ==> Latest(s.cycles) == |s.cycles| - 1
    ensures var b := BoundsAt(s.user.signedUpAt, now).value;
            var e := EnsureCycle(s, now, tag).value;
            && (s.account.Some? ==> s.cycles != [])
            && e.state.book.grants == Prepared(s, now).book.grants + Added(s, b, now, tag)
            && e.state.cycles[e.cycle].index == b.index
            && e.state.account.value.plan == (if NeedsCycle(s, b) then PlanBefore(s) else s.account.value.plan)
            && e.state.account.value.pending == (if NeedsCycle(s, b) then None else s.account.value.pending)
  {
    hide PostAll, ExpireEvents, Latest, Bases, BoundsAt, PolicyOf, SumOf, Coherent, BaseRow;
  }

  /** Available and held credit after a renewal. */
  lemma EnsureSums(s: State, now: int, tag: nat)
    requires Core(s) && Started(s) && EnsureCycle(s, now, tag).Ok?
    ensures var b := BoundsAt(s.user.signedUpAt, now).value;
            var v := ViewOf(EnsureCycle(s, now, tag).value);
            && (s.account.Some? ==> s.cycles != [])
            && v.available == SumOf(ExpireAll(s.book.grants, now), AvailableOf)
                              + (if NeedsCycle(s, b) then PolicyOf(PlanBefore(s)).allowance else 0)
            && v.held == SumOf(ExpireAll(s.book.grants, now), ReservedOf)
  {
    EnsureSpelledOut(s, now, tag);
    var b := BoundsAt(s.user.signedUpAt, now).value;
    var xs := ExpireAll(s.book.grants, now);
    if NeedsCycle(s, b) {
      var base := NewBase(|s.cycles|, PlanBefore(s), b, now, tag);
      SumOfAppend(xs, base, AvailableOf);
      SumOfAppend(xs, base, ReservedOf);
    } else {
      assert xs + [] == xs;
    }
  }

  /** A renewal is due after a stop at `t1` exactly when the cycle changes between `t1` and `t2`. */
  lemma NeedAfterStop(s: State, t1: int, t2: int, tag1: nat)
    requires Core(s) && Started(s) && EnsureCycle(s, t1, tag1).Ok?
    requires t1 <= t2 && BoundsAt(s.user.signedUpAt, t2).Ok?
    ensures var e1 := EnsureCycle(s, t1, tag1).value.state;
            var b1, b2 := BoundsAt(s.user.signedUpAt, t1).value, BoundsAt(s.user.signedUpAt, t2).value;
            && e1.account.Some? && e1.cycles != []
            && (s.account.Some? ==> s.cycles != [])
            && b1.index <= b2.index
            && (NeedsCycle(e1, b2) <==> b1.index < b2.index)
            && (NeedsCycle(s, b2) <==> NeedsCycle(s, b1) || NeedsCycle(e1, b2))
            && (b1.index < b2.index ==> b1.endsAt <= t2)
            && (b1.index == b2.index ==> t2 < b1.endsAt)
  {
    hide Core, EnsureCycle, BoundsAt, PolicyOf, SumOf, ExpireAll, Added, PlanBefore;
    EnsureKeeps(s, t1, tag1);
    EnsureClock(s, t1, tag1);
    EnsureSpelledOut(s, t1, tag1);
    var e1 := EnsureCycle(s, t1, tag1).value;
    InvCoherent(e1.state);
    hide Coherent, BaseRow;
    var b1, b2 := BoundsAt(s.user.signedUpAt, t1).value, BoundsAt(s.user.signedUpAt, t2).value;
    BoundsMonotone(s.user.signedUpAt, t1, t2);
    BoundsTile(s.user.signedUpAt, t1, b1.index);
    BoundsTile(s.user.signedUpAt, t2, b1.index);
    if s.account.Some? {
      InvCoherent(s);
      ClockGuardUnreachable(s, t1);
    }
  }

  /** The grants reached through a stop at `t1`: those of the direct way, with a dead base grant in between if a cycle was skipped. */
  lemma GrantsAfterStop(s: State, t1: int, t2: int, tag1: nat)
    requires Core(s) && Started(s) && EnsureCycle(s, t1, tag1).Ok?
    requires t1 <= t2 && BoundsAt(s.user.signedUpAt, t2).Ok?
    ensures s.account.Some? ==> s.cycles != []
    ensures var e1 := EnsureCycle(s, t1, tag1).value.state;
            var b1 := BoundsAt(s.user.signedUpAt, t1).value;
            var added := Added(s, b1, t1, tag1);
            ExpireAll(e1.book.grants, t2)
            == ExpireAll(s.book.grants, t2) + (if added == [] then [] else [Expired(added[0], t2)])
  {
    hide Core, EnsureCycle, BoundsAt, PolicyOf, Expired, NeedsCycle;
    EnsureClock(s, t1, tag1);
    EnsureSpelledOut(s, t1, tag1);
    ExpireAllTwice(s.book.grants, t1, t2);
    var xs := ExpireAll(s.book.grants, t1);
    var added := Added(s, BoundsAt(s.user.signedUpAt, t1).value, t1, tag1);
    if added == [] {
      assert xs + added == xs;
    } else {
      assert added == [added[0]];
    }
  }

  /** Sums over the grants after a stop. */
  lemma SumsAfterStop(s: State, t1: int, t2: int, tag1: nat)
    requires Core(s) && Started(s) && EnsureCycle(s, t1, tag1).Ok?
    requires t1 <= t2 && BoundsAt(s.user.signedUpAt, t2).Ok?
    ensures s.account.Some? ==> s.cycles != []
    ensures var e1 := EnsureCycle(s, t1, tag1).value.state;
            var b1, b2 := BoundsAt(s.user.signedUpAt, t1).value, BoundsAt(s.user.signedUpAt, t2).value;
            var kept := if NeedsCycle(s, b1) && b1.index == b2.index then PolicyOf(PlanBefore(s)).allowance else 0;
            && SumOf(ExpireAll(e1.book.grants, t2), AvailableOf) == SumOf(ExpireAll(s.book.grants, t2), AvailableOf) + kept
            && SumOf(ExpireAll(e1.book.grants, t2), ReservedOf) == SumOf(ExpireAll(s.book.grants, t2), ReservedOf)
            && SumOf(ExpireAll(e1.book.grants, t2), OutstandingOf) == SumOf(ExpireAll(s.book.grants, t2), OutstandingOf) + kept
  {
    hide Core, Started, EnsureCycle, BoundsAt, PolicyOf, NeedsCycle, SumOf, ExpireAll, Expired;
    EnsureClock(s, t1, tag1);
    GrantsAfterStop(s, t1, t2, tag1);
    NeedAfterStop(s, t1, t2, tag1);
    var b1 := BoundsAt(s.user.signedUpAt, t1).value;
    var added := Added(s, b1, t1, tag1);
    var xs := ExpireAll(s.book.grants, t2);
    if added == [] {
      assert xs + [] == xs;
    } else {
      var g := Expired(added[0], t2);
      StoppedBase(s, t1, t2, tag1);
      SumOfAppend(xs, g, AvailableOf);
      SumOfAppend(xs, g, ReservedOf);
      SumOfAppend(xs, g, OutstandingOf);
    }
  }

  /** The base grant of a stop is untouched while its cycle lasts and spent afterwards. */
  lemma StoppedBase(s: State, t1: int, t2: int, tag1: nat)
    requires Core(s) && Started(s) && EnsureCycle(s, t1, tag1).Ok?
    requires t1 <= t2 && BoundsAt(s.user.signedUpAt, t2).Ok?
    ensures s.account.Some? ==> s.cycles != []
    ensures var b1, b2 := BoundsAt(s.user.signedUpAt, t1).value, BoundsAt(s.user.signedUpAt, t2).value;
            var g := Expired(NewBase(|s.cycles|, PlanBefore(s), b1, t1, tag1), t2);
            NeedsCycle(s, b1) ==>
              && AvailableOf(g) == OutstandingOf(g) == (if b1.index == b2.index then PolicyOf(PlanBefore(s)).allowance else 0)
              && ReservedOf(g) == 0
  {
    hide Core, Started, EnsureCycle, BoundsAt, PolicyOf, NeedsCycle;
    EnsureClock(s, t1, tag1);
    NeedAfterStop(s, t1, t2, tag1);
  }

  /**
   * Path independence. If bringing the rows up to date at `t1` succeeds, doing
   * it again at `t2` succeeds exactly when doing it only at `t2` does, and then
   * plan, pending plan, cycle, allowance, available and held credit are the
   * same, and so is every grant that existed before.
   */
  lemma PathIndependent(s: State, t1: int, t2: int, tag1: nat, tag2: nat, tag: nat)
    requires Core(s) && Started(s) && t1 <= t2
    requires EnsureCycle(s, t1, tag1).Ok?
    ensures var e1 := EnsureCycle(s, t1, tag1).value.state;
            && (EnsureCycle(e1, t2, tag2).Ok? <==> EnsureCycle(s, t2, tag).Ok?)
            && (EnsureCycle(s, t2, tag).Ok? ==>
                  var x, y := EnsureCycle(e1, t2, tag2).value, EnsureCycle(s, t2, tag).value;
                  && ViewOf(x) == ViewOf(y)
                  && |s.book.grants| <= |x.state.book.grants| && |s.book.grants| <= |y.state.book.grants|
                  && x.state.book.grants[..|s.book.grants|] == y.state.book.grants[..|s.book.grants|])
  {
    hide Core, Started, EnsureCycle, BoundsAt, PolicyOf, SumOf, ExpireAll, Added, Expired;
    var e1 := EnsureCycle(s, t1, tag1).value.state;
    EnsureKeeps(s, t1, tag1);
    PathSameSuccess(s, t1, t2, tag1, tag2, tag);
    if EnsureCycle(s, t2, tag).Ok? {
      SameViews(s, t1, t2, tag1, tag2, tag);
      SameGrants(s, t1, t2, tag1, tag2, tag);
    }
  }

  lemma SameGrants(s: State, t1: int, t2: int, tag1: nat, tag2: nat, tag: nat)
    requires Core(s) && Started(s) && t1 <= t2
    requires EnsureCycle(s, t1, tag1).Ok? && EnsureCycle(s, t2, tag).Ok?
    requires EnsureCycle(EnsureCycle(s, t1, tag1).value.state, t2, tag2).Ok?
    ensures var n := |s.book.grants|;
            var xs := EnsureCycle(EnsureCycle(s, t1, tag1).value.state, t2, tag2).value.state.book.grants;
            var ys := EnsureCycle(s, t2, tag).value.state.book.grants;
            n <= |xs| && n <= |ys| && xs[..n] == ys[..n]
  {
    var e1 := EnsureCycle(s, t1, tag1).value.state;
    EnsureKeeps(s, t1, tag1);
    EnsureClock(s, t1, tag1);
    EnsureClock(s, t2, tag);
    hide Core, EnsureCycle, BoundsAt, PolicyOf, Expired;
    EnsureSpelledOut(s, t1, tag1);
    GrantsAfterStop(s, t1, t2, tag1);
    EnsureSpelledOut(s, t2, tag);
    EnsureSpelledOut(e1, t2, tag2);
    SamePrefix(ExpireAll(s.book.grants, t2), ExpireAll(e1.book.grants, t2),
               EnsureCycle(s, t2, tag).value.state.book.grants, EnsureCycle(e1, t2, tag2).value.state.book.grants);
  }

  lemma SamePrefix(xs: seq<Grant>, ys: seq<Grant>, xs': seq<Grant>, ys': seq<Grant>)
    requires xs <= ys && xs <= xs' && ys <= ys'
    ensures ys'[..|xs|] == xs'[..|xs|]
  {
  }

  lemma SameViews(s: State, t1: int, t2: int, tag1: nat, tag2: nat, tag: nat)
    requires Core(s) && Started(s) && t1 <= t2
    requires EnsureCycle(s, t1, tag1).Ok? && EnsureCycle(s, t2, tag).Ok?
    requires EnsureCycle(EnsureCycle(s, t1, tag1).value.state, t2, tag2).Ok?
    ensures ViewOf(EnsureCycle(EnsureCycle(s, t1, tag1).value.state, t2, tag2).value) == ViewOf(EnsureCycle(s, t2, tag).value)
  {
    hide Core, Started, EnsureCycle, BoundsAt, PolicyOf, SumOf, ExpireAll, Added, NeedsCycle;
    var e1 := EnsureCycle(s, t1, tag1).value.state;
    EnsureKeeps(s, t1, tag1);
    EnsureClock(s, t1, tag1);
    EnsureClock(s, t2, tag);
    EnsureSpelledOut(s, t1, tag1);
    EnsureSpelledOut(s, t2, tag);
    EnsureSpelledOut(e1, t2, tag2);
    EnsureSums(s, t2, tag);
    EnsureSums(e1, t2, tag2);
    NeedAfterStop(s, t1, t2, tag1);
    SumsAfterStop(s, t1, t2, tag1);
    PlansAfterStop(s, e1, BoundsAt(s.user.signedUpAt, t1).value, t2);
  }

  lemma PathSameSuccess(s: State, t1: int, t2: int, tag1: nat, tag2: nat, tag: nat)
    requires Core(s) && Started(s) && t1 <= t2
    requires EnsureCycle(s, t1, tag1).Ok?
    ensures EnsureCycle(EnsureCycle(s, t1, tag1).value.state, t2, tag2).Ok? <==> EnsureCycle(s, t2, tag).Ok?
  {
    hide Core, Started, EnsureCycle, BoundsAt, PolicyOf, SumOf, Added, Prepared, NeedsCycle;
    var e1 := EnsureCycle(s, t1, tag1).value.state;
    EnsureKeeps(s, t1, tag1);
    EnsureClock(s, t1, tag1);
    EnsureTotal(s, t2, tag);
    EnsureTotal(e1, t2, tag2);
    PreparedCore(e1, t2);
    CoreBounded(Prepared(e1, t2));
    if BoundsAt(s.user.signedUpAt, t2).Ok? {
      EnsureSpelledOut(s, t1, tag1);
      NeedAfterStop(s, t1, t2, tag1);
      SumsAfterStop(s, t1, t2, tag1);
      PreparedCore(s, t2);
      assert Prepared(s, t2).book.grants == ExpireAll(s.book.grants, t2);
      assert Prepared(e1, t2).book.grants == ExpireAll(e1.book.grants, t2);
      PlansAfterStop(s, e1, BoundsAt(s.user.signedUpAt, t1).value, t2);
    }
  }

  lemma PlansAfterStop(s: State, e1: State, b1: CycleBounds, t2: int)
    requires e1.account.Some? && (s.account.Some? ==> s.cycles != [])
    requires e1.account.value.plan == (if NeedsCycle(s, b1) then PlanBefore(s) else s.account.value.plan)
    requires e1.account.value.pending == (if NeedsCycle(s, b1) then None else s.account.value.pending)
    ensures NextPlan(Prepared(e1, t2).account.value) == PlanBefore(s)
    ensures NextPlan(Prepared(s, t2).account.value) == PlanBefore(s)
    ensures PlanBefore(e1) == PlanBefore(s)
    ensures s.account.Some? && s.account.value.pending.None? ==> PlanBefore(s) == s.account.value.plan
  {
  }
}
