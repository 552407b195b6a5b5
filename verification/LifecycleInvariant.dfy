/** Every lifecycle stage keeps the invariant. */
module LifecycleInvariant {
  import opened Prelude
  import opened CreditPolicy
  import opened CreditRecords
  import opened CreditLifecycle
  import opened CreditInvariant

  /** Posting keeps the ledger equal to the counters, whatever is posted. */
  lemma PostedBook(b: Book, es: seq<Event>)
    requires Posts(es, b.grants)
    ensures PostAll(b, es).ledger == b.ledger + es
    ensures forall g | 0 <= g < |b.grants| :: PostAll(b, es).grants[g] == b.grants[g].Add(Totals(es, g))
    ensures LedgerBalances(b) ==> LedgerBalances(PostAll(b, es))
    ensures forall c: nat :: Bases(PostAll(b, es).grants, c) == Bases(b.grants, c)
  {
    PostAllEffect(b, es);
    var r := PostAll(b, es);
    forall g | 0 <= g < |b.grants|
      ensures LedgerBalances(b) ==> Totals(r.ledger, g) == r.grants[g].counters
    {
      TotalsConcat(b.ledger, es, g);
    }
    forall c: nat
      ensures Bases(r.grants, c) == Bases(b.grants, c)
    {
      BasesSameKinds(r.grants, b.grants, c);
    }
  }

  /** Posting well-shaped events under new keys keeps the ledger in order. */
  lemma PostedLedger(s: State, t: State, es: seq<Event>)
    requires LedgerOk(s) && Posts(es, s.book.grants) && t.book == PostAll(s.book, es)
    requires forall i, j | 0 <= i < j < |es| :: es[i].grant != es[j].grant
    requires forall e | e in es :: ShapeOk(e) && KeyOk(t, e)
    requires forall f | f in s.book.ledger :: KeyOk(t, f)
    requires forall e, f | e in es && f in s.book.ledger :: Ident(e) != Ident(f)
    ensures LedgerOk(t)
  {
    hide KeyOk, ShapeOk, Totals;
    PostedBook(s.book, es);
    UniqueConcat(s.book.ledger, es);
    forall e | e in t.book.ledger
      ensures e.grant < |t.book.grants| && ShapeOk(e) && KeyOk(t, e)
    {
      assert e in es || e in s.book.ledger;
    }
  }

  /** The same for a grant that is new. */
  lemma OpenedBook(b: Book, g: Grant, key: EventKey, now: int)
    requires LedgerBalances(b)
    requires forall e | e in b.ledger :: e.grant < |b.grants|
    ensures LedgerBalances(OpenGrant(b, g, key, now))
  {
    var r := OpenGrant(b, g, key, now);
    var e := Event(|b.grants|, GrantEvent, key, now, g.counters);
    forall i | 0 <= i < |r.grants|
      ensures Totals(r.ledger, i) == r.grants[i].counters
    {
      TotalsAppend(b.ledger, e, i);
      if i == |b.grants| {
        TotalsAbsent(b.ledger, i);
        PlusZero(g.counters);
      } else {
        PlusZero(b.grants[i].counters);
      }
    }
  }

  // ---------------------------------------------------------------- expiry

  function Expired(g: Grant, now: int): Grant {
    if Due(g, now) then g.Add(Counters(0, 0, 0, g.counters.Available())) else g
  }

  lemma ExpireEventsStep(grants: seq<Grant>, now: int, n: nat)
    requires 0 < n <= |grants|
    ensures ExpireEvents(grants, now, n)
            == if Due(grants[n - 1], now) then ExpireEvents(grants, now, n - 1) + [ExpireEventOf(n - 1, grants[n - 1], now)]
               else ExpireEvents(grants, now, n - 1)
  {
  }

  lemma {:induction false} ExpireEventsList(grants: seq<Grant>, now: int, n: nat)
    requires n <= |grants|
    ensures forall e | e in ExpireEvents(grants, now, n) ::
              e.grant < n && Due(grants[e.grant], now) && e == ExpireEventOf(e.grant, grants[e.grant], now)
    ensures var es := ExpireEvents(grants, now, n);
            forall i, j | 0 <= i < j < |es| :: es[i].grant != es[j].grant
  {
    if n > 0 {
      hide ExpireEvents, Due, ExpireEventOf;
      ExpireEventsStep(grants, now, n);
      ExpireEventsList(grants, now, n - 1);
      var init := ExpireEvents(grants, now, n - 1);
      assert forall i | 0 <= i < |init| :: init[i] in init;
    }
  }

  function ExpiryOf(g: Grant, now: int): Counters {
    if Due(g, now) then Counters(0, 0, 0, g.counters.Available()) else ZERO
  }

  lemma NothingExpires(grants: seq<Grant>, now: int, g: nat)
    ensures Totals(ExpireEvents(grants, now, 0), g) == ZERO
  {
  }

  lemma {:induction false} ExpireEventsTotals(grants: seq<Grant>, now: int, n: nat, g: nat)
    requires n <= |grants|
    ensures Totals(ExpireEvents(grants, now, n), g) == if g < n then ExpiryOf(grants[g], now) else ZERO
  {
    hide Totals, ExpireEvents, ExpiryOf, Due;
    if n == 0 {
      NothingExpires(grants, now, g);
    } else {
      ExpireEventsTotals(grants, now, n - 1, g);
      if g == n - 1 {
        ExpiresNow(grants, now, n);
      } else {
        ExpiresElsewhere(grants, now, n, g);
      }
    }
  }

  lemma ExpiresElsewhere(grants: seq<Grant>, now: int, n: nat, g: nat)
    requires 0 < n <= |grants| && g != n - 1
    ensures Totals(ExpireEvents(grants, now, n), g) == Totals(ExpireEvents(grants, now, n - 1), g)
  {
    hide Totals, ExpireEvents, Counters.Plus, Counters.Available;
    ExpireEventsStep(grants, now, n);
    if Due(grants[n - 1], now) {
      var es := ExpireEvents(grants, now, n - 1);
      TotalsAppend(es, ExpireEventOf(n - 1, grants[n - 1], now), g);
      PlusZero(Totals(es, g));
    }
  }

  lemma ExpiresNow(grants: seq<Grant>, now: int, n: nat)
    requires 0 < n <= |grants|
    requires Totals(ExpireEvents(grants, now, n - 1), n - 1) == ZERO
    ensures Totals(ExpireEvents(grants, now, n), n - 1) == ExpiryOf(grants[n - 1], now)
  {
    hide Totals, ExpireEvents, Counters.Plus, Counters.Available;
    ExpireEventsStep(grants, now, n);
    if Due(grants[n - 1], now) {
      var e := ExpireEventOf(n - 1, grants[n - 1], now);
      TotalsAppend(ExpireEvents(grants, now, n - 1), e, n - 1);
      PlusZero(e.delta);
    }
  }

  /** Ageing touches a grant only by expiring what it still has, once it is due. */
  lemma AgedBook(s: State, now: int)
    requires s.account.Some?
    ensures |Aged(s, now).book.grants| == |s.book.grants|
    ensures forall g | 0 <= g < |s.book.grants| :: Aged(s, now).book.grants[g] == Expired(s.book.grants[g], now)
    ensures Aged(s, now).book.ledger == s.book.ledger + ExpireEvents(s.book.grants, now, |s.book.grants|)
    ensures LedgerBalances(s.book) ==> LedgerBalances(Aged(s, now).book)
    ensures forall c: nat :: Bases(Aged(s, now).book.grants, c) == Bases(s.book.grants, c)
  {
    var n := |s.book.grants|;
    PostedBook(s.book, ExpireEvents(s.book.grants, now, n));
    forall g | 0 <= g < n
      ensures Aged(s, now).book.grants[g] == Expired(s.book.grants[g], now)
    {
      ExpireEventsTotals(s.book.grants, now, n, g);
      PlusZero(s.book.grants[g].counters);
    }
  }

  lemma {:induction false} ExpiryLowersOutstanding(grants: seq<Grant>, now: int)
    requires forall g | g in grants :: 0 <= g.counters.Available()
    ensures SumOf(ExpireEvents(grants, now, |grants|), EventOutstanding) <= 0
  {
    var es := ExpireEvents(grants, now, |grants|);
    ExpireEventsList(grants, now, |grants|);
    NegativeSum(es);
  }

  lemma {:induction false} NegativeSum(es: seq<Event>)
    requires forall e | e in es :: e.delta.Outstanding() <= 0
    ensures SumOf(es, EventOutstanding) <= 0
  {
    if es != [] {
      NegativeSum(es[..|es| - 1]);
    }
  }

  // ---------------------------------------------------------------- tables that stay

  lemma CyclesFrame(s: State, t: State)
    requires CyclesOk(s) && AsOf(s) <= AsOf(t) && t.cycles == s.cycles && t.user.signedUpAt == s.user.signedUpAt
    ensures CyclesOk(t)
  {
    hide PolicyOf;
    forall i | 0 <= i < |t.cycles|
      ensures CycleOk(t, t.cycles[i])
    {
      assert CycleOk(s, s.cycles[i]);
    }
  }

  lemma ReservationsFrame(s: State, t: State)
    requires ReservationsOk(s) && AsOf(s) <= AsOf(t) && t.reservations == s.reservations && |s.book.grants| <= |t.book.grants|
    ensures ReservationsOk(t)
  {
    hide ItemsOk, TerminalOk;
    forall i | 0 <= i < |t.reservations|
      ensures ReservationOk(t, t.reservations[i])
    {
      assert ReservationOk(s, s.reservations[i]);
    }
  }

  /** Old commands keep their meaning; new ones are looked at one by one. */
  lemma OperationsFrame(s: State, t: State)
    requires OperationsOk(s) && |s.cycles| <= |t.cycles| && |s.book.grants| <= |t.book.grants|
    requires forall k | k in t.operations :: (k in s.operations && t.operations[k] == s.operations[k]) || OperationOk(t, t.operations[k])
    ensures OperationsOk(t)
  {
    forall k | k in t.operations
      ensures OperationOk(t, t.operations[k])
    {
      assert k in s.operations ==> OperationOk(s, s.operations[k]);
    }
  }

  lemma AgedLedger(s: State, now: int)
    requires Core(s) && s.account.Some? && s.account.value.updatedAt <= now
    ensures LedgerOk(Aged(s, now))
  {
    hide Core, ExpireEvents, LedgerUnique, LedgerBalances, Bases;
    CoreTables(s);
    var t := Aged(s, now);
    var es := ExpireEvents(s.book.grants, now, |s.book.grants|);
    AgedBook(s, now);
    ExpireEventsList(s.book.grants, now, |s.book.grants|);
    forall e | e in es
      ensures ShapeOk(e) && KeyOk(t, e)
    {
      assert GrantOk(s, s.book.grants[e.grant]);
    }
    forall f | f in s.book.ledger
      ensures KeyOk(t, f)
    {
      assert KeyOk(s, f);
    }
    FreshExpiries(s, es);
    PostedLedger(s, t, es);
  }

  /** A grant due for expiry has no expiry in the ledger yet. */
  lemma FreshExpiries(s: State, es: seq<Event>)
    requires Core(s)
    requires forall e | e in es :: e.grant < |s.book.grants| && e.key == ExpireOf(e.grant) && s.book.grants[e.grant].counters.Available() != 0
    ensures forall e, f | e in es && f in s.book.ledger :: Ident(e) != Ident(f)
  {
    forall e, f | e in es && f in s.book.ledger
      ensures Ident(e) != Ident(f)
    {
      assert KeyOk(s, f);
    }
  }

  lemma AgedGrants(s: State, now: int)
    requires Core(s) && s.account.Some? && s.account.value.updatedAt <= now
    ensures GrantsOk(Aged(s, now)) && NoResurrection(Aged(s, now)) && HoldsOk(Aged(s, now)) && BoundedBalance(Aged(s, now))
  {
    var t := Aged(s, now);
    AgedBook(s, now);
    forall g | 0 <= g < |t.book.grants|
      ensures GrantOk(t, t.book.grants[g])
      ensures t.book.grants[g].ExpiredAt(now) ==> t.book.grants[g].counters.Available() == 0
      ensures t.book.grants[g].counters.reserved == HeldOn(t.reservations, g)
    {
      assert GrantOk(s, s.book.grants[g]);
    }
    forall g | g in s.book.grants
      ensures 0 <= g.counters.Available()
    {
      var i :| 0 <= i < |s.book.grants| && s.book.grants[i] == g;
      assert GrantOk(s, s.book.grants[i]);
    }
    ExpiryLowersOutstanding(s.book.grants, now);
    PostAllOutstanding(s.book, ExpireEvents(s.book.grants, now, |s.book.grants|));
  }

  lemma AgedCore(s: State, now: int)
    requires Core(s) && s.account.Some? && s.account.value.updatedAt <= now
    ensures Core(Aged(s, now))
    ensures Started(s) ==> Started(Aged(s, now))
  {
    hide GrantsOk, NoResurrection, HoldsOk, LedgerOk, BoundedBalance, CyclesOk, ReservationsOk, OperationsOk, PostAll, ExpireEvents;
    var t := Aged(s, now);
    AgedLedger(s, now);
    AgedGrants(s, now);
    CyclesFrame(s, t);
    ReservationsFrame(s, t);
    OperationsFrame(s, t);
  }

  // ---------------------------------------------------------------- renewal

  lemma OpenedCore(s: State, now: int)
    requires Core(s) && s.account.None? && s.user.signedUpAt <= now
    ensures Core(Opened(s, now))
  {
  }

  lemma RenewedCore(s: State, b: CycleBounds, now: int, tag: nat)
    requires Core(s) && s.account.Some? && s.account.value.updatedAt == now
    requires BoundsAt(s.user.signedUpAt, now) == Ok(b)
    requires forall i | 0 <= i < |s.cycles| :: s.cycles[i].index < b.index
    requires Renewed(s, b, now, tag).Ok?
    ensures var e := Renewed(s, b, now, tag).value;
            && Core(e.state) && Started(e.state)
            && e.cycle == |e.state.cycles| - 1
            && e.state.cycles[e.cycle].index == b.index
            && e.state.book.grants[e.base].kind == Base(e.cycle)
  {
    hide PolicyOf, BoundsAt, SumOf, GrantsOk, HoldsOk, NoResurrection, CyclesOk, ReservationsOk, OperationsOk, LedgerOk;
    var e := Renewed(s, b, now, tag).value;
    var t := e.state;
    var base := NewBase(|s.cycles|, NextPlan(s.account.value), b, now, tag);
    AllowancePositive(NextPlan(s.account.value));
    RenewedCycles(s, t, NextPlan(s.account.value), b, now);
    ReservationsFrame(s, t);
    OperationsFrame(s, t);
    RenewedGrants(s, b, now, tag);
    RenewedLedger(s, base, t, CycleBase(b.index), now);
    RenewedBalance(s, base, now, b);
  }

  lemma AllowancePositive(p: Plan)
    ensures 0 < PolicyOf(p).allowance <= MAX_BIGINT
  {
  }

  lemma RenewedCycles(s: State, t: State, plan: Plan, b: CycleBounds, now: int)
    requires CyclesOk(s) && AsOf(t) == AsOf(s) == now && t.user == s.user
    requires BoundsAt(s.user.signedUpAt, now) == Ok(b)
    requires forall i | 0 <= i < |s.cycles| :: s.cycles[i].index < b.index
    requires t.cycles == s.cycles + [NewCycle(plan, b, now)]
    ensures CyclesOk(t)
  {
    BoundsTile(s.user.signedUpAt, now, b.index);
    hide BoundsAt, PolicyOf;
    forall i | 0 <= i < |t.cycles|
      ensures CycleOk(t, t.cycles[i])
    {
      if i < |s.cycles| {
        assert CycleOk(s, s.cycles[i]);
      }
    }
  }

  /** The renewed allowance still fits the bound the capacity check imposed. */
  lemma RenewedBalance(s: State, base: Grant, now: int, b: CycleBounds)
    requires Capacity(s.book.grants, base.counters.granted) && base.counters == Counters(base.counters.granted, 0, 0, 0)
    ensures SumOf(OpenGrant(s.book, base, CycleBase(b.index), now).grants, OutstandingOf) <= MAX_BIGINT
  {
    SumOfAppend(s.book.grants, base, OutstandingOf);
  }

  lemma RenewedGrants(s: State, b: CycleBounds, now: int, tag: nat)
    requires Core(s) && s.account.Some? && s.account.value.updatedAt == now
    requires BoundsAt(s.user.signedUpAt, now) == Ok(b)
    requires Renewed(s, b, now, tag).Ok?
    ensures var t := Renewed(s, b, now, tag).value.state; GrantsOk(t) && NoResurrection(t) && HoldsOk(t)
  {
    var t := Renewed(s, b, now, tag).value.state;
    BoundsTile(s.user.signedUpAt, now, b.index);
    var base := NewBase(|s.cycles|, NextPlan(s.account.value), b, now, tag);
    forall g | 0 <= g < |t.book.grants|
      ensures GrantOk(t, t.book.grants[g])
      ensures t.book.grants[g].ExpiredAt(now) ==> t.book.grants[g].counters.Available() == 0
      ensures t.book.grants[g].counters.reserved == HeldOn(t.reservations, g)
    {
      if g < |s.book.grants| {
        assert GrantOk(s, s.book.grants[g]);
      } else {
        FreshGrantUnheld(s);
      }
    }
    forall c | 0 <= c < |t.cycles|
      ensures |Bases(t.book.grants, c)| == 1
    {
      BasesAppend(s.book.grants, base, c);
      if c == |s.cycles| {
        forall i | 0 <= i < |s.book.grants|
          ensures s.book.grants[i].kind != Base(c)
        {
          assert GrantOk(s, s.book.grants[i]);
        }
        BasesAbsent(s.book.grants, c);
      }
    }
  }

  /** No reservation refers to a grant that does not exist yet. */
  lemma FreshGrantUnheld(s: State)
    requires ReservationsOk(s)
    ensures HeldOn(s.reservations, |s.book.grants|) == 0
  {
    UnheldPrefix(s, |s.reservations|);
    assert s.reservations[..|s.reservations|] == s.reservations;
  }

  lemma {:induction false} UnheldPrefix(s: State, n: nat)
    requires ReservationsOk(s) && n <= |s.reservations|
    ensures HeldOn(s.reservations[..n], |s.book.grants|) == 0
  {
    if n > 0 {
      assert s.reservations[..n][..n - 1] == s.reservations[..n - 1];
      assert ReservationOk(s, s.reservations[n - 1]);
      AllocationsAbsent(s.reservations[n - 1].allocations, |s.book.grants|);
      UnheldPrefix(s, n - 1);
    }
  }

  /** A grant event on a new row keeps the ledger in order. */
  lemma RenewedLedger(s: State, g: Grant, t: State, key: EventKey, now: int)
    requires LedgerOk(s) && AsOf(t) == AsOf(s)
    requires t.book == OpenGrant(s.book, g, key, now)
    requires t.reservations == s.reservations && s.operations.Keys <= t.operations.Keys
    requires key.CycleBase? || (key.Command? && key.key in t.operations)
    requires 0 < g.counters.granted && g.counters.reserved == g.counters.consumed == g.counters.expired == 0
    ensures LedgerOk(t)
  {
    OpenedBook(s.book, g, key, now);
    var e := Event(|s.book.grants|, GrantEvent, key, now, g.counters);
    forall f | f in t.book.ledger
      ensures f.grant < |t.book.grants| && ShapeOk(f) && KeyOk(t, f)
    {
      if f in s.book.ledger {
        assert KeyOk(s, f);
      } else {
        assert f == e;
      }
    }
    assert LedgerUnique(t.book.ledger) by {
      UniqueConcat(s.book.ledger, [e]);
    }
  }

  // ---------------------------------------------------------------- bringing the rows up to date

  /** The stored cycle is never ahead of a clock that has not gone back. */
  lemma ClockGuardUnreachable(s: State, now: int)
    requires Core(s) && Started(s) && s.account.Some? && s.account.value.updatedAt <= now
    requires BoundsAt(s.user.signedUpAt, now).Ok?
    ensures LatestCycle(s).index <= BoundsAt(s.user.signedUpAt, now).value.index
  {
    InvCoherent(s);
    var c := LatestCycle(s);
    assert CycleOk(s, c);
    BoundsConstantOnCycle(s.user.signedUpAt, c.index, c.startsAt);
    BoundsMonotone(s.user.signedUpAt, c.startsAt, now);
  }

  /** Opening or ageing keeps the invariant, brings the clock to `now` and leaves the other tables alone. */
  lemma PreparedCore(s: State, now: int)
    requires Core(s) && Started(s) && AsOf(s) <= now
    ensures var t := Prepared(s, now);
            && Core(t) && AsOf(t) == now
            && t == s.(account := t.account, book := t.book)
            && t.account.value.plan == (if s.account.None? then (if s.user.role.Master? then Max else Free) else s.account.value.plan)
            && |t.book.grants| == |s.book.grants|
            && (forall g | 0 <= g < |s.book.grants| :: t.book.grants[g] == Expired(s.book.grants[g], now))
            && (s.account.Some? ==> Started(t))
  {
    if s.account.None? {
      OpenedCore(s, now);
    } else {
      AgedCore(s, now);
      AgedBook(s, now);
    }
  }

  /** Every successful renewal keeps the invariant and leaves the current cycle in place. */
  lemma EnsureKeeps(s: State, now: int, tag: nat)
    requires Core(s) && Started(s) && EnsureCycle(s, now, tag).Ok?
    ensures var e := EnsureCycle(s, now, tag).value;
            && Core(e.state) && Started(e.state)
            && e.state.account.Some? && e.state.account.value.updatedAt == now
            && e.state.user == s.user && e.state.reservations == s.reservations
            && e.state.operations == s.operations && e.state.audits == s.audits
            && |s.book.grants| <= |e.state.book.grants| && |s.cycles| <= |e.state.cycles|
            && e.cycle == |e.state.cycles| - 1
            && e.state.cycles[e.cycle].startsAt <= now < e.state.cycles[e.cycle].endsAt
            && e.state.book.grants[e.base].kind == Base(e.cycle)
  {
    hide Core, Started, Aged, Opened, PolicyOf, Capacity, Coherent, BoundsAt;
    var b := BoundsAt(s.user.signedUpAt, now).value;
    var e := EnsureCycle(s, now, tag).value;
    EnsureClock(s, now, tag);
    PreparedCore(s, now);
    if NeedsCycle(s, b) {
      NoCycleYet(s, b);
      RenewedCore(Prepared(s, now), b, now, tag);
    } else {
      InvCoherent(s);
    }
    CurrentCycleContains(e.state, e.cycle, b, now);
  }

  lemma CoreBounded(s: State)
    requires Core(s)
    ensures SumOf(s.book.grants, OutstandingOf) <= MAX_BIGINT
  {
  }

  lemma EnsureClock(s: State, now: int, tag: nat)
    requires EnsureCycle(s, now, tag).Ok?
    ensures AsOf(s) <= now && BoundsAt(s.user.signedUpAt, now).Ok?
  {
  }

  lemma NoCycleYet(s: State, b: CycleBounds)
    requires Core(s) && Started(s) && NeedsCycle(s, b)
    ensures forall i | 0 <= i < |s.cycles| :: s.cycles[i].index < b.index
  {
    if s.account.Some? {
      LatestIsLast(s.cycles);
    }
  }

  lemma CurrentCycleContains(s: State, i: nat, b: CycleBounds, now: int)
    requires Core(s) && i < |s.cycles| && s.cycles[i].index == b.index
    requires BoundsAt(s.user.signedUpAt, now) == Ok(b)
    ensures s.cycles[i].startsAt <= now < s.cycles[i].endsAt
    ensures s.cycles[i].startsAt == b.startsAt && s.cycles[i].endsAt == b.endsAt
  {
    BoundsTile(s.user.signedUpAt, now, b.index);
    assert CycleOk(s, s.cycles[i]);
  }

  /**
   * When renewal succeeds, exactly: the request is not before the account's
   * clock, the cycle is representable, and a due renewal fits the balance bound.
   * Every other guard is unreachable.
   */
  lemma EnsureTotal(s: State, now: int, tag: nat)
    requires Core(s) && Started(s)
    ensures EnsureCycle(s, now, tag).Ok? <==>
            && AsOf(s) <= now
            && BoundsAt(s.user.signedUpAt, now).Ok?
            && (NeedsCycle(s, BoundsAt(s.user.signedUpAt, now).value) ==>
                  var t := Prepared(s, now);
                  SumOf(t.book.grants, OutstandingOf) + PolicyOf(NextPlan(t.account.value)).allowance <= MAX_BIGINT)
  {
    if EnsureCycle(s, now, tag).Ok? {
      EnsureClock(s, now, tag);
    }
    if AsOf(s) <= now && BoundsAt(s.user.signedUpAt, now).Ok? {
      var b := BoundsAt(s.user.signedUpAt, now).value;
      EnsureGuardPasses(s, b, now);
      PreparedCore(s, now);
      var t := Prepared(s, now);
      OutstandingNonNegative(t);
      EnsureFits(s, b, now, tag);
    }
  }

  lemma EnsureGuardPasses(s: State, b: CycleBounds, now: int)
    requires Core(s) && Started(s) && AsOf(s) <= now && BoundsAt(s.user.signedUpAt, now) == Ok(b)
    ensures EnsureGuard(s, b, now).Pass?
  {
    if s.account.Some? {
      InvCoherent(s);
      ClockGuardUnreachable(s, now);
      forall g | g in s.book.grants
        ensures 0 <= g.counters.Available()
      {
        var i :| 0 <= i < |s.book.grants| && s.book.grants[i] == g;
        assert GrantOk(s, s.book.grants[i]);
      }
    }
  }

  /** Past the guard only the balance bound can refuse. */
  lemma EnsureFits(s: State, b: CycleBounds, now: int, tag: nat)
    requires s.user.signedUpAt <= now && BoundsAt(s.user.signedUpAt, now) == Ok(b) && EnsureGuard(s, b, now).Pass?
    requires 0 <= SumOf(Prepared(s, now).book.grants, OutstandingOf) <= MAX_BIGINT
    ensures EnsureCycle(s, now, tag).Ok? <==>
            (NeedsCycle(s, b) ==>
               var t := Prepared(s, now);
               SumOf(t.book.grants, OutstandingOf) + PolicyOf(NextPlan(t.account.value)).allowance <= MAX_BIGINT)
  {
    hide Aged, Opened, Coherent, EnsureGuard;
    var t := Prepared(s, now);
    SumOfAppend(t.book.grants, NewBase(|t.cycles|, NextPlan(t.account.value), b, now, tag), OutstandingOf);
  }

  // ---------------------------------------------------------------- plan changes and bonuses

  /** Changes that leave the money tables alone keep the invariant as far as the account itself stays coherent. */
  lemma CoreFrame(s: State, t: State)
    requires Core(s) && s.account.Some?
    requires t.cycles == s.cycles && t.book == s.book && t.reservations == s.reservations
    requires t.user.signedUpAt == s.user.signedUpAt && AsOf(t) == AsOf(s)
    requires AccountOk(t) && t.account.Some?
    requires s.operations.Keys <= t.operations.Keys
    requires forall k | k in t.operations :: OperationOk(s, t.operations[k])
    ensures Core(t)
  {
    hide GrantsOk, LedgerOk, ReservationsOk, CyclesOk, OperationsOk, AccountOk;
    CyclesFrame(s, t);
    ReservationsFrame(s, t);
    SameBookFrame(s, t);
    RestatedOperations(s, t);
  }

  lemma RestatedOperations(s: State, t: State)
    requires forall k | k in t.operations :: OperationOk(s, t.operations[k])
    requires t.cycles == s.cycles && t.book == s.book
    ensures OperationsOk(t)
  {
    forall k | k in t.operations
      ensures OperationOk(t, t.operations[k])
    {
      assert OperationOk(s, t.operations[k]);
    }
  }

  lemma SameBookFrame(s: State, t: State)
    requires GrantsOk(s) && LedgerOk(s) && t.book == s.book && t.cycles == s.cycles && t.reservations == s.reservations && AsOf(t) == AsOf(s)
    requires s.operations.Keys <= t.operations.Keys
    ensures GrantsOk(t) && LedgerOk(t)
  {
    hide LedgerUnique, LedgerBalances, Bases, ShapeOk;
    forall e | e in t.book.ledger
      ensures e.grant < |t.book.grants| && ShapeOk(e) && KeyOk(t, e)
    {
      assert KeyOk(s, e);
    }
    forall i | 0 <= i < |t.book.grants|
      ensures GrantOk(t, t.book.grants[i])
    {
      assert GrantOk(s, s.book.grants[i]);
    }
  }

  /** An upgrade raises the current base grant and its cycle together. */
  lemma UpgradeCore(e: Current, target: Plan, key: Key, now: int)
    requires Core(e.state) && Started(e.state) && Ready(e) && e.cycle == |e.state.cycles| - 1
    requires e.state.book.grants[e.base].kind == Base(e.cycle)
    requires now == AsOf(e.state) < e.state.cycles[e.cycle].endsAt
    requires Rank(e.state.account.value.plan) < Rank(target) && key !in e.state.operations
    requires Upgrade(e, target, key, now).Ok?
    ensures var o := Operation(PlanChange(target), now, e.cycle, Some(e.base), Upgraded);
            var t := Recorded(Upgrade(e, target, key, now).value, key, o).0;
            Core(t) && Started(t)
  {
    hide GrantsOk, NoResurrection, HoldsOk, LedgerOk, CyclesOk, ReservationsOk, OperationsOk, SumOf;
    var s := e.state;
    var o := Operation(PlanChange(target), now, e.cycle, Some(e.base), Upgraded);
    var t := Recorded(Upgrade(e, target, key, now).value, key, o).0;
    var delta := PolicyOf(target).allowance - s.cycles[e.cycle].allowance;
    UpgradedCycles(e, t, target);
    UpgradedLedger(e, t, key, now, delta);
    UpgradedGrants(e, t, delta);
    SumOfUpdate(s.book.grants, e.base, s.book.grants[e.base].Add(Counters(delta, 0, 0, 0)), OutstandingOf);
    ReservationsFrame(s, t);
    OperationsFrame(s, t);
  }

  lemma UpgradedCycles(e: Current, t: State, target: Plan)
    requires CyclesOk(e.state) && Ready(e) && AsOf(t) == AsOf(e.state) && t.user == e.state.user
    requires t.cycles == e.state.cycles[e.cycle := e.state.cycles[e.cycle].(plan := target, allowance := PolicyOf(target).allowance)]
    ensures CyclesOk(t)
    ensures e.state.cycles[e.cycle].allowance == PolicyOf(e.state.cycles[e.cycle].plan).allowance
  {
    var s := e.state;
    assert CycleOk(s, s.cycles[e.cycle]);
    forall i | 0 <= i < |t.cycles|
      ensures CycleOk(t, t.cycles[i])
    {
      assert CycleOk(s, s.cycles[i]);
    }
  }

  lemma UpgradedLedger(e: Current, t: State, key: Key, now: int, delta: int)
    requires LedgerOk(e.state) && Ready(e) && 0 < delta && key !in e.state.operations
    requires t.book == Post(e.state.book, Event(e.base, AdjustEvent, Command(key), now, Counters(delta, 0, 0, 0)))
    requires AsOf(t) == AsOf(e.state) && t.reservations == e.state.reservations
    requires t.operations.Keys == e.state.operations.Keys + {key}
    ensures LedgerOk(t)
  {
    var s := e.state;
    var event := Event(e.base, AdjustEvent, Command(key), now, Counters(delta, 0, 0, 0));
    assert PostAll(s.book, [event]) == t.book by {
      assert [event][..0] == [];
    }
    forall f | f in s.book.ledger
      ensures KeyOk(t, f) && Ident(event) != Ident(f)
    {
      assert KeyOk(s, f);
    }
    PostedLedger(s, t, [event]);
  }

  lemma UpgradedGrants(e: Current, t: State, delta: int)
    requires Core(e.state) && Ready(e) && e.cycle == |e.state.cycles| - 1
    requires e.state.book.grants[e.base].kind == Base(e.cycle)
    requires AsOf(t) == AsOf(e.state) < e.state.cycles[e.cycle].endsAt && 0 < delta
    requires |t.cycles| == |e.state.cycles| && t.reservations == e.state.reservations
    requires forall i | 0 <= i < |t.cycles| && i != e.cycle :: t.cycles[i] == e.state.cycles[i]
    requires t.cycles[e.cycle].endsAt == e.state.cycles[e.cycle].endsAt
    requires t.cycles[e.cycle].allowance == e.state.cycles[e.cycle].allowance + delta <= MAX_BIGINT
    requires t.book.grants == e.state.book.grants[e.base := e.state.book.grants[e.base].Add(Counters(delta, 0, 0, 0))]
    ensures GrantsOk(t) && NoResurrection(t) && HoldsOk(t)
  {
    var s := e.state;
    forall g | 0 <= g < |t.book.grants|
      ensures GrantOk(t, t.book.grants[g])
      ensures t.book.grants[g].ExpiredAt(AsOf(t)) ==> t.book.grants[g].counters.Available() == 0
      ensures t.book.grants[g].counters.reserved == HeldOn(t.reservations, g)
    {
      assert GrantOk(s, s.book.grants[g]);
      if g != e.base && s.book.grants[g].kind == Base(e.cycle) {
        assert |Bases(s.book.grants, e.cycle)| == 1;
        BaseRowUnique(s.book.grants, e.cycle, g, e.base);
      }
    }
    forall c | 0 <= c < |t.cycles|
      ensures |Bases(t.book.grants, c)| == 1
    {
      BasesSameKinds(t.book.grants, s.book.grants, c);
    }
  }

  /** Two base grants of one cycle would both be listed. */
  lemma {:induction false} BaseRowUnique(grants: seq<Grant>, c: nat, g: nat, h: nat)
    requires g < |grants| && h < |grants| && g != h
    requires grants[g].kind == Base(c) && grants[h].kind == Base(c)
    ensures 2 <= |Bases(grants, c)|
  {
    var n := |grants| - 1;
    if g == n {
      BaseRowListed(grants[..n], c, h);
    } else if h == n {
      BaseRowListed(grants[..n], c, g);
    } else {
      BaseRowUnique(grants[..n], c, g, h);
    }
  }

  lemma {:induction false} BaseRowListed(grants: seq<Grant>, c: nat, g: nat)
    requires g < |grants| && grants[g].kind == Base(c)
    ensures 1 <= |Bases(grants, c)|
  {
    if g < |grants| - 1 {
      BaseRowListed(grants[..|grants| - 1], c, g);
    }
  }

  lemma PlanChangedKeeps(e: Current, target: Plan, key: Key, now: int)
    requires Core(e.state) && Started(e.state) && Ready(e) && e.cycle == |e.state.cycles| - 1
    requires e.state.book.grants[e.base].kind == Base(e.cycle)
    requires now == AsOf(e.state) < e.state.cycles[e.cycle].endsAt
    requires e.state.user.role.Master? ==> target == Max
    requires key !in e.state.operations && PlanChanged(e, target, key, now).Ok?
    ensures var t := PlanChanged(e, target, key, now).value.0;
            && Core(t) && Started(t) && t.account.Some? && AsOf(t) == now
            && t.user == e.state.user && t.audits == e.state.audits
            && t.operations.Keys == e.state.operations.Keys + {key}
            && (target == Max ==> t.account.value.plan == Max && t.account.value.pending.None?)
  {
    hide CyclesOk, GrantsOk, HoldsOk, ReservationsOk, LedgerOk, NoResurrection;
    var a := e.state.account.value;
    if Rank(a.plan) < Rank(target) {
      UpgradeCore(e, target, key, now);
    } else {
      CoreFrame(e.state, PlanChanged(e, target, key, now).value.0);
    }
  }

  lemma ChangePlanKeeps(s: State, target: Plan, key: Key, now: int, tag: nat)
    requires Core(s) && Started(s) && ChangePlan(s, target, key, now, tag).Ok?
    ensures var t := ChangePlan(s, target, key, now, tag).value.0;
            && Core(t) && Started(t) && t.user == s.user && t.audits == s.audits
            && t.operations.Keys == s.operations.Keys + {key}
            && (key !in s.operations ==> t.account.Some? && AsOf(t) == now)
            && (key !in s.operations && target == Max ==> t.account.value.plan == Max && t.account.value.pending.None?)
  {
    hide Core, Started, EnsureCycle, PlanChanged;
    if key !in s.operations {
      EnsureKeeps(s, now, tag);
      PlanChangedKeeps(EnsureCycle(s, now, tag).value, target, key, now);
    }
  }

  lemma BonusAddedKeeps(e: Current, amount: int, expiresAt: Option<int>, reason: nat, key: Key, now: int, tag: nat)
    requires Core(e.state) && Started(e.state) && Ready(e)
    requires now == AsOf(e.state) && 0 < amount <= MAX_BIGINT
    requires expiresAt.Some? ==> now < expiresAt.value
    requires key !in e.state.operations && BonusAdded(e, amount, expiresAt, reason, key, now, tag).Ok?
    ensures var t := BonusAdded(e, amount, expiresAt, reason, key, now, tag).value.0;
            && Core(t) && Started(t) && t.user == e.state.user && t.audits == e.state.audits
            && t.operations.Keys == e.state.operations.Keys + {key}
  {
    hide GrantsOk, NoResurrection, HoldsOk, LedgerOk, CyclesOk, ReservationsOk, OperationsOk, SumOf;
    var s := e.state;
    var t := BonusAdded(e, amount, expiresAt, reason, key, now, tag).value.0;
    var g := Grant(Bonus, tag, now, expiresAt, Counters(amount, 0, 0, 0));
    RenewedLedger(s, g, t, Command(key), now);
    SumOfAppend(s.book.grants, g, OutstandingOf);
    BonusGrants(s, g, t);
    CyclesFrame(s, t);
    ReservationsFrame(s, t);
    OperationsFrame(s, t);
  }

  lemma BonusGrants(s: State, g: Grant, t: State)
    requires Core(s) && g.kind.Bonus? && GrantOk(s, g) && g.counters.reserved == 0
    requires g.expiresAt.Some? ==> AsOf(s) < g.expiresAt.value
    requires t.book.grants == s.book.grants + [g] && AsOf(t) == AsOf(s)
    requires t.cycles == s.cycles && t.reservations == s.reservations
    ensures GrantsOk(t) && NoResurrection(t) && HoldsOk(t)
  {
    forall i | 0 <= i < |t.cycles|
      ensures |Bases(t.book.grants, i)| == 1
    {
      BasesAppend(s.book.grants, g, i);
    }
    forall i | 0 <= i < |t.book.grants|
      ensures GrantOk(t, t.book.grants[i])
      ensures t.book.grants[i].ExpiredAt(AsOf(t)) ==> t.book.grants[i].counters.Available() == 0
      ensures t.book.grants[i].counters.reserved == HeldOn(t.reservations, i)
    {
      if i < |s.book.grants| {
        assert GrantOk(s, s.book.grants[i]);
      } else {
        FreshGrantUnheld(s);
      }
    }
  }

  lemma GrantBonusKeeps(s: State, amount: int, expiresAt: Option<int>, reason: nat, key: Key, now: int, tag: nat, bonusTag: nat)
    requires Core(s) && Started(s) && GrantBonus(s, amount, expiresAt, reason, key, now, tag, bonusTag).Ok?
    ensures var t := GrantBonus(s, amount, expiresAt, reason, key, now, tag, bonusTag).value.0;
            && Core(t) && Started(t) && t.user == s.user && t.audits == s.audits
            && t.operations.Keys == s.operations.Keys + {key}
  {
    hide Core, Started, EnsureCycle, BonusAdded;
    if key !in s.operations {
      EnsureKeeps(s, now, tag);
      BonusAddedKeeps(EnsureCycle(s, now, tag).value, amount, expiresAt, reason, key, now, bonusTag);
    }
  }
}
