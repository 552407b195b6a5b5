/**
 * Four calls of one instant after which a held reservation can or cannot be
 * released, depending on the order in which the ledger's ties come out.
 */
module TiedInstants {
  import opened Prelude
  import opened Sorting
  import opened CreditPolicy
  import opened CreditRecords
  import opened CreditLifecycle
  import opened CreditAccounting
  import opened CreditInvariant
  import opened LedgerOrder
  import opened TerminalCalls
  import opened CreditHistory
  import opened HoldTotals
  import opened FirstUse
  import opened PunctualRuns
  import opened WorkedRuns

  /** Five million million million microcredits: twice this exceeds the range. */
  const HUGE: int := 5_000_000_000_000_000_000

  const REQUEST: seq<Estimate> := [Estimate(GeminiInputToken, HUGE / 1000)]

  /** A bonus, a request for all of it, its release, and the same request again. */
  function Calls(scan: Scan): seq<Call> {
    [CallGrantBonus(HUGE, None, 0, Plain("bonus"), 0, 0, 0),
     CallReserve(Plain("first"), REQUEST, 0, 0, scan),
     CallRelease(0, [], CancelledBeforeDelivery, Plain("end"), 0, scan),
     CallReserve(Plain("second"), REQUEST, 0, 0, scan)]
  }

  ghost function After(n: nat, scan: Scan): State
    requires n <= 4
  {
    Run(SignedUp(NEWCOMER), Calls(scan)[..n])
  }

  lemma AfterNext(n: nat, scan: Scan)
    requires n < 4
    ensures After(0, scan) == SignedUp(NEWCOMER)
    ensures After(n + 1, scan) == Step(After(n, scan), Calls(scan)[n])
  {
    assert Calls(scan)[..n + 1][..n] == Calls(scan)[..n];
    assert Calls(scan)[..0] == [];
    hide Step;
  }

  lemma RequestPrice()
    ensures ValidEstimates(REQUEST) && Sort(REQUEST, EstimateLeq) == REQUEST
    ensures Quotes(REQUEST).Ok? && SumOf(Quotes(REQUEST).value, QuotedOf) == HUGE
  {
    var e := Estimate(GeminiInputToken, HUGE / 1000);
    assert REQUEST == [] + [e];
    assert Sort([e], EstimateLeq) == [e];
    var i := Item(e.meter, e.maximumUnits, HUGE);
    assert Quotes([e]) == Ok([] + [i]);
    SumOfAppend([], i, QuotedOf);
  }

  /** Up to date at the start of time, on the free plan, with the base grant and one bonus. */
  ghost predicate Bench(s: State) {
    && Inv(s) && UpToDate(s, 0) && AllCurrent(s, 0)
    && s.user == NEWCOMER && s.account == Some(Account(0, Free, None, 0, 0))
    && |s.book.grants| == 2 && s.book.grants[0].kind.Base? && s.book.grants[0].counters.granted <= PolicyOf(Free).allowance
  }

  const BONUS: Grant := Grant(Bonus, 0, 0, None, Counters(HUGE, 0, 0, 0))

  lemma BonusBook(b: Book)
    requires |b.grants| == 1 == |b.ledger|
    requires b.grants[0].counters == b.ledger[0].delta == Counters(1_000_000_000, 0, 0, 0)
    ensures Capacity(b.grants, HUGE)
    ensures var c := OpenGrant(b, BONUS, Command(Plain("bonus")), 0);
            SumOf(c.grants, AvailableOf) == HUGE + 1_000_000_000 && SumOf(c.ledger, Movement) == 0
  {
    hide SumOf;
    SumOfOne(b.grants, OutstandingOf);
    SumOfOne(b.grants, AvailableOf);
    SumOfOne(b.ledger, Movement);
    SumOfAppend(b.grants, BONUS, AvailableOf);
    SumOfAppend(b.ledger, Event(1, GrantEvent, Command(Plain("bonus")), 0, BONUS.counters), Movement);
  }

  /** Adding the bonus to a book with one untouched base grant. */
  lemma BonusOn(e: Current)
    requires |e.state.book.grants| == 1 == |e.state.book.ledger|
    requires e.state.book.grants[0].counters == e.state.book.ledger[0].delta == Counters(1_000_000_000, 0, 0, 0)
    ensures BonusAdded(e, HUGE, None, 0, Plain("bonus"), 0, 0).Ok?
    ensures var t := BonusAdded(e, HUGE, None, 0, Plain("bonus"), 0, 0).value.0;
            && t == e.state.(book := t.book, operations := t.operations)
            && t.book.grants == e.state.book.grants + [BONUS]
            && Available(t) == HUGE + 1_000_000_000
            && SumOf(t.book.ledger, Movement) == 0
  {
    hide Capacity, SumOf;
    BonusBook(e.state.book);
  }

  lemma BonusGiven(scan: Scan)
    ensures var s := After(1, scan);
            && Bench(s) && s.reservations == [] && Available(s) == HUGE + PolicyOf(Free).allowance
            && SumOf(s.book.ledger, Movement) == 0
  {
    hide Inv, EnsureCycle, Step, SumOf, BonusAdded;
    var s, c := SignedUp(NEWCOMER), Calls(scan)[0];
    AfterNext(0, scan);
    SignedUpInv(NEWCOMER);
    StepKeeps(s, c);
    FirstCycle(NEWCOMER, 0, 0);
    var e := EnsureCycle(s, 0, 0).value;
    BroughtUpToDate();
    BonusOn(e);
    BonusStep(scan, e);
  }

  lemma BroughtUpToDate()
    ensures EnsureCycle(SignedUp(NEWCOMER), 0, 0).Ok? && UpToDate(EnsureCycle(SignedUp(NEWCOMER), 0, 0).value.state, 0)
  {
    hide EnsureCycle, Core, Started;
    SignedUpInv(NEWCOMER);
    FirstCycle(NEWCOMER, 0, 0);
    EnsureBringsUpToDate(SignedUp(NEWCOMER), 0, 0);
  }

  lemma BonusStep(scan: Scan, e: Current)
    requires EnsureCycle(SignedUp(NEWCOMER), 0, 0) == Ok(e) && BonusAdded(e, HUGE, None, 0, Plain("bonus"), 0, 0).Ok?
    ensures Step(SignedUp(NEWCOMER), Calls(scan)[0]) == BonusAdded(e, HUGE, None, 0, Plain("bonus"), 0, 0).value.0
  {
    hide EnsureCycle, BonusAdded;
  }

  // ---------------------------------------------------------------- what the bonus holds

  /** Whoever holds all of the bonus holds most of it on the bonus grant; whoever holds nothing has nothing reserved. */
  lemma BenchHeld(s: State, g: nat)
    requires Bench(s) && g < 2
    ensures var held := SumOf(s.book.ledger, ReservedBy(g));
            && 0 <= held <= MAX_BIGINT
            && (HeldTotal(s.reservations) == HUGE && g == 1 ==> HUGE - 1_000_000_000 <= held)
            && (HeldTotal(s.reservations) == 0 ==> held == 0)
  {
    hide SumOf;
    CoreTables(s);
    ReservedTotal(s, g);
    TotalsAsSums(s.book.ledger, g);
    HeldAgrees(s);
    assert GrantOk(s, s.book.grants[0]) && GrantOk(s, s.book.grants[1]);
    TwoGrants(s.book.grants);
  }

  lemma TwoGrants(grants: seq<Grant>)
    requires |grants| == 2
    ensures SumOf(grants, ReservedOf) == grants[0].counters.reserved + grants[1].counters.reserved
  {
    assert grants == [] + [grants[0]] + [grants[1]];
    SumOfAppend([], grants[0], ReservedOf);
    SumOfAppend([] + [grants[0]], grants[1], ReservedOf);
  }

  // ---------------------------------------------------------------- the four steps

  lemma HoldStep(s: State, key: Key, scan: Scan)
    requires Bench(s) && Faithful(scan) && Timely(s.book.ledger, 2)
    requires HeldCount(s.reservations) == 0 == HeldTotal(s.reservations) && HUGE <= Available(s)
    requires FindReserved(s.reservations, key).None?
    ensures var t := Step(s, CallReserve(key, REQUEST, 0, 0, scan));
            && Bench(t) && Requested(s, t, key, HUGE, 0) && HeldTotal(t.reservations) == HUGE
            && Grows(s.book.ledger, t.book.ledger, 0, Up)
  {
    hide Core, Started, Reserve, LedgerCheck, Sort, Quotes, ValidEstimates, UpToDate, AllCurrent, Timely, Grows, SumOf;
    RequestPrice();
    CoreTables(s);
    LedgerCheckPasses(s, scan);
    ReserveNow(s, key, REQUEST, 0, 0, scan);
    StepGrows(s, CallReserve(key, REQUEST, 0, 0, scan));
    var t := Step(s, CallReserve(key, REQUEST, 0, 0, scan));
    var r := t.reservations[|s.reservations|];
    assert t.reservations == s.reservations + [r];
    SumOfAppend(s.reservations, r, HeldAmount);
    BenchKept(s, t);
  }

  lemma BenchKept(s: State, t: State)
    requires Bench(s) && Inv(t) && UpToDate(t, 0) && AllCurrent(t, 0) && SameTerms(s.book, t.book)
    requires t == s.(reservations := t.reservations, book := t.book)
    ensures Bench(t)
  {
    assert GrantOk(t, t.book.grants[0]);
    var c := t.cycles[t.book.grants[0].kind.cycle];
    assert GrantOk(s, s.book.grants[0]);
  }

  lemma FreeStep(s: State, scan: Scan)
    requires Bench(s) && Faithful(scan) && Timely(s.book.ledger, 2)
    requires |s.reservations| == 1 && s.reservations[0].Held() && s.reservations[0].total == HUGE
    ensures var t := Step(s, CallRelease(0, [], CancelledBeforeDelivery, Plain("end"), 0, scan));
            && Bench(t) && Returned(s, t, 0, Plain("end"), 0) && HeldTotal(t.reservations) == 0
            && Grows(s.book.ledger, t.book.ledger, 0, Down)
  {
    hide Core, Started, Release, LedgerCheck, UpToDate, AllCurrent, Timely, Grows, SumOf;
    NoneClosed(s.reservations, Plain("end"));
    CoreTables(s);
    LedgerCheckPasses(s, scan);
    ReleaseNow(s, 0, CancelledBeforeDelivery, Plain("end"), 0, scan);
    StepGrows(s, CallRelease(0, [], CancelledBeforeDelivery, Plain("end"), 0, scan));
    var t := Step(s, CallRelease(0, [], CancelledBeforeDelivery, Plain("end"), 0, scan));
    BenchKept(s, t);
    OneRow(t.reservations);
  }

  lemma NoneClosed(rs: seq<Reservation>, key: Key)
    requires forall r | r in rs :: r.Held()
    ensures FindTerminal(rs, key).None?
  {
    var found := FindTerminal(rs, key);
    if found.Some? {
      assert rs[found.value] in rs;
    }
  }

  lemma OneRow(rs: seq<Reservation>)
    requires |rs| == 1
    ensures HeldTotal(rs) == HeldAmount(rs[0]) && HeldCount(rs) == HeldOne(rs[0])
  {
    assert rs == [] + [rs[0]];
    SumOfAppend([], rs[0], HeldAmount);
    SumOfAppend([], rs[0], HeldOne);
  }

  // ---------------------------------------------------------------- the run

  /** While one hold has been made and returned, every bound holds. */
  lemma ReturnedTimely(s: State, t: State, u: State)
    requires Bench(s) && Bench(t) && Bench(u) && SumOf(s.book.ledger, Movement) == 0
    requires Grows(s.book.ledger, t.book.ledger, 0, Up) && Grows(t.book.ledger, u.book.ledger, 0, Down)
    requires HeldTotal(s.reservations) == 0 == HeldTotal(u.reservations)
    ensures Timely(u.book.ledger, 2)
  {
    hide Bench, Grows, SumOf, High, Low, HeldTotal;
    forall g: nat, x: int | g < 2
      ensures High(u.book.ledger, g, x) <= MAX_BIGINT && -MAX_BIGINT <= Low(u.book.ledger, g, x)
    {
      BenchHeld(s, g);
      BenchHeld(t, g);
      BenchHeld(u, g);
      MovementBounds(s.book.ledger, g, x);
      TurnBounds(s.book.ledger, t.book.ledger, 0, Up, g, x);
      TurnBounds(t.book.ledger, u.book.ledger, 0, Down, g, x);
    }
  }

  /** The second hold takes the upper bound of the bonus grant past the range. */
  lemma TwiceTooMuch(s: State, t: State, u: State, v: State)
    requires FourStates(s, t, u, v)
    ensures MAX_BIGINT < High(v.book.ledger, 1, 0)
  {
    hide Bench, Grows, SumOf, High, Low, HeldTotal;
    BenchHeld(s, 1);
    BenchHeld(t, 1);
    BenchHeld(u, 1);
    BenchHeld(v, 1);
    MovementBounds(s.book.ledger, 1, 0);
    TurnBounds(s.book.ledger, t.book.ledger, 0, Up, 1, 0);
    TurnBounds(t.book.ledger, u.book.ledger, 0, Down, 1, 0);
    TurnBounds(u.book.ledger, v.book.ledger, 0, Up, 1, 0);
  }

  lemma NothingYet(rs: seq<Reservation>, key: Key)
    requires rs == []
    ensures FindReserved(rs, key).None? && HeldCount(rs) == 0 == HeldTotal(rs)
  {
  }

  lemma OtherKey(rs: seq<Reservation>, key: Key)
    requires |rs| == 1 && rs[0].key != key
    ensures FindReserved(rs, key).None?
  {
  }

  lemma OtherEnd(rs: seq<Reservation>)
    requires |rs| == 2 && rs[1].Held() && rs[0].terminal.Some? && rs[0].terminal.value.key == Plain("end")
    ensures FindTerminal(rs, Plain("again")).None?
  {
    var found := FindTerminal(rs, Plain("again"));
  }

  /** A hold, its return and a second hold on a bench that never held anything. */
  ghost predicate FourStates(s: State, t: State, u: State, v: State) {
    && Bench(s) && Bench(t) && Bench(u) && Bench(v) && SumOf(s.book.ledger, Movement) == 0
    && Grows(s.book.ledger, t.book.ledger, 0, Up)
    && Grows(t.book.ledger, u.book.ledger, 0, Down)
    && Grows(u.book.ledger, v.book.ledger, 0, Up)
    && HeldTotal(s.reservations) == 0 == HeldTotal(u.reservations)
    && HeldTotal(t.reservations) == HUGE == HeldTotal(v.reservations)
    && |v.reservations| == 2 && v.reservations[1].Held()
    && FindTerminal(v.reservations, Plain("again")).None?
  }

  /** The four states after the calls. */
  lemma FourSteps(scan: Scan)
    requires Faithful(scan)
    ensures FourStates(After(1, scan), After(2, scan), After(3, scan), After(4, scan))
  {
    hide Grows, SumOf, Step, Timely, Core, Started, AuditsOk, After, AllCurrent, UpToDate, Faithful;
    AfterNext(1, scan);
    AfterNext(2, scan);
    AfterNext(3, scan);
    BonusGiven(scan);
    var s1, s2, s3, s4 := After(1, scan), After(2, scan), After(3, scan), After(4, scan);
    NothingYet(s1.reservations, Plain("first"));
    assert PolicyOf(Free).allowance == 1_000_000_000;
    MovementIsTimely(s1.book.ledger, 2);
    HoldStep(s1, Plain("first"), scan);
    CoreTables(s1);
    CoreTables(s2);
    FirstMoveTimely(s1, s2, 0, Up);
    assert s2.reservations[..0] == [];
    FreeStep(s2, scan);
    ReturnedTimely(s1, s2, s3);
    OneRow(s3.reservations);
    assert FindReserved(s3.reservations, Plain("second")).None? by { OtherKey(s3.reservations, Plain("second")); }
    HoldStep(s3, Plain("second"), scan);
    assert s4.reservations[0] == s4.reservations[..1][0];
    OtherEnd(s4.reservations);
  }

  /** No call of the run goes back behind a recorded event: everything happens at once. */
  lemma AllAtOnce(scan: Scan)
    ensures (forall c | c in Calls(scan) :: Allowed(c)) && OnwardRun(SignedUp(NEWCOMER), Calls(scan))
  {
    AllAtOnceUpTo(scan, 4);
    assert Calls(scan)[..4] == Calls(scan);
  }

  lemma {:induction false} AllAtOnceUpTo(scan: Scan, n: nat)
    requires n <= 4
    ensures OnwardRun(SignedUp(NEWCOMER), Calls(scan)[..n])
    ensures Inv(After(n, scan)) && forall e | e in After(n, scan).book.ledger :: e.createdAt == 0
  {
    hide Inv, Step, Grows;
    AfterNext(0, scan);
    SignedUpInv(NEWCOMER);
    if n > 0 {
      AllAtOnceUpTo(scan, n - 1);
      AfterNext(n - 1, scan);
      var s, c := After(n - 1, scan), Calls(scan)[n - 1];
      StepKeeps(s, c);
      StepGrows(s, c);
      GrownAtOnce(s.book.ledger, After(n, scan).book.ledger, WayOf(c));
      assert Calls(scan)[..n][..n - 1] == Calls(scan)[..n - 1];
    }
  }

  lemma GrownAtOnce(l: seq<Event>, m: seq<Event>, way: Way)
    requires Grows(l, m, 0, way) && forall e | e in l :: e.createdAt == 0
    ensures forall e | e in m :: e.createdAt == 0
  {
    forall e | e in m
      ensures e.createdAt == 0
    {
      var i :| 0 <= i < |m| && m[i] == e;
      if i < |l| {
        assert l[i] == m[i] && l[i] in l;
      }
    }
  }

  /**
   * A run from sign-up after which a held reservation cannot be released when
   * the ledger's ties come out one way, and can when they come out another way.
   */
  lemma TiesDecide(scan: Scan)
    requires Faithful(scan)
    ensures var s := Run(SignedUp(NEWCOMER), Calls(scan));
            && Reachable(s) && |s.reservations| == 2 && s.reservations[1].Held() && AsOf(s) == 0
            && Faithful(Unlucky(1, true)) && Faithful(Patient())
            && Release(s, 1, [], CancelledBeforeDelivery, Plain("again"), 0, Unlucky(1, true)) == Err(AmountOverflow)
            && Release(s, 1, [], CancelledBeforeDelivery, Plain("again"), 0, Patient()).Ok?
  {
    hide Grows, SumOf, Step, Core, Started, AllCurrent, Faithful, LedgerCheck, Run, Allowed, High;
    var s := Run(SignedUp(NEWCOMER), Calls(scan));
    assert After(4, scan) == s by { assert Calls(scan)[..4] == Calls(scan); }
    FourSteps(scan);
    AllAtOnce(scan);
    TwiceTooMuch(After(1, scan), After(2, scan), After(3, scan), s);
    UnluckyRefused(s, 1, 0, true);
    CoreTables(s);
    RefusalIsOverflow(s, Unlucky(1, true));
    PatientPasses(NEWCOMER, Calls(scan));
    hide FindTerminal, Release, Unlucky, Patient;
    HeldRelease(s, 1, CancelledBeforeDelivery, Plain("again"), 0, Unlucky(1, true));
    HeldRelease(s, 1, CancelledBeforeDelivery, Plain("again"), 0, Patient());
  }
}
