/** A run after which the personal view is refused: a downgrade takes effect while two requests are running. */
module HiddenView {
  import opened Prelude
  import opened Sorting
  import opened CreditPolicy
  import opened CreditRecords
  import opened CreditLifecycle
  import opened CreditAccounting
  import opened CreditInvariant
  import opened LedgerOrder
  import opened LifecycleInvariant
  import opened CreditHistory
  import opened FirstUse
  import opened GreedyAllocation
  import opened PunctualRuns
  import opened WorkedRuns
  import opened UsageViews

  const TOKEN: seq<Estimate> := [Estimate(GeminiInputToken, 1)]

  /** An upgrade, two requests of one token, and a downgrade for the next cycle. */
  function Calls(scan: Scan): seq<Call> {
    [CallChangePlan(Pro, Plain("up"), 0, 0),
     CallReserve(Plain("first"), TOKEN, 0, 0, scan),
     CallReserve(Plain("second"), TOKEN, 0, 0, scan),
     CallChangePlan(Free, Plain("down"), 0, 0)]
  }

  ghost function After(n: nat, scan: Scan): State
    requires n <= 4
  {
    Run(SignedUp(NEWCOMER), Calls(scan)[..n])
  }

  lemma AfterNext(n: nat, scan: Scan)
    requires n < 4
    ensures After(0, scan) == SignedUp(NEWCOMER)
    ensures After(n + 1, scan) == Step(After(n, scan), Calls(scan)[n])
  {
    assert Calls(scan)[..n + 1][..n] == Calls(scan)[..n];
    assert Calls(scan)[..0] == [];
    hide Step;
  }

  lemma TokenPrice()
    ensures ValidEstimates(TOKEN) && Sort(TOKEN, EstimateLeq) == TOKEN
    ensures Quotes(TOKEN).Ok? && SumOf(Quotes(TOKEN).value, QuotedOf) == 1000
  {
    var e := Estimate(GeminiInputToken, 1);
    assert TOKEN == [] + [e];
    assert Sort([e], EstimateLeq) == [e];
    var i := Item(e.meter, e.maximumUnits, 1000);
    assert Quotes([e]) == Ok([] + [i]);
    SumOfAppend([], i, QuotedOf);
  }

  /** On the middle plan with nothing pending and ample credit. */
  ghost predicate OnPro(s: State, requests: nat) {
    && Inv(s) && UpToDate(s, 0) && AllCurrent(s, 0)
    && s.user == NEWCOMER && s.account == Some(Account(0, Pro, None, 0, 0))
    && |s.reservations| == requests == HeldCount(s.reservations)
    && Available(s) == 10_000_000_000 - 1000 * requests
    && HeldTotal(s.reservations) == 1000 * requests
    && Plain("down") !in s.operations
  }

  /** Raising the one base grant of a fresh account to the middle plan's allowance. */
  lemma RaisedBook(b: Book)
    requires |b.grants| == 1 == |b.ledger|
    requires b.grants[0].counters == b.ledger[0].delta == Counters(1_000_000_000, 0, 0, 0)
    ensures Capacity(b.grants, 9_000_000_000)
    ensures var c := Post(b, Event(0, AdjustEvent, Command(Plain("up")), 0, Counters(9_000_000_000, 0, 0, 0)));
            SumOf(c.grants, AvailableOf) == 10_000_000_000 && SumOf(c.ledger, Movement) == 0
  {
    hide SumOf;
    var c := Post(b, Event(0, AdjustEvent, Command(Plain("up")), 0, Counters(9_000_000_000, 0, 0, 0)));
    SumOfOne(b.grants, OutstandingOf);
    SumOfOne(c.grants, AvailableOf);
    SumOfOne(b.ledger, Movement);
    SumOfAppend(b.ledger, Event(0, AdjustEvent, Command(Plain("up")), 0, Counters(9_000_000_000, 0, 0, 0)), Movement);
  }

  lemma UpgradeOn(e: Current)
    requires Ready(e) && e.base == 0 && e.state.account.value == Account(0, Free, None, 0, 0)
    requires e.state.cycles[e.cycle].allowance == 1_000_000_000
    requires |e.state.book.grants| == 1 == |e.state.book.ledger|
    requires e.state.book.grants[0].counters == e.state.book.ledger[0].delta == Counters(1_000_000_000, 0, 0, 0)
    ensures PlanChanged(e, Pro, Plain("up"), 0).Ok?
    ensures var t := PlanChanged(e, Pro, Plain("up"), 0).value.0;
            && t.account == Some(Account(0, Pro, None, 0, 0)) && t.user == e.state.user && t.reservations == e.state.reservations
            && t.operations.Keys == e.state.operations.Keys + {Plain("up")}
            && |t.cycles| == |e.state.cycles|
            && (forall c | 0 <= c < |t.cycles| :: t.cycles[c].startsAt == e.state.cycles[c].startsAt && t.cycles[c].endsAt == e.state.cycles[c].endsAt)
            && |t.book.grants| == 1 && t.book.grants[0].expiresAt == e.state.book.grants[0].expiresAt
            && Available(t) == 10_000_000_000 && SumOf(t.book.ledger, Movement) == 0
  {
    hide Capacity, SumOf;
    RaisedBook(e.state.book);
  }

  lemma Upgraded(scan: Scan)
    ensures OnPro(After(1, scan), 0) && SumOf(After(1, scan).book.ledger, Movement) == 0
  {
    hide Core, Started, AuditsOk, EnsureCycle, Step, SumOf, PlanChanged;
    var s, c := SignedUp(NEWCOMER), Calls(scan)[0];
    AfterNext(0, scan);
    SignedUpInv(NEWCOMER);
    StepKeeps(s, c);
    FirstCycle(NEWCOMER, 0, 0);
    EnsureKeeps(s, 0, 0);
    EnsureBringsUpToDate(s, 0, 0);
    var e := EnsureCycle(s, 0, 0).value;
    NewestAllowance(e);
    UpgradeOn(e);
    UpgradeStep(scan, e);
    NothingHeld();
  }

  lemma NewestAllowance(e: Current)
    requires Core(e.state) && Started(e.state) && e.state.account.Some? && e.cycle == |e.state.cycles| - 1
    ensures e.cycle < |e.state.cycles|
    ensures e.state.cycles[e.cycle].allowance == PolicyOf(e.state.account.value.plan).allowance
  {
    assert CycleOk(e.state, e.state.cycles[e.cycle]);
  }

  lemma NothingHeld()
    ensures HeldCount([]) == 0 == HeldTotal([])
  {
  }

  lemma UpgradeStep(scan: Scan, e: Current)
    requires EnsureCycle(SignedUp(NEWCOMER), 0, 0) == Ok(e) && PlanChanged(e, Pro, Plain("up"), 0).Ok?
    ensures Step(SignedUp(NEWCOMER), Calls(scan)[0]) == PlanChanged(e, Pro, Plain("up"), 0).value.0
  {
    hide EnsureCycle, PlanChanged;
  }

  lemma RequestStep(s: State, requests: nat, key: Key, scan: Scan)
    requires OnPro(s, requests) && requests < 2 && Faithful(scan) && Timely(s.book.ledger, |s.book.grants|)
    requires FindReserved(s.reservations, key).None?
    ensures var t := Step(s, CallReserve(key, TOKEN, 0, 0, scan));
            OnPro(t, requests + 1) && Requested(s, t, key, 1000, 0) && Grows(s.book.ledger, t.book.ledger, 0, Up)
  {
    hide Core, Started, Reserve, LedgerCheck, Sort, Quotes, ValidEstimates, UpToDate, AllCurrent, Timely, Grows, SumOf;
    TokenPrice();
    CoreTables(s);
    LedgerCheckPasses(s, scan);
    ReserveNow(s, key, TOKEN, 0, 0, scan);
    StepGrows(s, CallReserve(key, TOKEN, 0, 0, scan));
    var t := Step(s, CallReserve(key, TOKEN, 0, 0, scan));
    var r := t.reservations[|s.reservations|];
    assert t.reservations == s.reservations + [r];
    SumOfAppend(s.reservations, r, HeldAmount);
  }

  /** Asking for the lower plan now only notes it. */
  lemma DowngradeStep(s: State)
    requires OnPro(s, 2)
    ensures var t := Step(s, CallChangePlan(Free, Plain("down"), 0, 0));
            && Inv(t) && UpToDate(t, 0)
            && t.user == s.user && t.account == Some(Account(0, Pro, Some(Free), 0, 0))
            && t.cycles == s.cycles && t.reservations == s.reservations && t.book == s.book
  {
    hide Core, Started, EnsureCycle;
    EnsureIdle(s, 0, 0);
    StepKeeps(s, CallChangePlan(Free, Plain("down"), 0, 0));
  }

  /** What the four calls leave behind: two requests held on the middle plan, the lower one pending. */
  lemma Waiting(scan: Scan)
    requires Faithful(scan)
    ensures var s := After(4, scan);
            && Inv(s) && UpToDate(s, 0) && s.user == NEWCOMER
            && s.account == Some(Account(0, Pro, Some(Free), 0, 0))
            && HeldCount(s.reservations) == 2 && SumOf(s.book.grants, OutstandingOf) == 10_000_000_000
  {
    hide OnPro, Grows, SumOf, Step, Timely, After, AllCurrent, UpToDate, Faithful, Inv;
    AfterNext(1, scan);
    AfterNext(2, scan);
    AfterNext(3, scan);
    Upgraded(scan);
    var s1, s2, s3, s4 := After(1, scan), After(2, scan), After(3, scan), After(4, scan);
    MovementIsTimely(s1.book.ledger, |s1.book.grants|);
    NoneYet(s1);
    RequestStep(s1, 0, Plain("first"), scan);
    OnProTables(s1, 0);
    OnProTables(s2, 1);
    FirstMoveTimely(s1, s2, 0, Up);
    OtherKey(s1, s2);
    RequestStep(s2, 1, Plain("second"), scan);
    DowngradeStep(s3);
    OnProTables(s3, 2);
  }

  lemma NoneYet(s: State)
    requires OnPro(s, 0)
    ensures FindReserved(s.reservations, Plain("first")).None?
  {
  }

  lemma OtherKey(s: State, t: State)
    requires OnPro(s, 0) && Requested(s, t, Plain("first"), 1000, 0)
    ensures FindReserved(t.reservations, Plain("second")).None?
  {
    assert |t.reservations| == 1;
  }

  lemma OnProTables(s: State, requests: nat)
    requires OnPro(s, requests)
    ensures GrantsOk(s) && LedgerOk(s) && s.user == NEWCOMER
    ensures SumOf(s.book.grants, OutstandingOf) == 10_000_000_000 && HeldCount(s.reservations) == requests
  {
    hide SumOf;
    CoreTables(s);
    HeldSplits(s);
  }

  lemma NextCycleOpens(s: State)
    requires Core(s) && Started(s) && UpToDate(s, 0) && s.user == NEWCOMER && s.account == Some(Account(0, Pro, Some(Free), 0, 0))
    requires SumOf(s.book.grants, OutstandingOf) == 10_000_000_000
    ensures EnsureCycle(s, CYCLE, 0).Ok? && NeedsCycle(s, BoundsAt(0, CYCLE).value)
  {
    hide Core, Started, EnsureCycle, SumOf, Coherent, PostAll, ExpireEvents;
    BoundsConstantOnCycle(0, 1, CYCLE);
    BoundsConstantOnCycle(0, 0, 0);
    CurrentIndex(s, 0);
    InvCoherent(s);
    CoreTables(s);
    CoreNoneOverspent(s);
    ExpiryLowersOutstanding(s.book.grants, CYCLE);
    PostAllOutstanding(s.book, ExpireEvents(s.book.grants, CYCLE, |s.book.grants|));
    EnsureTotal(s, CYCLE, 0);
  }

  /** A user who upgrades, starts two requests and asks for the lower plan cannot read the usage view when the next cycle begins. */
  lemma DowngradeHides(scan: Scan)
    requires Faithful(scan)
    ensures var s := Run(SignedUp(NEWCOMER), Calls(scan));
            && Reachable(s) && HeldCount(s.reservations) == 2
            && EnsureCycle(s, CYCLE, 0).Ok?
            && ReadPersonalUsage(s, CYCLE, 0) == Err(Unavailable)
  {
    hide Core, Started, EnsureCycle, Run, ReadPersonalUsage, SumOf, BoundsAt, Faithful;
    var s := Run(SignedUp(NEWCOMER), Calls(scan));
    assert s == After(4, scan) by { assert Calls(scan)[..4] == Calls(scan); }
    assert forall c | c in Calls(scan) :: Allowed(c);
    Waiting(scan);
    NextCycleOpens(s);
    DowngradeHidesView(s, CYCLE, 0);
  }
}
