/** A run after which a prompt's credit stays held for good: the provider reports one token more than was reserved. */
module OverrunRun {
  import opened Prelude
  import opened Sorting
  import opened CreditPolicy
  import opened CreditRecords
  import opened CreditAccounting
  import opened CreditInvariant
  import opened CreditHistory
  import opened FirstUse
  import opened PromptProtocol
  import opened Admissions
  import opened PromptBilling

  /** One user who has just signed up. */
  const START: System := System(map[0 := SignedUp(NEWCOMER)], map[], map[], [])

  const REPORTED: Answer := Usable(2, 1, ProviderReported)

  /** A request for one token in and one out; the provider reports two in; delivery and compensation are tried. */
  function Actions(scan: Scan): seq<Action> {
    [Arrive(0, 0, 0, 0),
     AdmitTask(0, 1, 1, 0, 0, scan, Acknowledged),
     CallProvider(0, REPORTED),
     Deliver(0, 0, scan, Acknowledged),
     Compensate(0, 0, scan, Acknowledged)]
  }

  ghost function After(n: nat, scan: Scan): System
    requires n <= 5
  {
    Execute(START, Actions(scan)[..n])
  }

  ghost function Said(n: nat, scan: Scan): Answers
    requires n <= 5
  {
    Heard(START, Actions(scan)[..n])
  }

  lemma AfterNext(n: nat, scan: Scan)
    requires n < 5
    ensures After(0, scan) == START && Said(0, scan) == map[]
    ensures After(n + 1, scan) == Next(After(n, scan), Actions(scan)[n])
    ensures Said(n + 1, scan) == HeardNext(After(n, scan), Said(n, scan), Actions(scan)[n])
  {
    assert Actions(scan)[..n + 1][..n] == Actions(scan)[..n];
    assert Actions(scan)[..0] == [];
    hide Next, HeardNext;
  }

  lemma StartsOut()
    ensures Beginning(START)
  {
    assert Run(SignedUp(NEWCOMER), []) == SignedUp(NEWCOMER);
    assert Reachable(SignedUp(NEWCOMER));
  }

  lemma ReachedAt(n: nat, scan: Scan)
    requires n <= 5
    ensures ReachableSystem(After(n, scan))
  {
    hide Beginning, Execute;
    StartsOut();
  }

  /** The task of the run at point `pc`, with nothing stored, and the user's reservations. */
  ghost predicate AtPoint(y: System, pc: Pc, calls: seq<(nat, nat)>, rs: seq<Reservation>) {
    && y.tasks == map[0 := Task(0, 0, 0, pc)] && y.rows == map[] && y.calls == calls
    && y.banks.Keys == {0} && y.banks[0].reservations == rs
  }

  /** One reservation, for one token in and one out. */
  predicate OneToken(rs: seq<Reservation>) {
    && |rs| == 1 && rs[0].key == PromptReserve(0)
    && |rs[0].items| == 2
    && rs[0].items[0].meter == GeminiInputToken && rs[0].items[0].maximumUnits == 1
    && rs[0].items[1].meter == GeminiOutputToken && rs[0].items[1].maximumUnits == 1
  }

  lemma Arrived(scan: Scan)
    ensures AtPoint(After(1, scan), Fresh, [], []) && Said(1, scan) == map[]
    ensures After(1, scan).banks[0] == SignedUp(NEWCOMER)
  {
    AfterNext(0, scan);
    hide Step;
  }

  lemma TokenEstimates(a: Action)
    requires a.AdmitTask? && a.maximumIn == 1 && a.maximumOut == 1
    ensures ValidEstimates(Estimates(a)) && Sort(Estimates(a), EstimateLeq) == Estimates(a)
    ensures Quotes(Estimates(a)).Ok? && SumOf(Quotes(Estimates(a)).value, QuotedOf) == 5000
  {
    SortedMaxima(a);
    MaximaPrice(a);
    QuotesWhen(Estimates(a));
  }

  lemma FirstIsAdmitted(a: Action)
    requires a.AdmitTask? && a.maximumIn == 1 && a.maximumOut == 1 && a.now == 0 && Faithful(a.scan)
    ensures var r := Reserve(SignedUp(NEWCOMER), PromptReserve(0), Estimates(a), 0, a.tag, a.scan);
            r.Ok? && !r.value.1.replayed && r.value.1.reservation == 0
  {
    hide Reserve, Sort, Quotes, SumOf, ValidEstimates, Faithful, Core;
    TokenEstimates(a);
    BoundsThere();
    SignedUpInv(NEWCOMER);
    FirstReserve(NEWCOMER, PromptReserve(0), Estimates(a), 0, a.tag, a.scan);
    ReserveMoves(SignedUp(NEWCOMER), PromptReserve(0), Estimates(a), 0, a.tag, a.scan);
  }

  lemma BoundsThere()
    ensures BoundsAt(NEWCOMER.signedUpAt, 0).Ok? && NEWCOMER.signedUpAt <= 0 && NEWCOMER.status.Active?
    ensures forall e | e in [Estimate(GeminiInputToken, 1), Estimate(GeminiOutputToken, 1)] :: e.meter !in PolicyOf(FirstPlan(NEWCOMER)).refused
    ensures 5000 <= PolicyOf(FirstPlan(NEWCOMER)).allowance
  {
  }

  lemma Admitted(scan: Scan)
    requires Faithful(scan)
    ensures exists rs :: OneToken(rs) && AtPoint(After(2, scan), Reserved(0), [], rs)
    ensures Said(2, scan) == map[]
  {
    hide Faithful, Step, Reserve, Execute, ReachableSystem;
    Arrived(scan);
    AfterNext(1, scan);
    ReachedAt(1, scan);
    var y, a := After(1, scan), Actions(scan)[1];
    FirstIsAdmitted(a);
    AdmitHolds(y, a);
    assert OneToken(After(2, scan).banks[0].reservations) && AtPoint(After(2, scan), Reserved(0), [], After(2, scan).banks[0].reservations);
  }

  lemma Called(scan: Scan)
    requires Faithful(scan)
    ensures exists rs :: OneToken(rs) && AtPoint(After(3, scan), Delivering(0, Lines(REPORTED)), [(0, 0)], rs)
    ensures Said(3, scan) == map[(0, 0) := REPORTED]
  {
    hide Faithful, Step, OneToken;
    Admitted(scan);
    AfterNext(2, scan);
    var rs :| OneToken(rs) && AtPoint(After(2, scan), Reserved(0), [], rs);
    assert AtPoint(After(3, scan), Delivering(0, Lines(REPORTED)), [(0, 0)], rs);
  }

  lemma TooMany(rs: seq<Reservation>)
    requires OneToken(rs)
    ensures !Covers(rs[0].items, REPORTED)
  {
  }

  lemma NotDelivered(scan: Scan)
    requires Faithful(scan)
    ensures exists rs :: OneToken(rs) && AtPoint(After(4, scan), Compensating(0, Lines(REPORTED), DeliveryFailed), [(0, 0)], rs)
    ensures Said(4, scan) == map[(0, 0) := REPORTED]
  {
    hide Faithful, Step, Settle, OneToken, Beginning, Execute, Covers, LedgerCheck;
    Called(scan);
    AfterNext(3, scan);
    StartsOut();
    var rs :| OneToken(rs) && AtPoint(After(3, scan), Delivering(0, Lines(REPORTED)), [(0, 0)], rs);
    TooMany(rs);
    StoredWhen(START, Actions(scan)[..3], Actions(scan)[3]);
    assert AtPoint(After(4, scan), Compensating(0, Lines(REPORTED), DeliveryFailed), [(0, 0)], rs);
  }

  lemma SameToken(rs: seq<Reservation>, ts: seq<Reservation>, c: Call)
    requires OneToken(rs) && Moves(rs, ts, c) && c.CallRelease?
    ensures OneToken(ts)
  {
  }

  lemma GivenUp(scan: Scan)
    requires Faithful(scan)
    ensures exists rs :: OneToken(rs) && AtPoint(After(5, scan), Done(Refused), [(0, 0)], rs)
    ensures Said(5, scan) == map[(0, 0) := REPORTED]
  {
    hide Faithful, Step, Release, OneToken, Beginning, Execute, Inv, Heard, SystemOk, Billed;
    NotDelivered(scan);
    AfterNext(4, scan);
    StartsOut();
    var rs :| OneToken(rs) && AtPoint(After(4, scan), Compensating(0, Lines(REPORTED), DeliveryFailed), [(0, 0)], rs);
    var y, a := After(4, scan), Actions(scan)[4];
    RunBilled(START, Actions(scan)[..4]);
    BankInv(y, 0);
    TerminalAllowed(Releasing(y, a));
    StepMoves(y.banks[0], Releasing(y, a));
    var ts := Step(y.banks[0], Releasing(y, a)).reservations;
    SameToken(rs, ts, Releasing(y, a));
    assert AtPoint(After(5, scan), Done(Refused), [(0, 0)], ts);
  }

  /** Both attempts are over, the task is done, and the reservation is held: now and after whatever happens next. */
  lemma OverrunHappens(scan: Scan, more: seq<Action>)
    requires Faithful(scan)
    ensures var y := Execute(START, Actions(scan));
            && ReachableSystem(y) && y.tasks == map[0 := Task(0, 0, 0, Done(Refused))] && y.rows == map[] && y.calls == [(0, 0)]
            && 0 in y.banks && OneToken(y.banks[0].reservations)
    ensures var z := Execute(START, Actions(scan) + more);
            0 in z.banks && 0 < |z.banks[0].reservations| && z.banks[0].reservations[0].key == PromptReserve(0) && z.banks[0].reservations[0].Held()
  {
    hide Faithful, OneToken, Beginning, Execute, Covers, ReachableSystem, Heard, Actions;
    StartsOut();
    ReachedAt(5, scan);
    AllFive(scan);
    GivenUp(scan);
    var rs :| OneToken(rs) && AtPoint(After(5, scan), Done(Refused), [(0, 0)], rs);
    HasOne(rs);
    TooMany(rs);
    OverrunStays(START, Actions(scan), more, 0, 0, 0);
  }

  lemma AllFive(scan: Scan)
    ensures Actions(scan)[..5] == Actions(scan) && |Actions(scan)| == 5
  {
  }

  lemma HasOne(rs: seq<Reservation>)
    requires OneToken(rs)
    ensures |rs| == 1 && rs[0].key == PromptReserve(0)
  {
  }
}
