/** From sign-up to the first finished request: the guards are passable, not only safe. */
module FirstUse {
  import opened Prelude
  import opened Sorting
  import opened CreditPolicy
  import opened CreditRecords
  import opened CreditLifecycle
  import opened CreditAccounting
  import opened CreditInvariant
  import opened LedgerOrder
  import opened LifecycleInvariant
  import opened AccountingInvariant
  import opened CreditHistory
  import opened GreedyAllocation

  /** An ordinary user who signs up when time starts. */
  const NEWCOMER: User := User(0, Member, Active)

  /** The plan a new account starts on. */
  function FirstPlan(user: User): Plan {
    if user.role.Master? then Max else Free
  }

  /** What the first call leaves behind: one cycle, its base grant and the event that explains it. */
  lemma FirstCycle(user: User, now: int, tag: nat)
    requires user.signedUpAt <= now && BoundsAt(user.signedUpAt, now).Ok?
    ensures var r := EnsureCycle(SignedUp(user), now, tag);
            && r.Ok?
            && var t := r.value.state;
            && t.account == Some(Account(user.signedUpAt, FirstPlan(user), None, now, now))
            && t.user == user && t.reservations == []
            && |t.book.grants| == 1 && t.book.grants[0].kind == Base(0)
            && t.book.grants[0].expiresAt == Some(BoundsAt(user.signedUpAt, now).value.endsAt)
            && t.book.grants[0].counters == Counters(PolicyOf(FirstPlan(user)).allowance, 0, 0, 0)
            && |t.book.ledger| == 1 && t.book.ledger[0].delta == t.book.grants[0].counters
  {
    hide BoundsAt;
    var s := SignedUp(user);
    var b := BoundsAt(user.signedUpAt, now).value;
    assert Opened(s, now).book == Book([], []);
    assert SumOf<Grant>([], OutstandingOf) == 0;
    var base := NewBase(0, FirstPlan(user), b, now, tag);
    SumOfAppend([], base, OutstandingOf);
    assert [] + [base] == [base];
  }

  /**
   * A new user's first request is admitted exactly when it is permitted on the
   * starting plan and its quote fits the plan's allowance.
   */
  lemma FirstReserve(user: User, key: Key, raw: seq<Estimate>, now: int, tag: nat, scan: Scan)
    requires user.status.Active? && ValidEstimates(raw) && Faithful(scan)
    requires user.signedUpAt <= now && BoundsAt(user.signedUpAt, now).Ok?
    ensures var es := Sort(raw, EstimateLeq);
            Reserve(SignedUp(user), key, raw, now, tag, scan).Ok? <==>
            && (forall e | e in raw :: e.meter !in PolicyOf(FirstPlan(user)).refused)
            && Quotes(es).Ok?
            && SumOf(Quotes(es).value, QuotedOf) <= PolicyOf(FirstPlan(user)).allowance
  {
    hide EnsureCycle, Core, Reserve, LedgerCheck, Sort, Quotes, SumOf, Admit, ValidEstimates, BoundsAt, SignedUp;
    var s := SignedUp(user);
    var es := Sort(raw, EstimateLeq);
    FirstCycle(user, now, tag);
    SignedUpInv(user);
    EnsureKeeps(s, now, tag);
    var t := EnsureCycle(s, now, tag).value.state;
    SortedEstimates(raw);
    SortPermutes(raw, EstimateLeq);
    FirstChecks(t, scan);
    FirstUnfolds(user, key, raw, now, tag, scan);
    if (forall e | e in es :: e.meter !in PolicyOf(FirstPlan(user)).refused) && Quotes(es).Ok? {
      FirstAdmit(t, key, es, now, scan);
    }
  }

  lemma FirstChecks(t: State, scan: Scan)
    requires Core(t) && Faithful(scan)
    requires |t.book.grants| == 1 && |t.book.ledger| == 1
    requires var c := t.book.grants[0].counters;
             t.book.ledger[0].delta == c && c == Counters(c.granted, 0, 0, 0) && 0 <= c.granted <= MAX_BIGINT
    ensures LedgerCheck(scan(t.book.ledger), t.book.grants).Pass?
    ensures SumOf(t.book.grants, AvailableOf) == t.book.grants[0].counters.granted
  {
    FirstLedger(t);
    LedgerCheckPasses(t, scan);
    assert t.book.grants == [] + [t.book.grants[0]];
    SumOfAppend([], t.book.grants[0], AvailableOf);
    hide Core, LedgerCheck;
  }

  lemma FirstLedger(t: State)
    requires |t.book.ledger| == 1 && t.book.ledger[0].delta.reserved == 0
    ensures Timely(t.book.ledger, |t.book.grants|)
  {
    assert t.book.ledger == [] + [t.book.ledger[0]];
    SumOfAppend([], t.book.ledger[0], Movement);
    MovementIsTimely(t.book.ledger, |t.book.grants|);
  }

  /** Past renewal, the first reserve is one admission; a refused meter or an unquotable line stops it. */
  lemma FirstUnfolds(user: User, key: Key, raw: seq<Estimate>, now: int, tag: nat, scan: Scan)
    requires user.status.Active? && ValidEstimates(raw) && user.signedUpAt <= now
    requires EnsureCycle(SignedUp(user), now, tag).Ok?
    ensures var es := Sort(raw, EstimateLeq);
            var t := EnsureCycle(SignedUp(user), now, tag).value.state;
            && Reserve(SignedUp(user), key, raw, now, tag, scan) == Admit(t, key, es, now, scan)
            && (Admit(t, key, es, now, scan).Ok? ==>
                  && (forall e | e in es :: e.meter !in PolicyOf(t.account.value.plan).refused)
                  && Quotes(es).Ok?)
  {
    hide EnsureCycle, ScanFault, Sort, Quotes, SumOf, Priority, Allocate, ValidEstimates, PostAll;
  }

  lemma FirstAdmit(t: State, key: Key, es: seq<Estimate>, now: int, scan: Scan)
    requires Core(t) && t.account.Some? && ValidEstimates(es) && t.reservations == []
    requires forall e | e in es :: e.meter !in PolicyOf(t.account.value.plan).refused
    requires LedgerCheck(scan(t.book.ledger), t.book.grants).Pass?
    requires Quotes(es).Ok? && SumOf(t.book.grants, AvailableOf) <= MAX_BIGINT
    ensures Admit(t, key, es, now, scan).Ok? <==> SumOf(Quotes(es).value, QuotedOf) <= SumOf(t.book.grants, AvailableOf)
  {
    assert HeldCount(t.reservations) == 0 < PolicyOf(t.account.value.plan).maxConcurrentRequests;
    if SumOf(Quotes(es).value, QuotedOf) <= MAX_BIGINT {
      AdmitTotal(t, key, es, now, scan);
    } else {
      TooDear(t, key, es, now, scan);
    }
  }

  lemma TooDear(t: State, key: Key, es: seq<Estimate>, now: int, scan: Scan)
    requires t.account.Some? && Quotes(es).Ok? && MAX_BIGINT < SumOf(Quotes(es).value, QuotedOf)
    ensures Admit(t, key, es, now, scan).Err?
  {
    hide Quotes, SumOf, Priority, Allocate, ScanFault, PostAll;
  }
}
