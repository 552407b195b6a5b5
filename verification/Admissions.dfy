/** A reservation's price and its admission, told from the request as it was made and the rows at that moment. */
module Admissions {
  import opened Prelude
  import opened Sorting
  import opened CreditPolicy
  import opened CreditRecords
  import opened CreditLifecycle
  import opened CreditAccounting
  import opened CreditInvariant
  import opened LifecycleInvariant
  import opened AccountingInvariant
  import opened SettlementInvariant
  import opened GreedyAllocation
  import opened HoldTotals
  import opened CreditHistory
  import opened CreditReplay

  /** The most an estimate can cost at the published rate. */
  function EstimatePrice(e: Estimate): int {
    e.maximumUnits * Rate(e.meter)
  }

  lemma {:induction false} ItemsPrice(items: seq<Item>, es: seq<Estimate>)
    requires SameEstimates(items, es)
    requires forall i | i in items :: QuoteUsage(i.meter, i.maximumUnits) == Ok(i.quoted)
    ensures SumOf(items, QuotedOf) == SumOf(es, EstimatePrice)
  {
    if es != [] {
      var n := |es| - 1;
      assert items[n] in items && forall i | i in items[..n] :: i in items;
      ItemsPrice(items[..n], es[..n]);
    }
  }

  lemma SortedPrice(raw: seq<Estimate>)
    ensures SumOf(Sort(raw, EstimateLeq), EstimatePrice) == SumOf(raw, EstimatePrice)
    ensures forall e :: e in Sort(raw, EstimateLeq) <==> e in raw
  {
    SortPermutes(raw, EstimateLeq);
    SumOfPermutation(Sort(raw, EstimateLeq), raw, EstimatePrice);
  }

  lemma RowItems(s: State, rid: nat)
    requires Inv(s) && rid < |s.reservations|
    ensures var r := s.reservations[rid];
            && (forall i | i in r.items :: QuoteUsage(i.meter, i.maximumUnits) == Ok(i.quoted))
            && SumOf(r.items, QuotedOf) == r.total
  {
    hide CyclesOk, GrantsOk, LedgerOk, HoldsOk, NoResurrection, OperationsOk, AccountOk, AllocationsOk, TerminalOk;
    assert ReservationOk(s, s.reservations[rid]);
  }

  /** Reserved units are storable, one item to a meter. */
  lemma ItemFacts(s: State, rid: nat)
    requires Inv(s) && rid < |s.reservations|
    ensures var items := s.reservations[rid].items;
            && (forall i | i in items :: i.maximumUnits <= MAX_BIGINT)
            && (forall i, j | 0 <= i < j < |items| :: items[i].meter != items[j].meter)
  {
    hide Core;
    RowOk(s, rid);
    hide AllocationsOk, TerminalOk;
  }

  /** Whatever is reserved, afresh or again, is held for exactly the price of the estimates asked for. */
  lemma ReservePrice(s: State, key: Key, raw: seq<Estimate>, now: int, tag: nat, scan: Scan)
    requires Inv(s) && Reserve(s, key, raw, now, tag, scan).Ok?
    ensures var (t, receipt) := Reserve(s, key, raw, now, tag, scan).value;
            && Inv(t) && receipt.reservation < |t.reservations|
            && t.reservations[receipt.reservation].total == receipt.total == SumOf(raw, EstimatePrice)
  {
    hide Core, Started, Reserve, Extends, SumOf, ValidEstimates;
    StepKeeps(s, CallReserve(key, raw, now, tag, scan));
    ReserveExtends(s, key, raw, now, tag, scan);
    var (t, receipt) := Reserve(s, key, raw, now, tag, scan).value;
    RowItems(t, receipt.reservation);
    ItemsPrice(t.reservations[receipt.reservation].items, Sort(raw, EstimateLeq));
    SortedPrice(raw);
  }

  // ---------------------------------------------------------------- when a new request is admitted

  lemma {:induction false} QuotesWhen(es: seq<Estimate>)
    requires forall e | e in es :: 1 <= e.maximumUnits <= MAX_BIGINT
    ensures Quotes(es).Ok? <==> forall e | e in es :: EstimatePrice(e) <= MAX_BIGINT
    ensures Quotes(es).Ok? ==> SumOf(Quotes(es).value, QuotedOf) == SumOf(es, EstimatePrice)
  {
    if es != [] {
      var n := |es| - 1;
      assert es == es[..n] + [es[n]];
      QuotesWhen(es[..n]);
      if Quotes(es).Ok? {
        SumOfAppend(Quotes(es[..n]).value, Quotes(es).value[n], QuotedOf);
      }
    }
  }

  /** What must hold of the rows, once brought up to date, for a request to be admitted. */
  ghost predicate Affordable(t: State, raw: seq<Estimate>, scan: Scan) {
    && t.account.Some?
    && var policy := PolicyOf(t.account.value.plan);
    && (forall e | e in raw :: e.meter !in policy.refused)
    && HeldCount(t.reservations) < policy.maxConcurrentRequests
    && LedgerCheck(scan(t.book.ledger), t.book.grants).Pass?
    && SumOf(raw, EstimatePrice) <= SumOf(t.book.grants, AvailableOf)
  }

  lemma PricesAdd(es: seq<Estimate>)
    requires forall e | e in es :: 1 <= e.maximumUnits <= MAX_BIGINT
    ensures Quotes(es).Ok? ==> SumOf(Quotes(es).value, QuotedOf) == SumOf(es, EstimatePrice)
    ensures SumOf(es, EstimatePrice) <= MAX_BIGINT ==> Quotes(es).Ok?
  {
    QuotesWhen(es);
    SumOfNonNegative(es, EstimatePrice);
  }

  lemma AdmitWhen(s: State, key: Key, es: seq<Estimate>, now: int, scan: Scan)
    requires Core(s) && s.account.Some? && ValidEstimates(es)
    ensures Admit(s, key, es, now, scan).Ok? <==> Affordable(s, es, scan)
  {
    hide Core, Admit, LedgerCheck, PolicyOf, HeldCount, Quotes, SumOf, EstimatePrice;
    PricesAdd(es);
    BalancesBounded(s);
    if AdmitReaches(s, key, es, now, scan) {
      AdmitTotal(s, key, es, now, scan);
    } else {
      AdmitStops(s, key, es, now, scan);
    }
  }

  /** The guards before the walk over the grants. */
  ghost predicate AdmitReaches(s: State, key: Key, es: seq<Estimate>, now: int, scan: Scan)
    requires s.account.Some?
  {
    && (forall e | e in es :: e.meter !in PolicyOf(s.account.value.plan).refused)
    && HeldCount(s.reservations) < PolicyOf(s.account.value.plan).maxConcurrentRequests
    && LedgerCheck(scan(s.book.ledger), s.book.grants).Pass?
    && Quotes(es).Ok? && SumOf(Quotes(es).value, QuotedOf) <= MAX_BIGINT
  }

  lemma AdmitStops(s: State, key: Key, es: seq<Estimate>, now: int, scan: Scan)
    requires s.account.Some? && !AdmitReaches(s, key, es, now, scan)
    ensures Admit(s, key, es, now, scan).Err?
  {
    hide PolicyOf, HeldCount, Quotes, SumOf, Allocate, Priority, ScanFault, Hold;
  }

  /**
   * A new request is admitted exactly when the user is active and signed up,
   * the rows can be brought up to date, and afterwards the plan in force
   * permits every meter and one more request, the ledger comparison passes and
   * the available credit covers the price.
   */
  lemma ReserveTotal(s: State, key: Key, raw: seq<Estimate>, now: int, tag: nat, scan: Scan)
    requires Inv(s) && ValidEstimates(raw) && FindReserved(s.reservations, key).None?
    ensures Reserve(s, key, raw, now, tag, scan).Ok?
            <==> && s.user.signedUpAt <= now && s.user.status.Active? && EnsureCycle(s, now, tag).Ok?
                 && Affordable(EnsureCycle(s, now, tag).value.state, raw, scan)
  {
    hide Core, Started, EnsureCycle, Admit, FindReserved;
    SortedEstimates(raw);
    SortedPrice(raw);
    if s.user.signedUpAt <= now && s.user.status.Active? && EnsureCycle(s, now, tag).Ok? {
      var t := EnsureCycle(s, now, tag).value.state;
      EnsureKeeps(s, now, tag);
      AdmitWhen(t, key, Sort(raw, EstimateLeq), now, scan);
      SameAffordable(t, raw, scan);
    }
  }

  lemma SameAffordable(t: State, raw: seq<Estimate>, scan: Scan)
    ensures Affordable(t, Sort(raw, EstimateLeq), scan) <==> Affordable(t, raw, scan)
  {
    hide Sort, LedgerCheck, PolicyOf, HeldCount, SumOf;
    SortedPrice(raw);
  }

  // ---------------------------------------------------------------- why a new request is refused

  lemma {:induction false} QuotesRefusal(es: seq<Estimate>)
    requires (forall e | e in es :: 1 <= e.maximumUnits <= MAX_BIGINT) && Quotes(es).Err?
    ensures Quotes(es).error == AmountOverflow
  {
    var n := |es| - 1;
    assert es[n] in es && forall e | e in es[..n] :: e in es;
    if Quotes(es[..n]).Err? {
      QuotesRefusal(es[..n]);
    }
  }

  /** The first of these that applies, on rows brought up to date. */
  function Refusal(plan: Plan, raw: seq<Estimate>, held: int, check: Check<CreditError>): CreditError {
    var policy := PolicyOf(plan);
    if exists e | e in raw :: e.meter in policy.refused then PlanRefused
    else if policy.maxConcurrentRequests <= held then UserConcurrencyLimit
    else if check.Fail? then check.error
    else if MAX_BIGINT < SumOf(raw, EstimatePrice) then AmountOverflow
    else MonthlyCreditExhausted
  }

  lemma AdmitRefusal(s: State, key: Key, es: seq<Estimate>, now: int, scan: Scan)
    requires Core(s) && s.account.Some? && ValidEstimates(es) && Admit(s, key, es, now, scan).Err?
    ensures Admit(s, key, es, now, scan).error
            == Refusal(s.account.value.plan, es, HeldCount(s.reservations), LedgerCheck(scan(s.book.ledger), s.book.grants))
  {
    hide Core, Admit, LedgerCheck, PolicyOf, HeldCount, Quotes, SumOf, EstimatePrice;
    PricesAdd(es);
    if AdmitReaches(s, key, es, now, scan) {
      AdmitTotal(s, key, es, now, scan);
    } else {
      if Quotes(es).Err? {
        QuotesRefusal(es);
      }
      GuardRefusal(s, key, es, now, scan);
    }
  }

  lemma GuardRefusal(s: State, key: Key, es: seq<Estimate>, now: int, scan: Scan)
    requires s.account.Some? && !AdmitReaches(s, key, es, now, scan) && Admit(s, key, es, now, scan).Err?
    requires Quotes(es).Err? ==> Quotes(es).error == AmountOverflow && MAX_BIGINT < SumOf(es, EstimatePrice)
    requires Quotes(es).Ok? ==> SumOf(Quotes(es).value, QuotedOf) == SumOf(es, EstimatePrice)
    ensures Admit(s, key, es, now, scan).error
            == Refusal(s.account.value.plan, es, HeldCount(s.reservations), LedgerCheck(scan(s.book.ledger), s.book.grants))
  {
    hide PolicyOf, HeldCount, Quotes, SumOf, Allocate, Priority, ScanFault, Hold, EstimatePrice;
  }

  /** A new request that is not admitted is refused for the first reason that applies. */
  lemma ReserveRefusal(s: State, key: Key, raw: seq<Estimate>, now: int, tag: nat, scan: Scan)
    requires Inv(s) && ValidEstimates(raw) && FindReserved(s.reservations, key).None?
    requires Reserve(s, key, raw, now, tag, scan).Err?
    ensures Reserve(s, key, raw, now, tag, scan).error
            == if now < s.user.signedUpAt then InputInvalid
               else if !s.user.status.Active? then PlanRefused
               else match EnsureCycle(s, now, tag)
                    case Err(error) => if error.ClockRegressed? then AccountInconsistent else error
                    case Ok(e) =>
                      Refusal(e.state.account.value.plan, raw, HeldCount(s.reservations),
                              LedgerCheck(scan(e.state.book.ledger), e.state.book.grants))
  {
    hide Core, Started, EnsureCycle, Admit, FindReserved, LedgerCheck, Refusal, HeldCount;
    SortedEstimates(raw);
    if s.user.signedUpAt <= now && s.user.status.Active? && EnsureCycle(s, now, tag).Ok? {
      var e := EnsureCycle(s, now, tag).value;
      EnsureKeeps(s, now, tag);
      KeptReservations(s, now, tag);
      AdmitRefusal(e.state, key, Sort(raw, EstimateLeq), now, scan);
      SameRefusal(e.state.account.value.plan, raw, HeldCount(s.reservations), LedgerCheck(scan(e.state.book.ledger), e.state.book.grants));
    }
  }

  lemma SameRefusal(plan: Plan, raw: seq<Estimate>, held: int, check: Check<CreditError>)
    ensures Refusal(plan, Sort(raw, EstimateLeq), held, check) == Refusal(plan, raw, held, check)
  {
    hide Sort, PolicyOf, SumOf;
    SortedPrice(raw);
  }

  // ---------------------------------------------------------------- where the credit comes from

  lemma AdmitAllocates(s: State, key: Key, es: seq<Estimate>, now: int, scan: Scan)
    requires s.account.Some? && Admit(s, key, es, now, scan).Ok?
    ensures var (t, receipt) := Admit(s, key, es, now, scan).value;
            && receipt.reservation == |s.reservations| < |t.reservations| && 0 < receipt.total
            && (forall c | c in Priority(s.book.grants) :: 0 <= c.grant.counters.Available())
            && t.reservations[|s.reservations|].allocations == Allocate(Priority(s.book.grants), receipt.total)
            && t.reservations[|s.reservations|].createdAt == now && t.reservations[|s.reservations|].Held()
  {
    hide ScanFault, Quotes, SumOf, Priority, Allocate, PolicyOf, PostAll;
    assert forall g | 0 <= g < |s.book.grants| :: Storable(s.book.grants[g].counters);
    PriorityRows(s.book.grants);
  }

  /**
   * A new reservation takes from each grant exactly what the grants to be spent
   * before it leave uncovered: soonest expiry first, then the oldest.
   */
  lemma ReserveSpendsInOrder(s: State, key: Key, raw: seq<Estimate>, now: int, tag: nat, scan: Scan, j: nat)
    requires Inv(s) && FindReserved(s.reservations, key).None? && Reserve(s, key, raw, now, tag, scan).Ok?
    requires j < |EnsureCycle(s, now, tag).value.state.book.grants|
    ensures var grants := EnsureCycle(s, now, tag).value.state.book.grants;
            var (t, receipt) := Reserve(s, key, raw, now, tag, scan).value;
            var before := AvailableOn(grants, RowsBefore(grants, j));
            && receipt.reservation < |t.reservations|
            && t.reservations[receipt.reservation].createdAt == now && t.reservations[receipt.reservation].Held()
            && TakenFrom(t.reservations[receipt.reservation].allocations, {j})
               == Min(grants[j].counters.Available(), if receipt.total <= before then 0 else receipt.total - before)
  {
    hide Core, Started, EnsureCycle, Admit, FindReserved, Sort, Allocate, Priority, AvailableOn, RowsBefore, TakenFrom, ValidEstimates;
    var e := EnsureCycle(s, now, tag).value.state;
    EnsureKeeps(s, now, tag);
    KeptReservations(s, now, tag);
    NothingOverspent(e);
    AdmitAllocates(e, key, Sort(raw, EstimateLeq), now, scan);
    SpentInOrder(e.book.grants, Reserve(s, key, raw, now, tag, scan).value.1.total, j);
  }

  lemma KeptReservations(s: State, now: int, tag: nat)
    requires Core(s) && Started(s) && EnsureCycle(s, now, tag).Ok?
    ensures EnsureCycle(s, now, tag).value.state.reservations == s.reservations
  {
    hide Core, Started, EnsureCycle;
    EnsureKeeps(s, now, tag);
  }

  lemma NothingOverspent(s: State)
    requires Core(s)
    ensures NoneOverspent(s.book.grants)
  {
    hide Core;
    CoreTables(s);
    CoreNoneOverspent(s);
  }
}
