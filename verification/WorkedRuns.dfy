/** Single calls on rows that are already up to date, from which concrete runs are put together. */
module WorkedRuns {
  import opened Prelude
  import opened Sorting
  import opened CreditPolicy
  import opened CreditRecords
  import opened CreditLifecycle
  import opened CreditAccounting
  import opened CreditInvariant
  import opened LifecycleInvariant
  import opened AccountingInvariant
  import opened SettlementInvariant
  import opened TerminalCalls
  import opened CreditHistory
  import opened HoldTotals
  import opened GreedyAllocation

  /** The account's clock shows `now`, and its newest cycle contains `now`. */
  ghost predicate UpToDate(s: State, now: int) {
    && s.account.Some? && AsOf(s) == now && s.cycles != []
    && var c := s.cycles[|s.cycles| - 1];
    c.startsAt <= now < c.endsAt
  }

  lemma EnsureBringsUpToDate(s: State, now: int, tag: nat)
    requires Core(s) && Started(s) && EnsureCycle(s, now, tag).Ok?
    ensures UpToDate(EnsureCycle(s, now, tag).value.state, now)
  {
    hide Core, Started, EnsureCycle;
    EnsureKeeps(s, now, tag);
  }

  lemma NothingDue(s: State, n: nat)
    requires NoResurrection(s) && n <= |s.book.grants|
    ensures ExpireEvents(s.book.grants, AsOf(s), n) == []
  {
    if n > 0 {
      NothingDue(s, n - 1);
    }
  }

  lemma AgedAtOnce(s: State)
    requires s.account.Some? && Core(s)
    ensures Aged(s, AsOf(s)) == s
  {
    NothingDue(s, |s.book.grants|);
  }

  lemma CurrentIndex(s: State, now: int)
    requires Core(s) && Started(s) && UpToDate(s, now)
    ensures BoundsAt(s.user.signedUpAt, now).Ok?
    ensures BoundsAt(s.user.signedUpAt, now).value.index == s.cycles[|s.cycles| - 1].index
  {
    var c := s.cycles[|s.cycles| - 1];
    assert CycleOk(s, c);
    BoundsConstantOnCycle(s.user.signedUpAt, c.index, now);
  }

  /** Bringing rows up to date a second time at the same instant changes nothing. */
  lemma EnsureIdle(s: State, now: int, tag: nat)
    requires Core(s) && Started(s) && UpToDate(s, now)
    ensures EnsureCycle(s, now, tag).Ok? && EnsureCycle(s, now, tag).value.state == s
    ensures EnsureCycle(s, now, tag).value.cycle == |s.cycles| - 1
  {
    hide Core, Started, Coherent, BoundsAt, Aged, Capacity, SumOf, Latest, BaseRow;
    InvCoherent(s);
    CurrentIndex(s, now);
    EnsureTotal(s, now, tag);
    AgedAtOnce(s);
    EnsureKeeps(s, now, tag);
  }

  // ---------------------------------------------------------------- requests and releases

  function Available(s: State): int {
    SumOf(s.book.grants, AvailableOf)
  }

  ghost predicate AllCurrent(s: State, now: int) {
    forall g | g in s.book.grants :: !g.ExpiredAt(now)
  }

  /** A fresh request the plan and the balance permit. */
  ghost predicate Affordable(s: State, key: Key, raw: seq<Estimate>) {
    && s.user.status.Active? && ValidEstimates(raw) && FindReserved(s.reservations, key).None? && s.account.Some?
    && (forall e | e in raw :: e.meter !in PolicyOf(s.account.value.plan).refused)
    && HeldCount(s.reservations) < PolicyOf(s.account.value.plan).maxConcurrentRequests
    && Quotes(Sort(raw, EstimateLeq)).Ok?
    && SumOf(Quotes(Sort(raw, EstimateLeq)).value, QuotedOf) <= Available(s)
  }

  /** The grants are the same but for their counters. */
  ghost predicate SameTerms(b: Book, c: Book) {
    && |c.grants| == |b.grants|
    && forall g | 0 <= g < |b.grants| :: c.grants[g].kind == b.grants[g].kind && c.grants[g].expiresAt == b.grants[g].expiresAt
  }

  lemma HoldEffect(s: State, key: Key, items: seq<Item>, allocations: seq<Allocation>, now: int)
    requires forall a | a in allocations :: a.grant < |s.book.grants|
    ensures var t := Hold(s, key, items, allocations, now);
            && SumOf(t.book.grants, OutstandingOf) == SumOf(s.book.grants, OutstandingOf)
            && SameTerms(s.book, t.book)
  {
    hide SumOf, PostAll;
    var holds := HoldEvents(allocations, |s.reservations|, now);
    PostAllEffect(s.book, holds);
    PostAllOutstanding(s.book, holds);
    HoldEventsOutstanding(holds);
  }

  /** A hold leaves the outstanding credit as it is. */
  lemma AdmitEffect(s: State, key: Key, es: seq<Estimate>, now: int, scan: Scan)
    requires s.account.Some? && Admit(s, key, es, now, scan).Ok?
    ensures var t := Admit(s, key, es, now, scan).value.0;
            && SumOf(t.book.grants, OutstandingOf) == SumOf(s.book.grants, OutstandingOf)
            && SameTerms(s.book, t.book)
            && t == s.(reservations := t.reservations, book := t.book)
            && |t.reservations| == |s.reservations| + 1 && t.reservations[..|s.reservations|] == s.reservations
            && var r := t.reservations[|s.reservations|];
            && r.key == key && r.Held() && Quotes(es).Ok? && r.total == SumOf(Quotes(es).value, QuotedOf)
  {
    hide ScanFault, Quotes, SumOf, Priority, PolicyOf, PostAll;
    var total := SumOf(Quotes(es).value, QuotedOf);
    assert forall g | 0 <= g < |s.book.grants| :: Storable(s.book.grants[g].counters);
    PriorityRows(s.book.grants);
    var allocations := Allocate(Priority(s.book.grants), total);
    AllocateRows(Priority(s.book.grants), total, |s.book.grants|);
    hide Allocate;
    HoldEffect(s, key, Quotes(es).value, allocations, now);
  }

  lemma StillCurrent(s: State, t: State, now: int)
    requires AllCurrent(s, now) && SameTerms(s.book, t.book)
    ensures AllCurrent(t, now)
  {
    forall g | g in t.book.grants
      ensures !g.ExpiredAt(now)
    {
      var i :| 0 <= i < |t.book.grants| && t.book.grants[i] == g;
      assert s.book.grants[i] in s.book.grants;
    }
  }

  /** `t` is `s` with one more held reservation of `total`, made at `now`. */
  ghost predicate Requested(s: State, t: State, key: Key, total: int, now: int) {
    var n := |s.reservations|;
    && Inv(t) && UpToDate(t, now) && AllCurrent(t, now)
    && t == s.(reservations := t.reservations, book := t.book)
    && |t.reservations| == n + 1 && t.reservations[..n] == s.reservations
    && SameTerms(s.book, t.book)
    && t.reservations[n].key == key && t.reservations[n].Held() && t.reservations[n].total == total
    && Available(t) == Available(s) - total
    && HeldCount(t.reservations) == HeldCount(s.reservations) + 1
  }

  /** A permitted, affordable request on rows that are up to date is admitted. */
  lemma ReserveNow(s: State, key: Key, raw: seq<Estimate>, now: int, tag: nat, scan: Scan)
    requires Inv(s) && UpToDate(s, now) && Affordable(s, key, raw) && AllCurrent(s, now)
    requires LedgerCheck(scan(s.book.ledger), s.book.grants).Pass?
    ensures Reserve(s, key, raw, now, tag, scan).Ok?
    ensures Requested(s, Reserve(s, key, raw, now, tag, scan).value.0, key, SumOf(Quotes(Sort(raw, EstimateLeq)).value, QuotedOf), now)
  {
    hide Core, Started, AuditsOk, EnsureCycle, Reserve, LedgerCheck, Sort, Quotes, Admit, PolicyOf, ValidEstimates, SumOf;
    var es := Sort(raw, EstimateLeq);
    SignedUpBefore(s);
    EnsureIdle(s, now, tag);
    SortedEstimates(raw);
    SortPermutes(raw, EstimateLeq);
    BalancesBounded(s);
    AdmitTotal(s, key, es, now, scan);
    ReserveIsAdmit(s, key, raw, now, tag, scan);
    AdmitEffect(s, key, es, now, scan);
    AdmitKeeps(s, key, es, now, scan);
    StepKeeps(s, CallReserve(key, raw, now, tag, scan));
    var t := Reserve(s, key, raw, now, tag, scan).value.0;
    StillCurrent(s, t, now);
    HeldSplits(s);
    HeldSplits(t);
    var r := t.reservations[|s.reservations|];
    assert t.reservations == s.reservations + [r];
    SumOfAppend(s.reservations, r, HeldAmount);
    SumOfAppend(s.reservations, r, HeldOne);
  }

  lemma SignedUpBefore(s: State)
    requires Core(s) && s.account.Some?
    ensures s.user.signedUpAt <= AsOf(s)
  {
  }

  lemma ReserveIsAdmit(s: State, key: Key, raw: seq<Estimate>, now: int, tag: nat, scan: Scan)
    requires ValidEstimates(raw) && FindReserved(s.reservations, key).None? && s.user.signedUpAt <= now && s.user.status.Active?
    requires s.account.Some? && EnsureCycle(s, now, tag).Ok? && EnsureCycle(s, now, tag).value.state == s
    ensures Reserve(s, key, raw, now, tag, scan) == Admit(s, key, Sort(raw, EstimateLeq), now, scan)
  {
    hide EnsureCycle, Admit, Sort, ValidEstimates;
  }

  /** Outstanding credit is what is available and what held reservations hold. */
  lemma HeldSplits(s: State)
    requires Core(s)
    ensures SumOf(s.book.grants, OutstandingOf) == Available(s) + HeldTotal(s.reservations)
  {
    hide SumOf;
    HeldAgrees(s);
    OutstandingSplits(s.book.grants);
  }

  /** Releasing while nothing expires gives the whole hold back. */
  lemma ReleasedEffect(s: State, rid: nat, now: int)
    requires Core(s) && AllCurrent(s, now) && rid < |s.reservations|
    ensures forall a | a in s.reservations[rid].allocations :: a.grant < |s.book.grants|
    ensures var r := s.reservations[rid];
            var es := TerminalEvents(s.book.grants, r.allocations, 0, rid, now, false, |r.allocations|);
            && Posts(es, s.book.grants)
            && var b := PostAll(s.book, es);
            && SumOf(b.grants, OutstandingOf) == SumOf(s.book.grants, OutstandingOf)
            && SameTerms(s.book, b)
  {
    hide Core, SumOf, PostAll, SpentAt, LedgerOk, ItemsOk, TerminalOk;
    RowOk(s, rid);
    AllocationRowsExist(s, rid);
    var r := s.reservations[rid];
    var es := TerminalEvents(s.book.grants, r.allocations, 0, rid, now, false, |r.allocations|);
    forall e | e in es
      ensures e.grant < |s.book.grants| && e.delta.Outstanding() == 0
    {
      var i :| 0 <= i < |es| && es[i] == e;
      SpentNothing(r.allocations, 0, i);
      assert r.allocations[i] in r.allocations;
    }
    PostAllEffect(s.book, es);
    PostAllOutstanding(s.book, es);
    HoldEventsOutstanding(es);
  }

  /** `t` is `s` with the held reservation `rid` closed under `key` and its credit available again. */
  ghost predicate Returned(s: State, t: State, rid: nat, key: Key, now: int)
    requires rid < |s.reservations|
  {
    && Inv(t) && UpToDate(t, now) && AllCurrent(t, now)
    && t == s.(reservations := t.reservations, book := t.book)
    && |t.reservations| == |s.reservations|
    && t.reservations == s.reservations[rid := s.reservations[rid].(terminal := t.reservations[rid].terminal)]
    && t.reservations[rid].terminal.Some? && t.reservations[rid].terminal.value.key == key
    && SameTerms(s.book, t.book)
    && Available(t) == Available(s) + s.reservations[rid].total
    && HeldCount(t.reservations) == HeldCount(s.reservations) - 1
  }

  /** A held reservation is released on the spot. */
  lemma ReleaseNow(s: State, rid: nat, reason: Reason, key: Key, now: int, scan: Scan)
    requires Inv(s) && UpToDate(s, now) && AllCurrent(s, now)
    requires rid < |s.reservations| && s.reservations[rid].Held() && FindTerminal(s.reservations, key).None?
    requires !reason.UsageSettled? && LedgerCheck(scan(s.book.ledger), s.book.grants).Pass?
    ensures Release(s, rid, [], reason, key, now, scan).Ok?
    ensures Returned(s, Release(s, rid, [], reason, key, now, scan).value.0, rid, key, now)
  {
    hide Core, Started, AuditsOk, LedgerCheck, Close, Charges, SumOf, PostAll, TerminalEvents, Closable, TerminalReceiptOf;
    HeldRelease(s, rid, reason, key, now, scan);
    var t := Release(s, rid, [], reason, key, now, scan).value.0;
    StepKeeps(s, CallRelease(rid, [], reason, key, now, scan));
    assert Sort<UsageLine>([], LineLeq) == [];
    assert Closable(s, rid, [], now, false) by { NothingReportedClosable(s, rid, now); }
    CloseEffect(s, rid, [], NoDeliverable, reason, key, now, false);
    CloseKeeps(s, rid, [], NoDeliverable, reason, key, now, false);
    ChargesWaived([], s.reservations[rid].items);
    ReleasedEffect(s, rid, now);
    StillCurrent(s, t, now);
    HeldSplits(s);
    HeldSplits(t);
    SumOfUpdate(s.reservations, rid, t.reservations[rid], HeldAmount);
    SumOfUpdate(s.reservations, rid, t.reservations[rid], HeldOne);
  }

  lemma NothingReportedClosable(s: State, rid: nat, now: int)
    requires AsOf(s) <= now && rid < |s.reservations| && s.reservations[rid].Held()
    ensures Closable(s, rid, [], now, false)
  {
  }
}
