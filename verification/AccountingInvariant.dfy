/** Holds, settlements and releases keep the invariant. */
module AccountingInvariant {
  import opened Prelude
  import opened Sorting
  import opened CreditPolicy
  import opened CreditRecords
  import opened CreditLifecycle
  import opened CreditAccounting
  import opened CreditInvariant
  import opened LifecycleInvariant

  // ---------------------------------------------------------------- the greedy allocation

  /** The spending order lists every grant exactly once. */
  lemma PriorityDistinct(grants: seq<Grant>)
    ensures var cs := Priority(grants); forall i, j | 0 <= i < j < |cs| :: cs[i].row != cs[j].row
  {
    var cs := Priority(grants);
    PriorityRows(grants);
    SortPermutes(Candidates(grants), PriorityLeq);
    forall i, j | 0 <= i < j < |cs|
      ensures cs[i].row != cs[j].row
    {
      if cs[i].row == cs[j].row {
        assert cs[i] in cs && cs[j] in cs;
        DuplicateCount(cs, i, j);
        DistinctCount(Candidates(grants), cs[i]);
      }
    }
  }

  predicate Fits(a: Allocation, cs: seq<Candidate>) {
    exists c | c in cs :: c.row == a.grant && a.amount <= c.grant.counters.Available()
  }

  lemma {:induction false} AllocateFits(cs: seq<Candidate>, remaining: int)
    requires 0 <= remaining
    requires forall c | c in cs :: 0 <= c.grant.counters.Available()
    requires forall i, j | 0 <= i < j < |cs| :: cs[i].row != cs[j].row
    ensures var xs := Allocate(cs, remaining);
            && (forall a | a in xs :: 0 < a.amount && Fits(a, cs))
            && (forall i, j | 0 <= i < j < |xs| :: xs[i].grant != xs[j].grant)
    decreases |cs|
  {
    if cs != [] && remaining != 0 {
      assert cs[0] in cs;
      var taken := Min(cs[0].grant.counters.Available(), remaining);
      var rest := Allocate(cs[1..], remaining - taken);
      AllocateFits(cs[1..], remaining - taken);
      forall a | a in rest
        ensures Fits(a, cs) && a.grant != cs[0].row
      {
        var c :| c in cs[1..] && c.row == a.grant && a.amount <= c.grant.counters.Available();
        assert c in cs;
      }
      if taken > 0 {
        var head := Allocation(cs[0].row, taken);
        assert Fits(head, cs);
        assert Allocate(cs, remaining) == [head] + rest;
      } else {
        assert Allocate(cs, remaining) == rest;
      }
    }
  }

  // ---------------------------------------------------------------- holding

  lemma {:induction false} HoldEventsTotals(allocations: seq<Allocation>, rid: nat, now: int, g: nat)
    ensures Totals(HoldEvents(allocations, rid, now), g) == Counters(0, AllocationsOn(allocations, g), 0, 0)
  {
    if allocations != [] {
      var init, a := allocations[..|allocations| - 1], allocations[|allocations| - 1];
      HoldEventsTotals(init, rid, now, g);
      TotalsAppend(HoldEvents(init, rid, now), HoldEventOf(a, rid, now), g);
    }
  }

  lemma {:induction false} HoldEventsOutstanding(es: seq<Event>)
    requires forall e | e in es :: e.delta.Outstanding() == 0
    ensures SumOf(es, EventOutstanding) == 0
  {
    if es != [] {
      HoldEventsOutstanding(es[..|es| - 1]);
    }
  }

  /** What an allocation list takes from a grant is at most what the grant has. */
  lemma AllocationsWithin(allocations: seq<Allocation>, grants: seq<Grant>, g: nat)
    requires g < |grants| && 0 <= grants[g].counters.Available()
    requires forall i, j | 0 <= i < j < |allocations| :: allocations[i].grant != allocations[j].grant
    requires forall a | a in allocations :: 0 < a.amount && a.grant < |grants| && a.amount <= grants[a.grant].counters.Available()
    ensures 0 <= AllocationsOn(allocations, g) <= grants[g].counters.Available()
  {
    if i :| 0 <= i < |allocations| && allocations[i].grant == g {
      AllocationsSingle(allocations, i);
      assert allocations[i] in allocations;
    } else {
      AllocationsAbsent(allocations, g);
    }
  }

  ghost predicate CanHold(s: State, key: Key, items: seq<Item>, allocations: seq<Allocation>) {
    var r := Reservation(key, SumOf(items, QuotedOf), AsOf(s), items, allocations, None);
    && s.account.Some?
    && (forall i | 0 <= i < |s.reservations| :: s.reservations[i].key != key)
    && ItemsOk(r) && AllocationsOk(r, |s.book.grants|)
    && forall a | a in allocations :: a.amount <= s.book.grants[a.grant].counters.Available()
  }

  /** The events of a hold are well shaped, under the key of a reservation that is new. */
  lemma HoldKeys(s: State, t: State, allocations: seq<Allocation>, rid: nat, now: int)
    requires LedgerOk(s) && rid == |s.reservations| < |t.reservations| && forall a | a in allocations :: 0 < a.amount
    ensures forall e | e in HoldEvents(allocations, rid, now) :: ShapeOk(e) && KeyOk(t, e)
    ensures forall e, f | e in HoldEvents(allocations, rid, now) && f in s.book.ledger :: Ident(e) != Ident(f)
  {
    hide LedgerUnique, LedgerBalances;
    var es := HoldEvents(allocations, rid, now);
    forall e | e in es
      ensures ShapeOk(e) && KeyOk(t, e) && e.key == ReserveOf(rid)
    {
      var i :| 0 <= i < |es| && es[i] == e;
      assert allocations[i] in allocations;
    }
    forall e, f | e in es && f in s.book.ledger
      ensures Ident(e) != Ident(f)
    {
      assert KeyOk(s, f);
    }
  }

  lemma HoldLedger(s: State, key: Key, items: seq<Item>, allocations: seq<Allocation>)
    requires Core(s) && CanHold(s, key, items, allocations)
    ensures LedgerOk(Hold(s, key, items, allocations, AsOf(s)))
  {
    hide Core, LedgerOk, LedgerBalances, KeyOk, ShapeOk, Totals, SumOf, Bases, ItemsOk;
    CoreTables(s);
    var now, rid := AsOf(s), |s.reservations|;
    var t := Hold(s, key, items, allocations, now);
    var es := HoldEvents(allocations, rid, now);
    PostedBook(s.book, es);
    KeysFrame(s, t);
    HoldKeys(s, t, allocations, rid, now);
    PostedLedger(s, t, es);
  }

  /** Ledger keys keep their meaning while the tables grow. */
  lemma KeysFrame(s: State, t: State)
    requires LedgerOk(s) && AsOf(s) <= AsOf(t)
    requires |s.book.grants| <= |t.book.grants|
    requires forall g | 0 <= g < |s.book.grants| :: t.book.grants[g].expiresAt == s.book.grants[g].expiresAt
    requires |s.reservations| <= |t.reservations|
    requires forall r | 0 <= r < |s.reservations| :: s.reservations[r].terminal.Some? ==> t.reservations[r].terminal.Some?
    requires s.operations.Keys <= t.operations.Keys
    ensures forall f | f in s.book.ledger :: KeyOk(t, f)
  {
    forall f | f in s.book.ledger
      ensures KeyOk(t, f)
    {
      assert KeyOk(s, f);
    }
  }

  lemma HoldGrants(s: State, key: Key, items: seq<Item>, allocations: seq<Allocation>)
    requires Core(s) && CanHold(s, key, items, allocations)
    ensures var t := Hold(s, key, items, allocations, AsOf(s));
            GrantsOk(t) && NoResurrection(t) && HoldsOk(t) && BoundedBalance(t)
  {
    hide Core, Totals, HeldOn, AllocationsOn, SumOf, LedgerOk, PostAll, ItemsOk;
    CoreMoney(s);
    var now, rid := AsOf(s), |s.reservations|;
    var t := Hold(s, key, items, allocations, now);
    var es := HoldEvents(allocations, rid, now);
    PostedBook(s.book, es);
    forall g | 0 <= g < |t.book.grants|
      ensures GrantOk(t, t.book.grants[g])
      ensures t.book.grants[g].ExpiredAt(now) ==> t.book.grants[g].counters.Available() == 0
      ensures t.book.grants[g].counters.reserved == HeldOn(t.reservations, g)
    {
      assert GrantOk(s, s.book.grants[g]);
      HoldEventsTotals(allocations, rid, now, g);
      AllocationsWithin(allocations, s.book.grants, g);
      HeldOnAppend(s.reservations, t.reservations[rid], g);
    }
    forall c | 0 <= c < |t.cycles|
      ensures |Bases(t.book.grants, c)| == 1
    {
      assert Bases(t.book.grants, c) == Bases(s.book.grants, c);
    }
    PostAllOutstanding(s.book, es);
    HoldEventsOutstanding(es);
  }

  lemma CoreMoney(s: State)
    requires Core(s)
    ensures GrantsOk(s) && NoResurrection(s) && HoldsOk(s) && BoundedBalance(s)
  {
  }

  lemma HoldReservations(s: State, t: State, r: Reservation)
    requires ReservationsOk(s) && t.reservations == s.reservations + [r] && AsOf(t) == AsOf(s) && |s.book.grants| <= |t.book.grants|
    requires ReservationOk(t, r) && r.Held() && forall i | 0 <= i < |s.reservations| :: s.reservations[i].key != r.key
    ensures ReservationsOk(t)
  {
    hide ItemsOk, TerminalOk;
    forall i | 0 <= i < |t.reservations|
      ensures ReservationOk(t, t.reservations[i])
    {
      if i < |s.reservations| {
        assert ReservationOk(s, s.reservations[i]);
      }
    }
  }

  lemma HoldCore(s: State, key: Key, items: seq<Item>, allocations: seq<Allocation>)
    requires Core(s) && CanHold(s, key, items, allocations)
    ensures var t := Hold(s, key, items, allocations, AsOf(s)); Core(t) && (Started(s) ==> Started(t))
  {
    hide GrantsOk, NoResurrection, HoldsOk, LedgerOk, BoundedBalance, CyclesOk, ReservationsOk, OperationsOk, ItemsOk, SumOf, PostAll;
    var t := Hold(s, key, items, allocations, AsOf(s));
    HoldLedger(s, key, items, allocations);
    HoldGrants(s, key, items, allocations);
    CyclesFrame(s, t);
    HoldReservations(s, t, t.reservations[|s.reservations|]);
    OperationsFrame(s, t);
  }

  // ---------------------------------------------------------------- quoting

  lemma {:induction false} QuotesItems(es: seq<Estimate>)
    requires Quotes(es).Ok?
    requires forall e | e in es :: 1 <= e.maximumUnits
    ensures var items := Quotes(es).value;
            && SameEstimates(items, es)
            && (forall i | i in items :: 1 <= i.maximumUnits && QuoteUsage(i.meter, i.maximumUnits) == Ok(i.quoted))
  {
    if es != [] {
      QuotesItems(es[..|es| - 1]);
    }
  }

  /** Sorting keeps the meters distinct and the estimates valid. */
  lemma SortedEstimates(raw: seq<Estimate>)
    requires ValidEstimates(raw)
    ensures ValidEstimates(Sort(raw, EstimateLeq))
  {
    var es := Sort(raw, EstimateLeq);
    SortPermutes(raw, EstimateLeq);
    forall i, j | 0 <= i < j < |es|
      ensures es[i].meter != es[j].meter
    {
      if es[i].meter == es[j].meter {
        assert es[i] in es && es[j] in es;
        var a :| 0 <= a < |raw| && raw[a] == es[i];
        var b :| 0 <= b < |raw| && raw[b] == es[j];
        assert a == b;
        DuplicateCount(es, i, j);
        DistinctCount(raw, es[i]);
      }
    }
  }

  lemma SortedLines(raw: seq<UsageLine>, allowEmpty: bool)
    requires ValidLines(raw, allowEmpty)
    ensures ValidLines(Sort(raw, LineLeq), allowEmpty)
  {
    var ls := Sort(raw, LineLeq);
    SortPermutes(raw, LineLeq);
    forall i, j | 0 <= i < j < |ls|
      ensures ls[i].meter != ls[j].meter
    {
      if ls[i].meter == ls[j].meter {
        assert ls[i] in ls && ls[j] in ls;
        var a :| 0 <= a < |raw| && raw[a] == ls[i];
        var b :| 0 <= b < |raw| && raw[b] == ls[j];
        assert a == b;
        DuplicateCount(ls, i, j);
        DistinctCount(raw, ls[i]);
      }
    }
  }

  lemma AdmitKeeps(s: State, key: Key, es: seq<Estimate>, now: int, scan: Scan)
    requires Core(s) && Started(s) && s.account.Some? && AsOf(s) == now
    requires ValidEstimates(es) && FindReserved(s.reservations, key).None?
    requires Admit(s, key, es, now, scan).Ok?
    ensures var t := Admit(s, key, es, now, scan).value.0;
            && Core(t) && Started(t)
            && t == s.(reservations := t.reservations, book := t.book)
            && |t.reservations| == |s.reservations| + 1
            && t.reservations[..|s.reservations|] == s.reservations
            && t.reservations[|s.reservations|].key == key && t.reservations[|s.reservations|].Held()
            && SameEstimates(t.reservations[|s.reservations|].items, es)
            && HeldCount(t.reservations) <= PolicyOf(t.account.value.plan).maxConcurrentRequests
  {
    hide Core, Started, Sort, ScanFault, Capacity;
    var items := Quotes(es).value;
    var total := SumOf(items, QuotedOf);
    PriorityRows(s.book.grants);
    assert forall g | 0 <= g < |s.book.grants| :: Storable(s.book.grants[g].counters);
    var allocations := Allocate(Priority(s.book.grants), total);
    AdmitCanHold(s, key, es);
    HoldCore(s, key, items, allocations);
    SumOfAppend(s.reservations, Reservation(key, total, now, items, allocations, None), HeldOne);
    QuotesItems(es);
  }

  /** What the greedy allocation takes can be held. */
  lemma AdmitCanHold(s: State, key: Key, es: seq<Estimate>)
    requires s.account.Some? && ValidEstimates(es) && FindReserved(s.reservations, key).None?
    requires Quotes(es).Ok? && 0 < SumOf(Quotes(es).value, QuotedOf) <= MAX_BIGINT
    requires forall c | c in Priority(s.book.grants) :: 0 <= c.grant.counters.Available()
    requires SumOf(Allocate(Priority(s.book.grants), SumOf(Quotes(es).value, QuotedOf)), AmountOf) == SumOf(Quotes(es).value, QuotedOf)
    ensures CanHold(s, key, Quotes(es).value, Allocate(Priority(s.book.grants), SumOf(Quotes(es).value, QuotedOf)))
  {
    hide Priority, Allocate, Quotes, SumOf, QuoteUsage, Sort;
    var items := Quotes(es).value;
    var total := SumOf(items, QuotedOf);
    var cs := Priority(s.book.grants);
    QuotesItems(es);
    DistinctItems(items, es);
    PriorityRows(s.book.grants);
    PriorityDistinct(s.book.grants);
    AllocateFits(cs, total);
    AllocateRows(cs, total, |s.book.grants|);
    CanHoldFits(s, cs, Allocate(cs, total));
  }

  lemma DistinctItems(items: seq<Item>, es: seq<Estimate>)
    requires SameEstimates(items, es) && ValidEstimates(es)
    ensures items != [] && forall i, j | 0 <= i < j < |items| :: items[i].meter != items[j].meter
  {
  }

  lemma CanHoldFits(s: State, cs: seq<Candidate>, allocations: seq<Allocation>)
    requires forall c | c in cs :: c.row < |s.book.grants| && c.grant == s.book.grants[c.row]
    requires forall a | a in allocations :: Fits(a, cs)
    ensures forall a | a in allocations :: a.grant < |s.book.grants| && a.amount <= s.book.grants[a.grant].counters.Available()
  {
    forall a | a in allocations
      ensures a.grant < |s.book.grants| && a.amount <= s.book.grants[a.grant].counters.Available()
    {
      assert Fits(a, cs);
    }
  }

  lemma ReserveKeeps(s: State, key: Key, raw: seq<Estimate>, now: int, tag: nat, scan: Scan)
    requires Core(s) && Started(s) && Reserve(s, key, raw, now, tag, scan).Ok?
    ensures var t := Reserve(s, key, raw, now, tag, scan).value.0;
            && Core(t) && Started(t) && t.user == s.user && t.audits == s.audits && t.operations == s.operations
  {
    hide Core, Started, EnsureCycle, Admit;
    if FindReserved(s.reservations, key).None? {
      SortedEstimates(raw);
      EnsureKeeps(s, now, tag);
      AdmitKeeps(EnsureCycle(s, now, tag).value.state, key, Sort(raw, EstimateLeq), now, scan);
    }
  }
}
