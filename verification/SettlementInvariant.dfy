/** Settling and releasing: conservation of the hold, and why the late guards of a terminal call never fire. */
module SettlementInvariant {
  import opened Prelude
  import opened CreditPolicy
  import opened CreditRecords
  import opened CreditLifecycle
  import opened CreditAccounting
  import opened CreditInvariant
  import opened LifecycleInvariant
  import opened AccountingInvariant

  // ---------------------------------------------------------------- charges

  /** Quoted total of the items whose meters are in `ms`. */
  function QuotedIn(items: seq<Item>, ms: set<Meter>): int {
    if items == [] then 0
    else
      var i := items[|items| - 1];
      QuotedIn(items[..|items| - 1], ms) + if i.meter in ms then i.quoted else 0
  }

  lemma {:induction false} QuotedInAdd(items: seq<Item>, ms: set<Meter>, k: nat)
    requires k < |items| && items[k].meter !in ms
    requires forall i | i in items :: 0 <= i.quoted
    ensures QuotedIn(items, ms) + items[k].quoted <= QuotedIn(items, ms + {items[k].meter})
  {
    var n := |items| - 1;
    var init := items[..n];
    if k == n {
      QuotedInGrows(init, ms, ms + {items[k].meter});
    } else {
      assert forall i | i in init :: i in items;
      QuotedInAdd(init, ms, k);
      assert items[n] in items;
    }
  }

  lemma {:induction false} QuotedInGrows(items: seq<Item>, ms: set<Meter>, ns: set<Meter>)
    requires ms <= ns && forall i | i in items :: 0 <= i.quoted
    ensures 0 <= QuotedIn(items, ms) <= QuotedIn(items, ns)
    ensures QuotedIn(items, ns) <= SumOf(items, QuotedOf)
  {
    if items != [] {
      var init := items[..|items| - 1];
      assert items[|items| - 1] in items;
      assert forall i | i in init :: i in items;
      QuotedInGrows(init, ms, ns);
    }
  }

  function LineMeters(lines: seq<UsageLine>): set<Meter> {
    set l | l in lines :: l.meter
  }

  ghost predicate QuotedItems(items: seq<Item>) {
    forall i | i in items :: 1 <= i.maximumUnits && QuoteUsage(i.meter, i.maximumUnits) == Ok(i.quoted)
  }

  /** The last line's record, priced no higher than its item's quote. */
  lemma ChargesStep(lines: seq<UsageLine>, items: seq<Item>, charge: bool)
    requires QuotedItems(items) && lines != []
    requires forall l | l in lines :: FindItem(items, l.meter).Some? && 0 <= l.actualUnits
    requires Charges(lines, items, charge).Ok?
    ensures var n := |lines| - 1;
            var item := items[FindItem(items, lines[n].meter).value];
            var records := Charges(lines, items, charge).value;
            && Charges(lines[..n], items, charge).Ok?
            && records == Charges(lines[..n], items, charge).value + [records[n]]
            && records[n] == UsageRecord(lines[n].meter, lines[n].actualUnits, lines[n].source, records[n].charged)
            && 0 <= records[n].charged <= item.quoted <= MAX_BIGINT
            && records[n].charged == (if charge then lines[n].actualUnits * Rate(lines[n].meter) else 0)
  {
    var n := |lines| - 1;
    var l := lines[n];
    assert l in lines;
    var row := FindItem(items, l.meter).value;
    assert items[row] in items;
    QuoteLinear(l.meter, l.actualUnits, items[row].maximumUnits - l.actualUnits);
  }

  lemma SameLinesNext(records: seq<UsageRecord>, last: UsageRecord, lines: seq<UsageLine>)
    requires lines != [] && SameLines(records, lines[..|lines| - 1])
    requires var l := lines[|lines| - 1]; last.meter == l.meter && last.actualUnits == l.actualUnits && last.source == l.source
    ensures SameLines(records + [last], lines)
  {
    var n := |lines| - 1;
    assert forall i | 0 <= i < n :: lines[..n][i] == lines[i] && (records + [last])[i] == records[i];
  }

  /** The records repeat the report line by line. */
  lemma {:induction false} ChargesRecords(lines: seq<UsageLine>, items: seq<Item>, charge: bool)
    requires QuotedItems(items)
    requires forall l | l in lines :: FindItem(items, l.meter).Some? && 0 <= l.actualUnits
    requires Charges(lines, items, charge).Ok?
    ensures SameLines(Charges(lines, items, charge).value, lines)
    ensures forall u | u in Charges(lines, items, charge).value ::
              0 <= u.actualUnits && 0 <= u.charged <= MAX_BIGINT && (!charge ==> u.charged == 0)
  {
    if lines != [] {
      var n := |lines| - 1;
      assert lines[n] in lines && forall k | k in lines[..n] :: k in lines;
      ChargesStep(lines, items, charge);
      ChargesRecords(lines[..n], items, charge);
      hide Charges, FindItem, QuotedItems;
      SameLinesNext(Charges(lines[..n], items, charge).value, Charges(lines, items, charge).value[n], lines);
    }
  }

  lemma QuotedNonNegative(items: seq<Item>)
    requires QuotedItems(items)
    ensures forall i | i in items :: 0 <= i.quoted
  {
    forall i | i in items
      ensures 0 <= i.quoted
    {
      assert QuoteUsage(i.meter, i.maximumUnits) == Ok(i.quoted);
    }
  }

  /** Linearity of the price table: what is charged never exceeds what was quoted. */
  lemma {:induction false} ChargesWithinQuotes(lines: seq<UsageLine>, items: seq<Item>, charge: bool)
    requires QuotedItems(items)
    requires forall l | l in lines :: FindItem(items, l.meter).Some? && 0 <= l.actualUnits
    requires forall i, j | 0 <= i < j < |lines| :: lines[i].meter != lines[j].meter
    requires Charges(lines, items, charge).Ok?
    ensures 0 <= SumOf(Charges(lines, items, charge).value, ChargedOf) <= QuotedIn(items, LineMeters(lines))
  {
    QuotedNonNegative(items);
    hide QuotedItems;
    if lines == [] {
      QuotedInGrows(items, {}, {});
      assert LineMeters(lines) == {};
    } else {
      var n := |lines| - 1;
      var init, l := lines[..n], lines[n];
      assert l in lines && forall k | k in init :: k in lines;
      ChargesWithinQuotes(init, items, charge);
      ChargesStep(lines, items, charge);
      hide Charges, SumOf, QuotedIn, FindItem, QuoteUsage, Rate;
      assert LineMeters(lines) == LineMeters(init) + {l.meter};
      assert l.meter !in LineMeters(init);
      QuotedInAdd(items, LineMeters(init), FindItem(items, l.meter).value);
      SumOfAppend(Charges(init, items, charge).value, Charges(lines, items, charge).value[n], ChargedOf);
    }
  }

  /** The explicit comparison with the hold can therefore never refuse. */
  lemma ChargesWithinHold(r: Reservation, lines: seq<UsageLine>, charge: bool)
    requires ItemsOk(r)
    requires forall l | l in lines :: FindItem(r.items, l.meter).Some? && 0 <= l.actualUnits
    requires forall i, j | 0 <= i < j < |lines| :: lines[i].meter != lines[j].meter
    requires Charges(lines, r.items, charge).Ok?
    ensures 0 <= SumOf(Charges(lines, r.items, charge).value, ChargedOf) <= r.total
  {
    assert QuotedItems(r.items);
    ChargesWithinQuotes(lines, r.items, charge);
    forall i | i in r.items
      ensures 0 <= i.quoted
    {
      assert QuoteUsage(i.meter, i.maximumUnits) == Ok(i.quoted);
    }
    QuotedInGrows(r.items, LineMeters(lines), LineMeters(lines));
  }

  /** Pricing itself cannot fail: a report within the reserved units is always priced. */
  lemma {:induction false} ChargesSucceed(lines: seq<UsageLine>, items: seq<Item>, charge: bool)
    requires QuotedItems(items)
    requires forall l | l in lines :: FindItem(items, l.meter).Some? && 0 <= l.actualUnits <= items[FindItem(items, l.meter).value].maximumUnits
    ensures Charges(lines, items, charge).Ok?
  {
    if lines != [] {
      var init, l := lines[..|lines| - 1], lines[|lines| - 1];
      assert l in lines && forall k | k in init :: k in lines;
      ChargesSucceed(init, items, charge);
      var row := FindItem(items, l.meter).value;
      assert items[row] in items;
      QuoteLinear(l.meter, l.actualUnits, items[row].maximumUnits - l.actualUnits);
    }
  }

  // ---------------------------------------------------------------- discharge

  lemma {:induction false} RemainingIs(allocations: seq<Allocation>, consumed: int, n: nat)
    requires n <= |allocations| && 0 <= consumed
    requires forall a | a in allocations :: 0 < a.amount
    ensures var taken := SumOf(allocations[..n], AmountOf);
            Remaining(allocations, consumed, n) == if consumed <= taken then 0 else consumed - taken
    ensures 0 <= SumOf(allocations[..n], AmountOf)
  {
    if n > 0 {
      RemainingIs(allocations, consumed, n - 1);
      assert allocations[..n] == allocations[..n - 1] + [allocations[n - 1]];
      SumOfAppend(allocations[..n - 1], allocations[n - 1], AmountOf);
      assert allocations[n - 1] in allocations;
    }
  }

  lemma SpentBounds(allocations: seq<Allocation>, consumed: int, n: nat)
    requires n < |allocations| && 0 <= consumed
    requires forall a | a in allocations :: 0 < a.amount
    ensures 0 <= SpentAt(allocations, consumed, n) <= allocations[n].amount
  {
    RemainingIs(allocations, consumed, n);
    assert allocations[n] in allocations;
  }

  /** The closing event of the `i`-th allocation. */
  function TerminalEventAt(grants: seq<Grant>, allocations: seq<Allocation>, consumed: int, rid: nat, now: int, charge: bool, i: nat): Event
    requires i < |allocations| && allocations[i].grant < |grants|
  {
    TerminalEventOf(allocations[i], SpentAt(allocations, consumed, i), grants[allocations[i].grant].ExpiredAt(now), rid, now, charge)
  }

  /** The events that close a reservation, one per allocation. */
  function TerminalEvents(grants: seq<Grant>, allocations: seq<Allocation>, consumed: int, rid: nat, now: int, charge: bool, n: nat)
    : (es: seq<Event>)
    requires n <= |allocations|
    requires forall a | a in allocations :: a.grant < |grants|
    ensures |es| == n
    ensures forall i | 0 <= i < n :: es[i] == TerminalEventAt(grants, allocations, consumed, rid, now, charge, i)
  {
    if n == 0 then []
    else
      TerminalEvents(grants, allocations, consumed, rid, now, charge, n - 1)
      + [TerminalEventAt(grants, allocations, consumed, rid, now, charge, n - 1)]
  }

  ghost predicate CanClose(s: State, rid: nat, consumed: int, now: int) {
    && s.account.Some? && AsOf(s) <= now
    && rid < |s.reservations| && s.reservations[rid].Held()
    && 0 <= consumed <= s.reservations[rid].total
  }

  /** Neither the `reserved < held` guard nor the overflow guard of the loop can fire. */
  lemma {:induction false} DischargeSucceeds(s: State, rid: nat, consumed: int, now: int, charge: bool, n: nat)
    requires Core(s) && CanClose(s, rid, consumed, now) && n <= |s.reservations[rid].allocations|
    ensures var allocations := s.reservations[rid].allocations;
            && (forall a | a in allocations :: a.grant < |s.book.grants|)
            && var es := TerminalEvents(s.book.grants, allocations, consumed, rid, now, charge, n);
            && Posts(es, s.book.grants)
            && Discharge(s.book, allocations, consumed, rid, now, charge, n) == Ok(PostAll(s.book, es))
  {
    hide Core, Discharge, PostAll, TerminalEvents, Posts, SpentAt;
    var allocations := s.reservations[rid].allocations;
    AllocationRowsExist(s, rid);
    if n == 0 {
      DischargeNothing(s.book, allocations, consumed, rid, now, charge);
    } else {
      DischargeSucceeds(s, rid, consumed, now, charge, n - 1);
      var es := TerminalEvents(s.book.grants, allocations, consumed, rid, now, charge, n - 1);
      DischargeStep(s, rid, consumed, now, charge, n, PostAll(s.book, es));
      DischargeAppend(s.book, allocations, consumed, rid, now, charge, n);
    }
  }

  lemma DischargeNothing(b: Book, allocations: seq<Allocation>, consumed: int, rid: nat, now: int, charge: bool)
    requires forall a | a in allocations :: a.grant < |b.grants|
    ensures var es := TerminalEvents(b.grants, allocations, consumed, rid, now, charge, 0);
            Posts(es, b.grants) && Discharge(b, allocations, consumed, rid, now, charge, 0) == Ok(PostAll(b, es))
  {
  }

  lemma AllocationRowsExist(s: State, rid: nat)
    requires Core(s) && rid < |s.reservations|
    ensures forall a | a in s.reservations[rid].allocations :: a.grant < |s.book.grants|
  {
    assert ReservationOk(s, s.reservations[rid]);
  }

  lemma DischargeAppend(b: Book, allocations: seq<Allocation>, consumed: int, rid: nat, now: int, charge: bool, n: nat)
    requires 0 < n <= |allocations|
    requires forall a | a in allocations :: a.grant < |b.grants|
    requires Posts(TerminalEvents(b.grants, allocations, consumed, rid, now, charge, n - 1), b.grants)
    ensures var es := TerminalEvents(b.grants, allocations, consumed, rid, now, charge, n);
            var init := TerminalEvents(b.grants, allocations, consumed, rid, now, charge, n - 1);
            && Posts(es, b.grants)
            && es[n - 1] == TerminalEventAt(b.grants, allocations, consumed, rid, now, charge, n - 1)
            && PostAll(b, es) == Post(PostAll(b, init), es[n - 1])
  {
    var init := TerminalEvents(b.grants, allocations, consumed, rid, now, charge, n - 1);
    var es := TerminalEvents(b.grants, allocations, consumed, rid, now, charge, n);
    assert allocations[n - 1] in allocations;
    assert es == init + [es[n - 1]];
    PostAllAppend(b, init, es[n - 1]);
  }

  /** The grant of the next allocation has not been touched by the earlier ones. */
  lemma UntouchedYet(b: Book, r: Reservation, consumed: int, rid: nat, now: int, charge: bool, n: nat)
    requires 0 < n <= |r.allocations| && AllocationsOk(r, |b.grants|)
    requires var es := TerminalEvents(b.grants, r.allocations, consumed, rid, now, charge, n - 1); Posts(es, b.grants)
    ensures var g := r.allocations[n - 1].grant;
            var es := TerminalEvents(b.grants, r.allocations, consumed, rid, now, charge, n - 1);
            g < |b.grants| && PostAll(b, es).grants[g] == b.grants[g]
  {
    hide Totals;
    var g := r.allocations[n - 1].grant;
    assert r.allocations[n - 1] in r.allocations;
    var es := TerminalEvents(b.grants, r.allocations, consumed, rid, now, charge, n - 1);
    PostAllEffect(b, es);
    forall e | e in es
      ensures e.grant != g
    {
      var i :| 0 <= i < |es| && es[i] == e;
    }
    TotalsAbsent(es, g);
    PlusZero(b.grants[g].counters);
  }

  /** A held reservation's allocations are still held by their grants. */
  lemma HoldCovered(s: State, rid: nat, i: nat)
    requires Core(s)
    requires rid < |s.reservations| && s.reservations[rid].Held() && i < |s.reservations[rid].allocations|
    ensures var a := s.reservations[rid].allocations[i];
            a.grant < |s.book.grants| && 0 < a.amount <= s.book.grants[a.grant].counters.reserved
  {
    hide HeldOn, AllocationsOn;
    var r := s.reservations[rid];
    assert ReservationOk(s, r);
    assert r.allocations[i] in r.allocations;
    ReservationsPositive(s);
    HeldOnCovers(s.reservations, rid, r.allocations[i].grant);
    AllocationsSingle(r.allocations, i);
  }

  lemma DischargeStep(s: State, rid: nat, consumed: int, now: int, charge: bool, n: nat, p: Book)
    requires Core(s) && CanClose(s, rid, consumed, now) && 0 < n <= |s.reservations[rid].allocations|
    requires forall a | a in s.reservations[rid].allocations :: a.grant < |s.book.grants|
    requires var allocations := s.reservations[rid].allocations;
             var es := TerminalEvents(s.book.grants, allocations, consumed, rid, now, charge, n - 1);
             && Posts(es, s.book.grants) && p == PostAll(s.book, es)
             && Discharge(s.book, allocations, consumed, rid, now, charge, n - 1) == Ok(p)
    ensures var allocations := s.reservations[rid].allocations;
            var a := allocations[n - 1];
            && a.grant < |p.grants|
            && Discharge(s.book, allocations, consumed, rid, now, charge, n)
               == Ok(Post(p, TerminalEventOf(a, SpentAt(allocations, consumed, n - 1), s.book.grants[a.grant].ExpiredAt(now), rid, now, charge)))
  {
    hide Core, HoldsOk, GrantsOk, ItemsOk, TerminalOk, PostAll, TerminalEvents, SpentAt;
    RowOk(s, rid);
    var r := s.reservations[rid];
    var a := r.allocations[n - 1];
    UntouchedYet(s.book, r, consumed, rid, now, charge, n);
    HoldCovered(s, rid, n - 1);
    SpentBounds(r.allocations, consumed, n - 1);
    GrantBounded(s, a.grant);
  }

  lemma GrantBounded(s: State, g: nat)
    requires Core(s) && g < |s.book.grants|
    ensures s.book.grants[g].counters.Balanced() && s.book.grants[g].counters.granted <= MAX_BIGINT
  {
    assert GrantOk(s, s.book.grants[g]);
  }

  lemma ReservationsPositive(s: State)
    requires ReservationsOk(s)
    ensures forall r | r in s.reservations :: forall a | a in r.allocations :: 0 <= a.amount
  {
    forall r | r in s.reservations
      ensures forall a | a in r.allocations :: 0 <= a.amount
    {
      var i :| 0 <= i < |s.reservations| && s.reservations[i] == r;
      assert ReservationOk(s, s.reservations[i]);
    }
  }

  /** After the loop nothing is left to spend. */
  lemma NothingLeft(s: State, rid: nat, consumed: int, now: int)
    requires Core(s) && CanClose(s, rid, consumed, now)
    ensures var allocations := s.reservations[rid].allocations; Remaining(allocations, consumed, |allocations|) == 0
  {
    var r := s.reservations[rid];
    assert ReservationOk(s, r);
    RemainingIs(r.allocations, consumed, |r.allocations|);
    assert r.allocations[..|r.allocations|] == r.allocations;
  }

  // ---------------------------------------------------------------- closing keeps the invariant

  /** The state after a held reservation has been closed with `consumed` spent. */
  ghost function Closed(s: State, rid: nat, closing: Terminal, consumed: int, now: int, charge: bool): State
    requires rid < |s.reservations|
    requires forall a | a in s.reservations[rid].allocations :: a.grant < |s.book.grants|
  {
    var r := s.reservations[rid];
    s.(reservations := s.reservations[rid := r.(terminal := Some(closing))],
       book := PostAll(s.book, TerminalEvents(s.book.grants, r.allocations, consumed, rid, now, charge, |r.allocations|)))
  }

  ghost predicate ClosesWith(s: State, rid: nat, closing: Terminal, consumed: int, now: int, charge: bool) {
    && CanClose(s, rid, consumed, now)
    && closing.at == now && closing.settled == charge
    && consumed == SumOf(closing.records, ChargedOf)
    && (charge <==> !closing.delivery.NoDeliverable?) && (charge <==> closing.reason.UsageSettled?)
    && (charge ==> 0 < consumed) && (!charge ==> consumed == 0)
    && (forall u | u in closing.records :: 0 <= u.actualUnits && 0 <= u.charged <= MAX_BIGINT && (!charge ==> u.charged == 0))
    && (forall i, j | 0 <= i < j < |closing.records| :: closing.records[i].meter != closing.records[j].meter)
    && (forall i | 0 <= i < |s.reservations| && s.reservations[i].terminal.Some? :: s.reservations[i].terminal.value.key != closing.key)
  }

  lemma RowOk(s: State, rid: nat)
    requires Core(s) && rid < |s.reservations|
    ensures ReservationOk(s, s.reservations[rid]) && LedgerOk(s)
  {
  }

  /** Effect on one grant: the hold goes, what was spent is consumed, and the rest is available again or expired. */
  lemma ClosedGrant(s: State, rid: nat, consumed: int, now: int, charge: bool, g: nat)
    requires Core(s) && CanClose(s, rid, consumed, now) && g < |s.book.grants|
    ensures forall a | a in s.reservations[rid].allocations :: a.grant < |s.book.grants|
    ensures var allocations := s.reservations[rid].allocations;
            var d := Totals(TerminalEvents(s.book.grants, allocations, consumed, rid, now, charge, |allocations|), g);
            && d.granted == 0
            && d.reserved == -AllocationsOn(allocations, g)
            && 0 <= d.consumed <= AllocationsOn(allocations, g)
            && d.expired == (if s.book.grants[g].ExpiredAt(now) then AllocationsOn(allocations, g) - d.consumed else 0)
  {
    hide Core, Totals, AllocationsOn, SumOf;
    RowOk(s, rid);
    var allocations := s.reservations[rid].allocations;
    var es := TerminalEvents(s.book.grants, allocations, consumed, rid, now, charge, |allocations|);
    if i :| 0 <= i < |allocations| && allocations[i].grant == g {
      TotalsSingle(es, i);
      AllocationsSingle(allocations, i);
      SpentBounds(allocations, consumed, i);
    } else {
      AllocationsAbsent(allocations, g);
      TotalsAbsent(es, g);
    }
  }

  lemma ClosedGrants(s: State, rid: nat, closing: Terminal, consumed: int, now: int, charge: bool)
    requires Core(s) && ClosesWith(s, rid, closing, consumed, now, charge)
    requires forall a | a in s.reservations[rid].allocations :: a.grant < |s.book.grants|
    ensures var t := Closed(s, rid, closing, consumed, now, charge); GrantsOk(t) && NoResurrection(t) && HoldsOk(t)
  {
    hide Totals, HeldOn, AllocationsOn, PostAll, LedgerOk, Bases, Latest, SumOf;
    var r := s.reservations[rid];
    var t := Closed(s, rid, closing, consumed, now, charge);
    var es := TerminalEvents(s.book.grants, r.allocations, consumed, rid, now, charge, |r.allocations|);
    PostedBook(s.book, es);
    forall g | 0 <= g < |t.book.grants|
      ensures GrantOk(t, t.book.grants[g])
      ensures t.book.grants[g].ExpiredAt(AsOf(t)) ==> t.book.grants[g].counters.Available() == 0
      ensures t.book.grants[g].counters.reserved == HeldOn(t.reservations, g)
    {
      assert GrantOk(s, s.book.grants[g]);
      ClosedGrant(s, rid, consumed, now, charge, g);
      HeldOnUpdate(s.reservations, rid, t.reservations[rid], g);
      ReservationsPositive(s);
      HeldOnCovers(s.reservations, rid, g);
    }
    forall c | 0 <= c < |t.cycles|
      ensures |Bases(t.book.grants, c)| == 1
    {
      assert Bases(t.book.grants, c) == Bases(s.book.grants, c);
    }
  }

  lemma ClosedLedger(s: State, rid: nat, closing: Terminal, consumed: int, now: int, charge: bool)
    requires Core(s) && ClosesWith(s, rid, closing, consumed, now, charge)
    requires forall a | a in s.reservations[rid].allocations :: a.grant < |s.book.grants|
    ensures LedgerOk(Closed(s, rid, closing, consumed, now, charge))
  {
    hide Core, SumOf, Totals, LedgerOk, LedgerBalances, ItemsOk, TerminalOk;
    RowOk(s, rid);
    var r := s.reservations[rid];
    var t := Closed(s, rid, closing, consumed, now, charge);
    var es := TerminalEvents(s.book.grants, r.allocations, consumed, rid, now, charge, |r.allocations|);
    PostedBook(s.book, es);
    KeysFrame(s, t);
    hide HeldOn, AllocationsOn, PostAll, Bases, Latest, SumOf, GrantsOk, HoldsOk, NoResurrection, CyclesOk, OperationsOk, KeyOk, ShapeOk;
    ClosedEvents(s, t, rid, consumed, now, charge);
    PostedLedger(s, t, es);
  }

  lemma ClosedBalance(s: State, rid: nat, closing: Terminal, consumed: int, now: int, charge: bool)
    requires LedgerOk(s) && BoundedBalance(s) && ClosesWith(s, rid, closing, consumed, now, charge)
    requires AllocationsOk(s.reservations[rid], |s.book.grants|)
    requires forall a | a in s.reservations[rid].allocations :: a.grant < |s.book.grants|
    ensures BoundedBalance(Closed(s, rid, closing, consumed, now, charge))
  {
    var r := s.reservations[rid];
    var t := Closed(s, rid, closing, consumed, now, charge);
    var es := TerminalEvents(s.book.grants, r.allocations, consumed, rid, now, charge, |r.allocations|);
    hide Totals, PostAll, SumOf, LedgerOk, KeyOk, ShapeOk;
    ClosedEvents(s, t, rid, consumed, now, charge);
    PostAllOutstanding(s.book, es);
    NegativeSum(es);
  }

  /** The closing events are well shaped, under keys never used before. */
  lemma ClosedEvents(s: State, t: State, rid: nat, consumed: int, now: int, charge: bool)
    requires LedgerOk(s) && CanClose(s, rid, consumed, now) && (!charge ==> consumed == 0)
    requires AllocationsOk(s.reservations[rid], |s.book.grants|)
    requires rid < |t.reservations| && t.reservations[rid].terminal.Some?
    ensures forall a | a in s.reservations[rid].allocations :: a.grant < |s.book.grants|
    ensures var allocations := s.reservations[rid].allocations;
            var es := TerminalEvents(s.book.grants, allocations, consumed, rid, now, charge, |allocations|);
            && (forall e | e in es :: ShapeOk(e) && KeyOk(t, e) && e.delta.Outstanding() <= 0)
            && (forall e, f | e in es && f in s.book.ledger :: Ident(e) != Ident(f))
  {
    var r := s.reservations[rid];
    var es := TerminalEvents(s.book.grants, r.allocations, consumed, rid, now, charge, |r.allocations|);
    forall i | 0 <= i < |es|
      ensures ShapeOk(es[i]) && KeyOk(t, es[i]) && es[i].delta.Outstanding() <= 0
      ensures es[i].key == TerminalOf(rid)
    {
      var a := r.allocations[i];
      SpentBounds(r.allocations, consumed, i);
      SpentNothing(r.allocations, consumed, i);
      ClosedEvent(t, a, SpentAt(r.allocations, consumed, i), s.book.grants[a.grant].ExpiredAt(now), rid, now, charge);
    }
    forall e, f | e in es && f in s.book.ledger
      ensures Ident(e) != Ident(f)
    {
      assert KeyOk(s, f);
      var i :| 0 <= i < |es| && es[i] == e;
    }
  }

  lemma ClosedEvent(t: State, a: Allocation, spent: int, expired: bool, rid: nat, now: int, charge: bool)
    requires 0 < a.amount && 0 <= spent <= a.amount && (!charge ==> spent == 0)
    requires rid < |t.reservations| && t.reservations[rid].terminal.Some?
    ensures var e := TerminalEventOf(a, spent, expired, rid, now, charge);
            ShapeOk(e) && KeyOk(t, e) && e.delta.Outstanding() <= 0
  {
  }

  lemma SpentNothing(allocations: seq<Allocation>, consumed: int, n: nat)
    requires n < |allocations| && 0 <= consumed
    requires forall a | a in allocations :: 0 < a.amount
    ensures consumed == 0 ==> SpentAt(allocations, consumed, n) == 0
  {
    RemainingIs(allocations, consumed, n);
    assert allocations[n] in allocations;
  }

  lemma ClosedReservations(s: State, rid: nat, closing: Terminal, consumed: int, now: int, charge: bool)
    requires ReservationsOk(s) && ClosesWith(s, rid, closing, consumed, now, charge)
    requires forall a | a in s.reservations[rid].allocations :: a.grant < |s.book.grants|
    ensures ReservationsOk(Closed(s, rid, closing, consumed, now, charge))
  {
    hide PostAll, SumOf;
    var t := Closed(s, rid, closing, consumed, now, charge);
    forall i | 0 <= i < |t.reservations|
      ensures ReservationOk(t, t.reservations[i])
    {
      assert ReservationOk(s, s.reservations[i]);
    }
  }

  lemma ClosedCore(s: State, rid: nat, closing: Terminal, consumed: int, now: int, charge: bool)
    requires Core(s) && ClosesWith(s, rid, closing, consumed, now, charge)
    ensures forall a | a in s.reservations[rid].allocations :: a.grant < |s.book.grants|
    ensures var t := Closed(s, rid, closing, consumed, now, charge); Core(t) && (Started(s) ==> Started(t))
  {
    assert ReservationOk(s, s.reservations[rid]);
    var t := Closed(s, rid, closing, consumed, now, charge);
    ClosedGrants(s, rid, closing, consumed, now, charge);
    ClosedLedger(s, rid, closing, consumed, now, charge);
    ClosedBalance(s, rid, closing, consumed, now, charge);
    ClosedReservations(s, rid, closing, consumed, now, charge);
    CyclesFrame(s, t);
    OperationsFrame(s, t);
    hide GrantsOk, NoResurrection, HoldsOk, ReservationsOk, LedgerOk, BoundedBalance, CyclesOk, OperationsOk, PostAll;
  }
}
