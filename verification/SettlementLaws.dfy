/** Conservation of a hold, and the order of two terminal calls. */
module SettlementLaws {
  import opened Prelude
  import opened Sorting
  import opened CreditRecords
  import opened CreditAccounting
  import opened CreditInvariant
  import opened AccountingInvariant
  import opened SettlementInvariant
  import opened TerminalCalls

  function ConsumedOf(g: Grant): int {
    g.counters.consumed
  }

  function ExpiredOf(g: Grant): int {
    g.counters.expired
  }

  function DeltaAvailable(e: Event): int {
    e.delta.Available()
  }

  function DeltaReserved(e: Event): int {
    e.delta.reserved
  }

  function DeltaConsumed(e: Event): int {
    e.delta.consumed
  }

  function DeltaExpired(e: Event): int {
    e.delta.expired
  }

  /** Any measure that is additive in the counters moves by the sum of the posted deltas. */
  lemma {:induction false} PostAllSum(b: Book, es: seq<Event>, f: Grant -> int, h: Event -> int)
    requires Posts(es, b.grants)
    requires forall g: Grant, e: Event :: f(g.Add(e.delta)) == f(g) + h(e)
    ensures SumOf(PostAll(b, es).grants, f) == SumOf(b.grants, f) + SumOf(es, h)
  {
    if es != [] {
      var init, e := es[..|es| - 1], es[|es| - 1];
      PostAllSum(b, init, f, h);
      var p := PostAll(b, init);
      SumOfUpdate(p.grants, e.grant, p.grants[e.grant].Add(e.delta), f);
    }
  }

  ghost predicate SumsOf(es: seq<Event>, allocations: seq<Allocation>, consumed: int, n: nat)
    requires n <= |allocations|
  {
    && SumOf(es, DeltaConsumed) == consumed - Remaining(allocations, consumed, n)
    && SumOf(es, DeltaReserved) == -SumOf(allocations[..n], AmountOf)
    && SumOf(es, DeltaAvailable) + SumOf(es, DeltaExpired) + SumOf(es, DeltaConsumed) == SumOf(allocations[..n], AmountOf)
  }

  /** What the closing events move: the whole hold leaves `reserved`, `consumed` is spent, the rest is available or expired. */
  lemma {:induction false} TerminalEventSums(grants: seq<Grant>, allocations: seq<Allocation>, consumed: int, rid: nat, now: int, charge: bool, n: nat)
    requires n <= |allocations|
    requires forall a | a in allocations :: a.grant < |grants|
    ensures SumsOf(TerminalEvents(grants, allocations, consumed, rid, now, charge, n), allocations, consumed, n)
  {
    if n == 0 {
      assert allocations[..0] == [];
    } else {
      assert allocations[n - 1] in allocations;
      TerminalEventSums(grants, allocations, consumed, rid, now, charge, n - 1);
      var init := TerminalEvents(grants, allocations, consumed, rid, now, charge, n - 1);
      SumsStep(init, allocations, consumed, grants[allocations[n - 1].grant].ExpiredAt(now), rid, now, charge, n);
      hide SumsOf;
    }
  }

  lemma SumsStep(init: seq<Event>, allocations: seq<Allocation>, consumed: int, expired: bool, rid: nat, now: int, charge: bool, n: nat)
    requires 0 < n <= |allocations| && SumsOf(init, allocations, consumed, n - 1)
    ensures var a := allocations[n - 1];
            SumsOf(init + [TerminalEventOf(a, SpentAt(allocations, consumed, n - 1), expired, rid, now, charge)], allocations, consumed, n)
  {
    var a := allocations[n - 1];
    EventDeltas(a, SpentAt(allocations, consumed, n - 1), expired, rid, now, charge);
    hide SumOf, TerminalEventOf;
    PrefixSum(allocations, n);
    EventSums(init, TerminalEventOf(a, SpentAt(allocations, consumed, n - 1), expired, rid, now, charge));
  }

  lemma PrefixSum(allocations: seq<Allocation>, n: nat)
    requires 0 < n <= |allocations|
    ensures SumOf(allocations[..n], AmountOf) == SumOf(allocations[..n - 1], AmountOf) + allocations[n - 1].amount
  {
    assert allocations[..n] == allocations[..n - 1] + [allocations[n - 1]];
    SumOfAppend(allocations[..n - 1], allocations[n - 1], AmountOf);
  }

  lemma EventSums(es: seq<Event>, e: Event)
    ensures SumOf(es + [e], DeltaConsumed) == SumOf(es, DeltaConsumed) + e.delta.consumed
    ensures SumOf(es + [e], DeltaReserved) == SumOf(es, DeltaReserved) + e.delta.reserved
    ensures SumOf(es + [e], DeltaAvailable) == SumOf(es, DeltaAvailable) + e.delta.Available()
    ensures SumOf(es + [e], DeltaExpired) == SumOf(es, DeltaExpired) + e.delta.expired
  {
    SumOfAppend(es, e, DeltaConsumed);
    SumOfAppend(es, e, DeltaReserved);
    SumOfAppend(es, e, DeltaAvailable);
    SumOfAppend(es, e, DeltaExpired);
  }

  lemma EventDeltas(a: Allocation, spent: int, expired: bool, rid: nat, now: int, charge: bool)
    ensures var d := TerminalEventOf(a, spent, expired, rid, now, charge).delta;
            d.consumed == spent && d.reserved == -a.amount && d.Available() + d.expired + d.consumed == a.amount
  {
  }

  /**
   * Settlement conserves the hold: it leaves `reserved` whole, what is charged
   * is consumed, and the released rest is exactly what becomes available again
   * plus what expires at once. Nothing is granted.
   */
  lemma SettlementConserves(s: State, rid: nat, lines: seq<UsageLine>, delivery: Delivery, reason: Reason, key: Key, now: int, charge: bool)
    requires Core(s) && s.account.Some? && ValidLines(lines, true)
    requires (charge <==> !delivery.NoDeliverable?) && (charge <==> reason.UsageSettled?)
    requires FindTerminal(s.reservations, key).None?
    requires Close(s, rid, lines, delivery, reason, key, now, charge).Ok?
    ensures var (t, receipt) := Close(s, rid, lines, delivery, reason, key, now, charge).value;
            && rid < |s.reservations|
            && var total := s.reservations[rid].total;
            && receipt.consumed + receipt.released == total && 0 <= receipt.consumed && 0 <= receipt.released
            && SumOf(t.book.grants, ReservedOf) == SumOf(s.book.grants, ReservedOf) - total
            && SumOf(t.book.grants, ConsumedOf) == SumOf(s.book.grants, ConsumedOf) + receipt.consumed
            && (SumOf(t.book.grants, AvailableOf) - SumOf(s.book.grants, AvailableOf))
               + (SumOf(t.book.grants, ExpiredOf) - SumOf(s.book.grants, ExpiredOf)) == receipt.released
  {
    CloseTotal(s, rid, lines, delivery, reason, key, now, charge);
    CloseEffect(s, rid, lines, delivery, reason, key, now, charge);
    var r := s.reservations[rid];
    assert SumOf(r.allocations, AmountOf) == r.total by {
      assert ReservationOk(s, r);
    }
    var consumed := Close(s, rid, lines, delivery, reason, key, now, charge).value.1.consumed;
    NothingLeft(s, rid, consumed, now);
    hide Core, Close, Charges, Closable, Remaining, SumOf, PostAll;
    var es := TerminalEvents(s.book.grants, r.allocations, consumed, rid, now, charge, |r.allocations|);
    TerminalEventSums(s.book.grants, r.allocations, consumed, rid, now, charge, |r.allocations|);
    assert r.allocations[..|r.allocations|] == r.allocations;
    PostAllSum(s.book, es, ReservedOf, DeltaReserved);
    PostAllSum(s.book, es, ConsumedOf, DeltaConsumed);
    PostAllSum(s.book, es, AvailableOf, DeltaAvailable);
    PostAllSum(s.book, es, ExpiredOf, DeltaExpired);
  }

  // ---------------------------------------------------------------- two terminal calls

  /** The parameters of one terminal call. */
  datatype Ending = Ending(rid: nat, lines: seq<UsageLine>, delivery: Delivery, reason: Reason, key: Key, now: int, charge: bool)

  ghost predicate Proper(s: State, x: Ending) {
    && ValidLines(x.lines, true)
    && (x.charge <==> !x.delivery.NoDeliverable?) && (x.charge <==> x.reason.UsageSettled?)
    && FindTerminal(s.reservations, x.key).None?
    && Closable(s, x.rid, x.lines, x.now, x.charge)
  }

  function CloseBy(s: State, x: Ending): Result<(State, TerminalReceipt), CreditError>
    requires s.account.Some?
  {
    Close(s, x.rid, x.lines, x.delivery, x.reason, x.key, x.now, x.charge)
  }

  /** What closing reads of a reservation and of its grants' expiry. */
  ghost function EventsBy(grants: seq<Grant>, r: Reservation, x: Ending): seq<Event>
    requires forall a | a in r.allocations :: a.grant < |grants|
    requires forall l | l in x.lines :: FindItem(r.items, l.meter).Some?
    requires Charges(x.lines, r.items, x.charge).Ok?
  {
    TerminalEvents(grants, r.allocations, SumOf(Charges(x.lines, r.items, x.charge).value, ChargedOf), x.rid, x.now, x.charge, |r.allocations|)
  }

  function TerminalBy(r: Reservation, x: Ending): Terminal
    requires forall l | l in x.lines :: FindItem(r.items, l.meter).Some?
    requires Charges(x.lines, r.items, x.charge).Ok?
  {
    Closing(x.lines, r.items, x.delivery, x.reason, x.key, x.now, x.charge)
  }

  lemma CloseByEffect(s: State, x: Ending)
    requires Core(s) && s.account.Some? && Proper(s, x)
    ensures var r := s.reservations[x.rid];
            && (forall l | l in x.lines :: FindItem(r.items, l.meter).Some?)
            && Charges(x.lines, r.items, x.charge).Ok?
            && (forall a | a in r.allocations :: a.grant < |s.book.grants|)
            && CloseBy(s, x).Ok?
            && Posts(EventsBy(s.book.grants, r, x), s.book.grants)
            && CloseBy(s, x).value.0
               == s.(reservations := s.reservations[x.rid := r.(terminal := Some(TerminalBy(r, x)))],
                     book := PostAll(s.book, EventsBy(s.book.grants, r, x)))
            && Core(CloseBy(s, x).value.0)
  {
    CloseEffect(s, x.rid, x.lines, x.delivery, x.reason, x.key, x.now, x.charge);
    var r := s.reservations[x.rid];
    var closing := TerminalBy(r, x);
    ClosedCore(s, x.rid, closing, SumOf(closing.records, ChargedOf), x.now, x.charge);
  }

  lemma {:induction false} EventsSameExpiry(xs: seq<Grant>, ys: seq<Grant>, allocations: seq<Allocation>, consumed: int, rid: nat, now: int, charge: bool, n: nat)
    requires n <= |allocations| && |xs| == |ys|
    requires forall a | a in allocations :: a.grant < |xs|
    requires forall g | 0 <= g < |xs| :: xs[g].expiresAt == ys[g].expiresAt
    ensures TerminalEvents(xs, allocations, consumed, rid, now, charge, n) == TerminalEvents(ys, allocations, consumed, rid, now, charge, n)
  {
    if n > 0 {
      EventsSameExpiry(xs, ys, allocations, consumed, rid, now, charge, n - 1);
      assert allocations[n - 1] in allocations;
    }
  }

  /** After one reservation is closed, the other can still be closed, with the same events. */
  lemma StillProper(s: State, x: Ending, y: Ending)
    requires Core(s) && s.account.Some? && Proper(s, x) && Proper(s, y)
    requires x.rid != y.rid && x.key != y.key
    ensures CloseBy(s, x).Ok?
    ensures var t := CloseBy(s, x).value.0;
            && Core(t) && t.account == s.account && Proper(t, y)
            && t.reservations[y.rid] == s.reservations[y.rid]
            && |t.book.grants| == |s.book.grants|
            && forall g | 0 <= g < |s.book.grants| :: t.book.grants[g].expiresAt == s.book.grants[g].expiresAt
  {
    hide Core;
    CloseByEffect(s, x);
    var r := s.reservations[x.rid];
    var t := CloseBy(s, x).value.0;
    PostAllEffect(s.book, EventsBy(s.book.grants, r, x));
    hide Close, Charges, PostAll, TerminalEvents, FindItem, SumOf;
    FindTerminalStep(s.reservations, x.rid, TerminalBy(r, x), y.key);
  }

  lemma FindTerminalStep(rs: seq<Reservation>, i: nat, closing: Terminal, key: Key)
    requires i < |rs| && FindTerminal(rs, key).None? && closing.key != key
    ensures FindTerminal(rs[i := rs[i].(terminal := Some(closing))], key).None?
  {
    var qs := rs[i := rs[i].(terminal := Some(closing))];
    var found := FindTerminal(qs, key);
    assert forall k | 0 <= k < |rs| && k != i :: qs[k] == rs[k];
  }

  /**
   * Terminal calls on two different held reservations commute: both orders
   * succeed and leave the same grants and the same reservation rows, and the
   * ledger differs only in the order of its events.
   */
  lemma TerminalCallsCommute(s: State, x: Ending, y: Ending)
    requires Core(s) && s.account.Some? && Proper(s, x) && Proper(s, y)
    requires x.rid != y.rid && x.key != y.key
    ensures CloseBy(s, x).Ok? && CloseBy(s, y).Ok?
    ensures var a, b := CloseBy(s, x).value.0, CloseBy(s, y).value.0;
            && a.account.Some? && b.account.Some?
            && CloseBy(a, y).Ok? && CloseBy(b, x).Ok?
            && var u, v := CloseBy(a, y).value.0, CloseBy(b, x).value.0;
            && u.book.grants == v.book.grants
            && u.reservations == v.reservations
            && multiset(u.book.ledger) == multiset(v.book.ledger)
  {
    hide Core, Proper, Close, CloseBy, Charges, PostAll, TerminalEvents, FindItem, SumOf, EventsBy, TerminalBy;
    ProperRows(s, x);
    ProperRows(s, y);
    StillProper(s, x, y);
    StillProper(s, y, x);
    var a, b := CloseBy(s, x).value.0, CloseBy(s, y).value.0;
    CloseByEffect(s, x);
    CloseByEffect(s, y);
    CloseByEffect(a, y);
    CloseByEffect(b, x);
    var r, q := s.reservations[x.rid], s.reservations[y.rid];
    SameEvents(s.book.grants, a.book.grants, q, y);
    SameEvents(s.book.grants, b.book.grants, r, x);
    PostingsCommute(s.book, EventsBy(s.book.grants, r, x), EventsBy(s.book.grants, q, y));
    assert s.reservations[x.rid := r.(terminal := Some(TerminalBy(r, x)))][y.rid := q.(terminal := Some(TerminalBy(q, y)))]
        == s.reservations[y.rid := q.(terminal := Some(TerminalBy(q, y)))][x.rid := r.(terminal := Some(TerminalBy(r, x)))];
  }

  lemma ProperRows(s: State, x: Ending)
    requires Proper(s, x)
    ensures x.rid < |s.reservations|
  {
  }

  lemma SameEvents(xs: seq<Grant>, ys: seq<Grant>, r: Reservation, x: Ending)
    requires |xs| == |ys|
    requires forall a | a in r.allocations :: a.grant < |xs|
    requires forall g | 0 <= g < |xs| :: xs[g].expiresAt == ys[g].expiresAt
    requires forall l | l in x.lines :: FindItem(r.items, l.meter).Some?
    requires Charges(x.lines, r.items, x.charge).Ok?
    ensures EventsBy(xs, r, x) == EventsBy(ys, r, x)
  {
    EventsSameExpiry(xs, ys, r.allocations, SumOf(Charges(x.lines, r.items, x.charge).value, ChargedOf), x.rid, x.now, x.charge, |r.allocations|);
  }

  lemma PostingsCommute(b: Book, es: seq<Event>, fs: seq<Event>)
    requires Posts(es, b.grants) && Posts(fs, b.grants)
    ensures PostAll(PostAll(b, es), fs).grants == PostAll(PostAll(b, fs), es).grants
    ensures multiset(PostAll(PostAll(b, es), fs).ledger) == multiset(PostAll(PostAll(b, fs), es).ledger)
  {
    PostAllEffect(b, es);
    PostAllEffect(b, fs);
    PostAllEffect(PostAll(b, es), fs);
    PostAllEffect(PostAll(b, fs), es);
    hide PostAll, Totals;
    forall g | 0 <= g < |b.grants|
      ensures PostAll(PostAll(b, es), fs).grants[g] == PostAll(PostAll(b, fs), es).grants[g]
    {
      AddCommutes(b.grants[g], Totals(es, g), Totals(fs, g));
    }
    assert multiset(b.ledger + es + fs) == multiset(b.ledger) + multiset(es) + multiset(fs);
    assert multiset(b.ledger + fs + es) == multiset(b.ledger) + multiset(fs) + multiset(es);
  }

  lemma AddCommutes(g: Grant, c: Counters, d: Counters)
    ensures g.Add(c).Add(d) == g.Add(d).Add(c)
  {
  }

  // ---------------------------------------------------------------- whole calls

  datatype TerminalCall =
    | SettleCall(rid: nat, usage: seq<UsageLine>, delivery: Delivery, key: Key, now: int)
    | ReleaseCall(rid: nat, usage: seq<UsageLine>, reason: Reason, key: Key, now: int)

  function Made(s: State, c: TerminalCall, scan: Scan): Result<(State, TerminalReceipt), CreditError> {
    match c
    case SettleCall(rid, usage, delivery, key, now) => Settle(s, rid, usage, delivery, key, now, scan)
    case ReleaseCall(rid, usage, reason, key, now) => Release(s, rid, usage, reason, key, now, scan)
  }

  function EndingOf(c: TerminalCall): Ending {
    match c
    case SettleCall(rid, usage, delivery, key, now) => Ending(rid, Sort(usage, LineLeq), delivery, UsageSettled, key, now, true)
    case ReleaseCall(rid, usage, reason, key, now) => Ending(rid, Sort(usage, LineLeq), NoDeliverable, reason, key, now, false)
  }

  predicate WellFormed(c: TerminalCall) {
    match c
    case SettleCall(_, usage, delivery, _, _) => ValidLines(usage, false) && !delivery.NoDeliverable?
    case ReleaseCall(_, usage, reason, _, _) => ValidLines(usage, true) && !reason.UsageSettled?
  }

  /** A first terminal call is the ledger comparison followed by the closing. */
  lemma MadeFresh(s: State, c: TerminalCall, scan: Scan)
    requires s.account.Some? && s.cycles != [] && WellFormed(c) && FindTerminal(s.reservations, c.key).None?
    ensures var check := LedgerCheck(scan(s.book.ledger), s.book.grants);
            Made(s, c, scan) == if check.Fail? then Err(check.error) else CloseBy(s, EndingOf(c))
  {
    hide LedgerCheck, Close, Sort, ValidLines, FindTerminal;
  }

  lemma MadeIsProper(s: State, c: TerminalCall, scan: Scan)
    requires Core(s) && FindTerminal(s.reservations, c.key).None? && Made(s, c, scan).Ok?
    ensures s.account.Some? && s.cycles != [] && WellFormed(c) && Proper(s, EndingOf(c))
  {
    hide Core, LedgerCheck, Close, Sort, FindTerminal, Closable;
    var x := EndingOf(c);
    MadeLines(c);
    CloseTotal(s, x.rid, x.lines, x.delivery, x.reason, x.key, x.now, x.charge);
  }

  lemma MadeLines(c: TerminalCall)
    ensures WellFormed(c) ==> ValidLines(EndingOf(c).lines, true)
  {
    if WellFormed(c) {
      SortedLines(c.usage, c.ReleaseCall?);
    }
  }

  /**
   * Two first settle or release calls on different reservations under different
   * keys: if each succeeds alone and the ledger comparison lets the second one
   * through, both orders succeed and leave the same grants and reservation
   * rows, and ledgers with the same events.
   */
  lemma WholeCallsCommute(s: State, c: TerminalCall, d: TerminalCall, scan: Scan, scan': Scan)
    requires Core(s) && c.rid != d.rid && c.key != d.key
    requires FindTerminal(s.reservations, c.key).None? && FindTerminal(s.reservations, d.key).None?
    requires Made(s, c, scan).Ok? && Made(s, d, scan').Ok?
    requires var a, b := Made(s, c, scan).value.0, Made(s, d, scan').value.0;
             && LedgerCheck(scan'(a.book.ledger), a.book.grants).Pass?
             && LedgerCheck(scan(b.book.ledger), b.book.grants).Pass?
    ensures var a, b := Made(s, c, scan).value.0, Made(s, d, scan').value.0;
            && Made(a, d, scan').Ok? && Made(b, c, scan).Ok?
            && var u, v := Made(a, d, scan').value.0, Made(b, c, scan).value.0;
            && u.book.grants == v.book.grants
            && u.reservations == v.reservations
            && multiset(u.book.ledger) == multiset(v.book.ledger)
  {
    hide Core, Made, EndingOf, CloseBy, LedgerCheck, WellFormed, Proper;
    MadeIsProper(s, c, scan);
    MadeIsProper(s, d, scan');
    MadeFresh(s, c, scan);
    MadeFresh(s, d, scan');
    EndingNames(c);
    EndingNames(d);
    var x, y := EndingOf(c), EndingOf(d);
    TerminalCallsCommute(s, x, y);
    StillFresh(s, x, y);
    StillFresh(s, y, x);
    MadeFresh(CloseBy(s, x).value.0, d, scan');
    MadeFresh(CloseBy(s, y).value.0, c, scan);
  }

  lemma EndingNames(c: TerminalCall)
    ensures EndingOf(c).rid == c.rid && EndingOf(c).key == c.key
  {
  }

  lemma StillFresh(s: State, x: Ending, y: Ending)
    requires Core(s) && s.account.Some? && s.cycles != [] && Proper(s, x) && Proper(s, y) && x.rid != y.rid && x.key != y.key
    ensures CloseBy(s, x).Ok?
    ensures var t := CloseBy(s, x).value.0; t.account.Some? && t.cycles != [] && FindTerminal(t.reservations, y.key).None?
  {
    hide Core, CloseBy, FindTerminal;
    StillProper(s, x, y);
    CloseByEffect(s, x);
  }
}
