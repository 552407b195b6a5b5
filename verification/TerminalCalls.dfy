/** Settle and release as whole calls: exactly when they succeed, what they do, and when the ledger check lets them through. */
module TerminalCalls {
  import opened Prelude
  import opened Sorting
  import opened CreditPolicy
  import opened CreditRecords
  import opened CreditAccounting
  import opened CreditInvariant
  import opened LedgerOrder
  import opened SettlementInvariant

  /** What a caller can check before closing a held reservation with these usage lines. */
  ghost predicate Closable(s: State, rid: nat, lines: seq<UsageLine>, now: int, charge: bool) {
    && AsOf(s) <= now
    && rid < |s.reservations| && s.reservations[rid].Held()
    && var items := s.reservations[rid].items;
    && (forall l | l in lines ::
          FindItem(items, l.meter).Some? && l.actualUnits <= items[FindItem(items, l.meter).value].maximumUnits)
    && (charge ==> exists l | l in lines :: 0 < l.actualUnits)
  }

  /** The terminal row a call writes. */
  function Closing(lines: seq<UsageLine>, items: seq<Item>, delivery: Delivery, reason: Reason, key: Key, now: int, charge: bool): Terminal
    requires forall l | l in lines :: FindItem(items, l.meter).Some?
    requires Charges(lines, items, charge).Ok?
  {
    Terminal(charge, key, now, reason, delivery, Charges(lines, items, charge).value)
  }

  lemma NothingCharged(items: seq<Item>)
    ensures Charges([], items, true) == Ok([]) && SumOf<UsageRecord>([], ChargedOf) == 0
  {
  }

  /** The last line adds its price to what is charged. */
  lemma LastCharged(lines: seq<UsageLine>, items: seq<Item>)
    requires QuotedItems(items) && lines != []
    requires forall l | l in lines :: FindItem(items, l.meter).Some? && 0 <= l.actualUnits
    requires Charges(lines, items, true).Ok?
    ensures var n := |lines| - 1;
            && (forall l | l in lines[..n] :: l in lines)
            && Charges(lines[..n], items, true).Ok?
            && SumOf(Charges(lines, items, true).value, ChargedOf)
               == SumOf(Charges(lines[..n], items, true).value, ChargedOf) + lines[n].actualUnits * Rate(lines[n].meter)
  {
    hide Charges, FindItem, QuotedItems, SumOf;
    var n := |lines| - 1;
    assert lines[n] in lines;
    ChargesStep(lines, items, true);
    SumOfAppend(Charges(lines[..n], items, true).value, Charges(lines, items, true).value[n], ChargedOf);
  }

  lemma {:induction false} ChargesPositive(lines: seq<UsageLine>, items: seq<Item>)
    requires QuotedItems(items)
    requires forall l | l in lines :: FindItem(items, l.meter).Some? && 0 <= l.actualUnits
    requires Charges(lines, items, true).Ok?
    ensures 0 <= SumOf(Charges(lines, items, true).value, ChargedOf)
    ensures 0 < SumOf(Charges(lines, items, true).value, ChargedOf) <==> exists l | l in lines :: 0 < l.actualUnits
  {
    hide Charges, FindItem, QuotedItems, SumOf;
    if lines == [] {
      NothingCharged(items);
    } else {
      var n := |lines| - 1;
      LastCharged(lines, items);
      ChargesPositive(lines[..n], items);
      assert lines == lines[..n] + [lines[n]];
      PricePositive(lines[n]);
    }
  }

  lemma PricePositive(l: UsageLine)
    requires 0 <= l.actualUnits
    ensures 0 <= l.actualUnits * Rate(l.meter) && (0 < l.actualUnits * Rate(l.meter) <==> 0 < l.actualUnits)
  {
  }

  lemma {:induction false} ChargesWaived(lines: seq<UsageLine>, items: seq<Item>)
    requires forall l | l in lines :: FindItem(items, l.meter).Some?
    requires Charges(lines, items, false).Ok?
    ensures SumOf(Charges(lines, items, false).value, ChargedOf) == 0
  {
    if lines != [] {
      var n := |lines| - 1;
      assert forall k | k in lines[..n] :: k in lines;
      ChargesWaived(lines[..n], items);
      var records := Charges(lines[..n], items, false).value;
      SumOfAppend(records, Charges(lines, items, false).value[n], ChargedOf);
      assert Charges(lines, items, false).value == records + [Charges(lines, items, false).value[n]];
    }
  }

  /** If pricing succeeds, no line exceeds its reserved units. */
  lemma {:induction false} ChargesUnits(lines: seq<UsageLine>, items: seq<Item>, charge: bool)
    requires forall l | l in lines :: FindItem(items, l.meter).Some?
    requires Charges(lines, items, charge).Ok?
    ensures forall l | l in lines :: l.actualUnits <= items[FindItem(items, l.meter).value].maximumUnits
  {
    if lines != [] {
      var n := |lines| - 1;
      assert lines == lines[..n] + [lines[n]];
      assert forall k | k in lines[..n] :: k in lines;
      ChargesUnits(lines[..n], items, charge);
    }
  }

  lemma ReservationOkCoherent(s: State, rid: nat)
    requires ReservationsOk(s) && rid < |s.reservations|
    ensures ReservationCoherent(s.reservations[rid], |s.book.grants|)
  {
    var r := s.reservations[rid];
    assert ReservationOk(s, r);
    assert r.allocations != [];
  }

  lemma CloseConsumes(s: State, rid: nat, lines: seq<UsageLine>, now: int, charge: bool)
    requires Core(s) && ValidLines(lines, true) && Closable(s, rid, lines, now, charge)
    ensures var items := s.reservations[rid].items;
            && Charges(lines, items, charge).Ok?
            && var consumed := SumOf(Charges(lines, items, charge).value, ChargedOf);
            && 0 <= consumed <= s.reservations[rid].total
            && (charge ==> 0 < consumed) && (!charge ==> consumed == 0)
  {
    var r := s.reservations[rid];
    assert ReservationOk(s, r);
    assert QuotedItems(r.items);
    ChargesSucceed(lines, r.items, charge);
    ChargesWithinHold(r, lines, charge);
    if charge {
      ChargesPositive(lines, r.items);
    } else {
      ChargesWaived(lines, r.items);
    }
  }

  lemma RecordMeters(lines: seq<UsageLine>, items: seq<Item>, charge: bool)
    requires QuotedItems(items) && ValidLines(lines, true)
    requires forall l | l in lines :: FindItem(items, l.meter).Some?
    requires Charges(lines, items, charge).Ok?
    ensures var records := Charges(lines, items, charge).value;
            && SameLines(records, lines)
            && (forall u | u in records :: 0 <= u.actualUnits && 0 <= u.charged <= MAX_BIGINT && (!charge ==> u.charged == 0))
            && (forall i, j | 0 <= i < j < |records| :: records[i].meter != records[j].meter)
  {
    ChargesRecords(lines, items, charge);
  }

  /** Close succeeds on what is closable, and its effect is exactly `Closed`. */
  lemma CloseEffect(s: State, rid: nat, lines: seq<UsageLine>, delivery: Delivery, reason: Reason, key: Key, now: int, charge: bool)
    requires Core(s) && s.account.Some? && ValidLines(lines, true) && Closable(s, rid, lines, now, charge)
    requires (charge <==> !delivery.NoDeliverable?) && (charge <==> reason.UsageSettled?)
    requires FindTerminal(s.reservations, key).None?
    ensures var items := s.reservations[rid].items;
            && Charges(lines, items, charge).Ok?
            && (forall a | a in s.reservations[rid].allocations :: a.grant < |s.book.grants|)
            && var closing := Closing(lines, items, delivery, reason, key, now, charge);
            var consumed := SumOf(closing.records, ChargedOf);
            && ClosesWith(s, rid, closing, consumed, now, charge)
            && var t := Closed(s, rid, closing, consumed, now, charge);
            && Close(s, rid, lines, delivery, reason, key, now, charge)
               == Ok((t, TerminalReceipt(rid, key, charge, consumed, s.reservations[rid].total - consumed, |lines|, now, false)))
            && TerminalReceiptOf(t.reservations[rid], rid, false)
               == Ok(TerminalReceipt(rid, key, charge, consumed, s.reservations[rid].total - consumed, |lines|, now, false))
  {
    var r := s.reservations[rid];
    assert r.createdAt <= now && QuotedItems(r.items) && 0 < r.total <= MAX_BIGINT by {
      assert ReservationOk(s, r);
    }
    CloseConsumes(s, rid, lines, now, charge);
    RecordMeters(lines, r.items, charge);
    var consumed := SumOf(Charges(lines, r.items, charge).value, ChargedOf);
    DischargeSucceeds(s, rid, consumed, now, charge, |r.allocations|);
    NothingLeft(s, rid, consumed, now);
    ReservationOkCoherent(s, rid);
    CloseEquals(s, rid, lines, delivery, reason, key, now, charge);
  }

  /** The body of the call, once its guards are known to pass. */
  lemma CloseEquals(s: State, rid: nat, lines: seq<UsageLine>, delivery: Delivery, reason: Reason, key: Key, now: int, charge: bool)
    requires s.account.Some? && AsOf(s) <= now
    requires rid < |s.reservations| && s.reservations[rid].Held() && s.reservations[rid].createdAt <= now
    requires ReservationCoherent(s.reservations[rid], |s.book.grants|)
    requires forall l | l in lines :: FindItem(s.reservations[rid].items, l.meter).Some?
    requires Charges(lines, s.reservations[rid].items, charge).Ok?
    requires var r := s.reservations[rid];
             var records := Charges(lines, r.items, charge).value;
             var consumed := SumOf(records, ChargedOf);
             && 0 <= consumed <= r.total <= MAX_BIGINT
             && (charge ==> 0 < consumed)
             && (forall u | u in records :: 0 <= u.charged <= MAX_BIGINT)
             && |records| == |lines|
             && var es := TerminalEvents(s.book.grants, r.allocations, consumed, rid, now, charge, |r.allocations|);
             && Posts(es, s.book.grants)
             && Discharge(s.book, r.allocations, consumed, rid, now, charge, |r.allocations|) == Ok(PostAll(s.book, es))
             && Remaining(r.allocations, consumed, |r.allocations|) == 0
    ensures var r := s.reservations[rid];
            var closing := Closing(lines, r.items, delivery, reason, key, now, charge);
            var consumed := SumOf(closing.records, ChargedOf);
            Close(s, rid, lines, delivery, reason, key, now, charge)
            == Ok((Closed(s, rid, closing, consumed, now, charge),
                   TerminalReceipt(rid, key, charge, consumed, r.total - consumed, |lines|, now, false)))
    ensures var r := s.reservations[rid];
            var closing := Closing(lines, r.items, delivery, reason, key, now, charge);
            var consumed := SumOf(closing.records, ChargedOf);
            TerminalReceiptOf(r.(terminal := Some(closing)), rid, false)
            == Ok(TerminalReceipt(rid, key, charge, consumed, r.total - consumed, |lines|, now, false))
  {
    hide Charges, Discharge, Remaining, SumOf, PostAll, TerminalEvents, FindItem;
  }

  /** A call that closes a reservation succeeds exactly on what is closable. */
  lemma CloseTotal(s: State, rid: nat, lines: seq<UsageLine>, delivery: Delivery, reason: Reason, key: Key, now: int, charge: bool)
    requires Core(s) && s.account.Some? && ValidLines(lines, true)
    requires (charge <==> !delivery.NoDeliverable?) && (charge <==> reason.UsageSettled?)
    requires FindTerminal(s.reservations, key).None?
    ensures Close(s, rid, lines, delivery, reason, key, now, charge).Ok? <==> Closable(s, rid, lines, now, charge)
  {
    if Closable(s, rid, lines, now, charge) {
      CloseEffect(s, rid, lines, delivery, reason, key, now, charge);
    } else if Close(s, rid, lines, delivery, reason, key, now, charge).Ok? {
      var r := s.reservations[rid];
      assert QuotedItems(r.items) by {
        assert ReservationOk(s, r);
      }
      ChargesUnits(lines, r.items, charge);
      if charge {
        ChargesPositive(lines, r.items);
      }
      assert false;
    }
  }

  // ---------------------------------------------------------------- whole calls

  /** `t` keeps the invariant and differs from `s` in the books and in one reservation, held before and closed under `key` now. */
  ghost predicate ClosesOne(s: State, t: State, rid: nat, key: Key, charge: bool) {
    && Core(t) && Started(t)
    && t == s.(reservations := t.reservations, book := t.book)
    && rid < |s.reservations| == |t.reservations| && s.reservations[rid].Held()
    && t.reservations == s.reservations[rid := s.reservations[rid].(terminal := t.reservations[rid].terminal)]
    && t.reservations[rid].terminal.Some?
    && t.reservations[rid].terminal.value.key == key
    && t.reservations[rid].terminal.value.settled == charge
  }

  lemma CloseKeeps(s: State, rid: nat, lines: seq<UsageLine>, delivery: Delivery, reason: Reason, key: Key, now: int, charge: bool)
    requires Core(s) && Started(s) && s.account.Some? && ValidLines(lines, true)
    requires (charge <==> !delivery.NoDeliverable?) && (charge <==> reason.UsageSettled?)
    requires FindTerminal(s.reservations, key).None?
    requires Close(s, rid, lines, delivery, reason, key, now, charge).Ok?
    ensures ClosesOne(s, Close(s, rid, lines, delivery, reason, key, now, charge).value.0, rid, key, charge)
  {
    CloseTotal(s, rid, lines, delivery, reason, key, now, charge);
    CloseEffect(s, rid, lines, delivery, reason, key, now, charge);
    hide Core, Started, Close, Charges, SumOf, PostAll;
    var closing := Closing(lines, s.reservations[rid].items, delivery, reason, key, now, charge);
    ClosedCore(s, rid, closing, SumOf(closing.records, ChargedOf), now, charge);
  }

  lemma TerminateKeeps(s: State, rid: nat, lines: seq<UsageLine>, delivery: Delivery, reason: Reason, key: Key, now: int, charge: bool, scan: Scan)
    requires Core(s) && Started(s) && ValidLines(lines, true)
    requires (charge <==> !delivery.NoDeliverable?) && (charge <==> reason.UsageSettled?)
    requires Terminate(s, rid, lines, delivery, reason, key, now, charge, scan).Ok?
    ensures var t := Terminate(s, rid, lines, delivery, reason, key, now, charge, scan).value.0;
            && Core(t) && Started(t) && t == s.(reservations := t.reservations, book := t.book)
  {
    hide Core, Started, Close, LedgerCheck, ReservationCoherent, SameLines, TerminalReceiptOf, FindTerminal;
    if FindTerminal(s.reservations, key).None? {
      CloseKeeps(s, rid, lines, delivery, reason, key, now, charge);
    }
  }

  /**
   * A held reservation can always be released under a fresh key by a clock that
   * has not gone back: the only refusal left is that of the ledger comparison.
   */
  lemma HeldRelease(s: State, rid: nat, reason: Reason, key: Key, now: int, scan: Scan)
    requires Core(s) && Started(s)
    requires rid < |s.reservations| && s.reservations[rid].Held()
    requires FindTerminal(s.reservations, key).None? && AsOf(s) <= now && !reason.UsageSettled?
    ensures var r := Release(s, rid, [], reason, key, now, scan);
            var check := LedgerCheck(scan(s.book.ledger), s.book.grants);
            if check.Fail? then r == Err(check.error)
            else
              && r.Ok?
              && r.value.1.consumed == 0 && r.value.1.released == s.reservations[rid].total
              && rid < |r.value.0.reservations| && !r.value.0.reservations[rid].Held()
  {
    hide Core, Started, Close, LedgerCheck, Charges, SumOf, FindTerminal, TerminalReceiptOf;
    assert Closable(s, rid, [], now, false);
    SomeRowMeansOpen(s);
    CloseEffect(s, rid, [], NoDeliverable, reason, key, now, false);
    ChargesWaived([], s.reservations[rid].items);
    assert Sort<UsageLine>([], LineLeq) == [];
  }

  lemma SomeRowMeansOpen(s: State)
    requires Core(s) && Started(s) && s.reservations != []
    ensures s.account.Some? && s.cycles != []
  {
  }

  /** So it can be released in whatever order ties come out exactly when the ledger is timely. */
  lemma HeldCanBeReleased(s: State, rid: nat, reason: Reason, key: Key, now: int)
    requires Core(s) && Started(s)
    requires rid < |s.reservations| && s.reservations[rid].Held()
    requires FindTerminal(s.reservations, key).None? && AsOf(s) <= now && !reason.UsageSettled?
    ensures (forall scan: Scan | Faithful(scan) :: Release(s, rid, [], reason, key, now, scan).Ok?)
            <==> Timely(s.book.ledger, |s.book.grants|)
  {
    forall scan: Scan
      ensures Release(s, rid, [], reason, key, now, scan).Ok? <==> LedgerCheck(scan(s.book.ledger), s.book.grants).Pass?
    {
      hide Core, Started, Release, LedgerCheck, FindTerminal;
      HeldRelease(s, rid, reason, key, now, scan);
    }
    hide Release, LedgerCheck, Faithful, Timely, FindTerminal;
    PassesExactly(s);
  }
}
