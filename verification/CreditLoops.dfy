/**
 * The loops of the credit services over input lines, ledger events and grants,
 * each proved to compute what the specification says.
 */
module CreditLoops {
  import opened Prelude
  import opened Sorting
  import opened CreditPolicy
  import opened CreditRecords
  import opened CreditLifecycle
  import opened CreditAccounting

  // ---------------------------------------------------------------- what the loops rely on

  /** A fault met early in the ledger is the fault of the whole ledger. */
  lemma {:induction false} FaultPersists(scan: seq<Event>, n: nat, grants: nat)
    requires n <= |scan| && ScanFault(scan[..n], grants).Fail?
    ensures ScanFault(scan, grants) == ScanFault(scan[..n], grants)
    decreases |scan| - n
  {
    if n == |scan| {
      assert scan[..n] == scan;
    } else {
      assert scan[..n + 1][..n] == scan[..n];
      FaultPersists(scan, n + 1, grants);
    }
  }

  lemma {:induction false} QuoteErrorPersists(es: seq<Estimate>, n: nat)
    requires n <= |es| && Quotes(es[..n]).Err?
    ensures Quotes(es) == Quotes(es[..n])
    decreases |es| - n
  {
    if n == |es| {
      assert es[..n] == es;
    } else {
      assert es[..n + 1][..n] == es[..n];
      QuoteErrorPersists(es, n + 1);
    }
  }

  lemma {:induction false} ChargeErrorPersists(lines: seq<UsageLine>, items: seq<Item>, charge: bool, n: nat)
    requires forall l | l in lines :: FindItem(items, l.meter).Some?
    requires n <= |lines| && Charges(lines[..n], items, charge).Err?
    ensures Charges(lines, items, charge) == Charges(lines[..n], items, charge)
    decreases |lines| - n
  {
    if n == |lines| {
      assert lines[..n] == lines;
    } else {
      assert lines[..n + 1][..n] == lines[..n];
      ChargeErrorPersists(lines, items, charge, n + 1);
    }
  }

  lemma {:induction false} DischargeErrorPersists(b: Book, allocations: seq<Allocation>, consumed: int, rid: nat, now: int, charge: bool, n: nat, m: nat)
    requires n <= m <= |allocations| && forall a | a in allocations :: a.grant < |b.grants|
    requires Discharge(b, allocations, consumed, rid, now, charge, n).Err?
    ensures Discharge(b, allocations, consumed, rid, now, charge, m) == Discharge(b, allocations, consumed, rid, now, charge, n)
    decreases m
  {
    if n < m {
      DischargeErrorPersists(b, allocations, consumed, rid, now, charge, n, m - 1);
    }
  }

  lemma ExpireEventsNext(grants: seq<Grant>, now: int, n: nat)
    requires n < |grants|
    ensures ExpireEvents(grants, now, n + 1)
            == ExpireEvents(grants, now, n) + if Due(grants[n], now) then [ExpireEventOf(n, grants[n], now)] else []
  {
  }

  lemma HoldEventsNext(allocations: seq<Allocation>, n: nat, rid: nat, now: int)
    requires n < |allocations|
    ensures HoldEvents(allocations[..n + 1], rid, now) == HoldEvents(allocations[..n], rid, now) + [HoldEventOf(allocations[n], rid, now)]
  {
    assert allocations[..n + 1][..n] == allocations[..n];
  }

  // ---------------------------------------------------------------- input normalisation

  /** Duplicate meters and out-of-range units are refused; what is left is sorted by meter. */
  method NormalizedEstimates(raw: seq<Estimate>) returns (r: Option<seq<Estimate>>)
    ensures r == if ValidEstimates(raw) then Some(Sort(raw, EstimateLeq)) else None
  {
    if raw == [] || |raw| > METER_COUNT {
      return None;
    }
    var seen: set<Meter> := {};
    for i := 0 to |raw|
      invariant seen == set k | 0 <= k < i :: raw[k].meter
      invariant forall k | 0 <= k < i :: 1 <= raw[k].maximumUnits <= MAX_BIGINT
      invariant forall j, k | 0 <= j < k < i :: raw[j].meter != raw[k].meter
    {
      var e := raw[i];
      assert e in raw;
      if e.meter in seen || !(1 <= e.maximumUnits <= MAX_BIGINT) {
        return None;
      }
      seen := seen + {e.meter};
    }
    r := Some(Sort(raw, EstimateLeq));
  }

  method NormalizedUsage(raw: seq<UsageLine>, allowEmpty: bool) returns (r: Option<seq<UsageLine>>)
    ensures r == if ValidLines(raw, allowEmpty) then Some(Sort(raw, LineLeq)) else None
  {
    if (!allowEmpty && raw == []) || |raw| > METER_COUNT {
      return None;
    }
    var seen: set<Meter> := {};
    for i := 0 to |raw|
      invariant seen == set k | 0 <= k < i :: raw[k].meter
      invariant forall k | 0 <= k < i :: 0 <= raw[k].actualUnits <= MAX_BIGINT
      invariant forall j, k | 0 <= j < k < i :: raw[j].meter != raw[k].meter
    {
      var l := raw[i];
      assert l in raw;
      if l.meter in seen || !(0 <= l.actualUnits <= MAX_BIGINT) {
        return None;
      }
      seen := seen + {l.meter};
    }
    r := Some(Sort(raw, LineLeq));
  }

  // ---------------------------------------------------------------- read-only loops

  lemma TotalsNext(scan: seq<Event>, i: nat, g: nat)
    requires i < |scan|
    ensures Totals(scan[..i + 1], g) == if g == scan[i].grant then Totals(scan[..i], g).Plus(scan[i].delta) else Totals(scan[..i], g)
  {
    assert scan[..i + 1][..i] == scan[..i];
    PlusZero(Totals(scan[..i], g));
    hide Totals;
  }

  lemma ScanFaultNext(scan: seq<Event>, i: nat, grants: nat)
    requires i < |scan| && ScanFault(scan[..i], grants).Pass?
    ensures ScanFault(scan[..i + 1], grants)
            == if scan[i].grant >= grants then Fail(AccountInconsistent)
               else if Totals(scan[..i + 1], scan[i].grant).InRange() then Pass
               else Fail(AmountOverflow)
  {
    hide Totals;
    assert scan[..i + 1][..i] == scan[..i];
  }

  ghost predicate Summed(scan: seq<Event>, i: nat, totals: seq<Counters>)
    requires i <= |scan|
  {
    && ScanFault(scan[..i], |totals|).Pass?
    && forall g | 0 <= g < |totals| :: totals[g] == Totals(scan[..i], g)
  }

  lemma SummedNext(scan: seq<Event>, i: nat, totals: seq<Counters>)
    requires i < |scan| && Summed(scan, i, totals) && scan[i].grant < |totals|
    requires totals[scan[i].grant].Plus(scan[i].delta).InRange()
    ensures Summed(scan, i + 1, totals[scan[i].grant := totals[scan[i].grant].Plus(scan[i].delta)])
  {
    hide ScanFault, Totals, Counters.InRange, Counters.Plus;
    var e := scan[i];
    var after := totals[e.grant := totals[e.grant].Plus(e.delta)];
    TotalsNext(scan, i, e.grant);
    ScanFaultNext(scan, i, |totals|);
    forall g | 0 <= g < |totals|
      ensures after[g] == Totals(scan[..i + 1], g)
    {
      TotalsNext(scan, i, g);
    }
  }

  lemma SummedFault(scan: seq<Event>, i: nat, totals: seq<Counters>)
    requires i < |scan| && Summed(scan, i, totals)
    requires scan[i].grant < |totals| ==> !totals[scan[i].grant].Plus(scan[i].delta).InRange()
    ensures ScanFault(scan, |totals|) == Fail(if scan[i].grant < |totals| then AmountOverflow else AccountInconsistent)
  {
    hide ScanFault, Totals, Counters.InRange, Counters.Plus;
    TotalsNext(scan, i, scan[i].grant);
    ScanFaultNext(scan, i, |totals|);
    FaultPersists(scan, i + 1, |totals|);
  }

  /** Sum the ledger per grant in the order it is read. */
  method SumLedger(scan: seq<Event>, grants: nat) returns (fault: Check<CreditError>, totals: seq<Counters>)
    ensures fault == ScanFault(scan, grants)
    ensures |totals| == grants
    ensures fault.Pass? ==> forall g | 0 <= g < grants :: totals[g] == Totals(scan, g)
  {
    totals := seq(grants, _ => ZERO);
    assert scan[..0] == [] && scan[..|scan|] == scan;
    for i := 0 to |scan|
      invariant |totals| == grants && Summed(scan, i, totals)
    {
      hide ScanFault, Totals, Summed, Counters.InRange;
      var e := scan[i];
      if e.grant >= grants {
        SummedFault(scan, i, totals);
        return Fail(AccountInconsistent), totals;
      }
      var sum := totals[e.grant].Plus(e.delta);
      if !sum.InRange() {
        SummedFault(scan, i, totals);
        return Fail(AmountOverflow), totals;
      }
      SummedNext(scan, i, totals);
      totals := totals[e.grant := sum];
    }
    fault := Pass;
  }

  /** The ledger's sums, compared grant by grant with the counters. */
  method LedgerCoherent(scan: seq<Event>, grants: seq<Grant>) returns (r: Check<CreditError>)
    ensures r == LedgerCheck(scan, grants)
  {
    hide ScanFault, Totals;
    var fault, totals := SumLedger(scan, |grants|);
    if fault.Fail? {
      return fault;
    }
    for g := 0 to |grants|
      invariant forall k | 0 <= k < g :: Storable(grants[k].counters) && Totals(scan, k) == grants[k].counters
    {
      if !Storable(grants[g].counters) || totals[g] != grants[g].counters {
        return Fail(AccountInconsistent);
      }
    }
    r := Pass;
  }

  method QuoteAll(es: seq<Estimate>) returns (r: Result<seq<Item>, CreditError>)
    ensures r == Quotes(es)
  {
    var items := [];
    for i := 0 to |es|
      invariant Quotes(es[..i]) == Ok(items)
    {
      var e := es[i];
      assert es[..i + 1][..i] == es[..i];
      match QuoteUsage(e.meter, e.maximumUnits) {
        case Err(error) =>
          QuoteErrorPersists(es, i + 1);
          return Err(if error.PolicyAmountOverflow? then AmountOverflow else InputInvalid);
        case Ok(amount) =>
          items := items + [Item(e.meter, e.maximumUnits, amount)];
      }
    }
    assert es[..|es|] == es;
    r := Ok(items);
  }

  ghost predicate AllSpendable(cs: seq<Candidate>) {
    forall c | c in cs :: 0 <= c.grant.counters.Available()
  }

  /** After `i` candidates: what has been taken, and that the rest of the walk completes it. */
  ghost predicate Walked(cs: seq<Candidate>, total: int, i: nat, remaining: int, taken: seq<Allocation>)
    requires AllSpendable(cs) && 0 <= total
  {
    && i <= |cs| && 0 <= remaining
    && remaining == total - SumOf(taken, AmountOf)
    && AllSpendable(cs[i..])
    && Allocate(cs, total) == taken + Allocate(cs[i..], remaining)
  }

  lemma AllocateNext(cs: seq<Candidate>, i: nat, remaining: int)
    requires AllSpendable(cs) && i < |cs| && 0 < remaining
    ensures AllSpendable(cs[i..]) && AllSpendable(cs[i + 1..])
    ensures var amount := Min(cs[i].grant.counters.Available(), remaining);
            && 0 <= amount <= remaining
            && Allocate(cs[i..], remaining)
               == (if amount > 0 then [Allocation(cs[i].row, amount)] else []) + Allocate(cs[i + 1..], remaining - amount)
  {
    assert cs[i] in cs;
    assert cs[i..][0] == cs[i] && cs[i..][1..] == cs[i + 1..];
  }

  lemma WalkNext(cs: seq<Candidate>, total: int, i: nat, remaining: int, taken: seq<Allocation>)
    requires AllSpendable(cs) && 0 <= total && i < |cs| && Walked(cs, total, i, remaining, taken) && remaining != 0
    ensures var amount := Min(cs[i].grant.counters.Available(), remaining);
            Walked(cs, total, i + 1, remaining - amount, taken + if amount > 0 then [Allocation(cs[i].row, amount)] else [])
  {
    var amount := Min(cs[i].grant.counters.Available(), remaining);
    AllocateNext(cs, i, remaining);
    hide Allocate, SumOf, Counters.Available, Min, AllSpendable;
    var step := if amount > 0 then [Allocation(cs[i].row, amount)] else [];
    var rest := Allocate(cs[i + 1..], remaining - amount);
    if amount > 0 {
      SumOfAppend(taken, Allocation(cs[i].row, amount), AmountOf);
    } else {
      assert taken + step == taken;
    }
    assert taken + (step + rest) == (taken + step) + rest;
  }

  lemma WalkStarts(cs: seq<Candidate>, total: int)
    requires AllSpendable(cs) && 0 <= total
    ensures Walked(cs, total, 0, total, [])
  {
    assert cs[0..] == cs && [] + Allocate(cs, total) == Allocate(cs, total);
  }

  lemma WalkEnds(cs: seq<Candidate>, total: int, i: nat, remaining: int, taken: seq<Allocation>)
    requires AllSpendable(cs) && 0 <= total && Walked(cs, total, i, remaining, taken) && (i == |cs| || remaining == 0)
    ensures taken == Allocate(cs, total) && remaining == total - SumOf(taken, AmountOf)
  {
    assert Allocate(cs[i..], remaining) == [];
  }

  /** Walk the grants in spending order, taking what each one can give, until the total is covered. */
  method AllocateGreedily(grants: seq<Grant>, total: int) returns (remaining: int, allocations: seq<Allocation>)
    requires 0 < total && forall g | g in grants :: 0 <= g.counters.Available()
    ensures forall c | c in Priority(grants) :: 0 <= c.grant.counters.Available()
    ensures allocations == Allocate(Priority(grants), total)
    ensures remaining == total - SumOf(allocations, AmountOf)
  {
    var cs := Priority(grants);
    PriorityRows(grants);
    forall c | c in cs
      ensures 0 <= c.grant.counters.Available()
    {
      assert c.grant in grants;
    }
    remaining, allocations := total, [];
    var i := 0;
    WalkStarts(cs, total);
    hide SumOf, Allocate, Priority, Walked, AllSpendable;
    while i < |cs| && remaining != 0
      invariant i <= |cs| && Walked(cs, total, i, remaining, allocations)
    {
      var c := cs[i];
      WalkNext(cs, total, i, remaining, allocations);
      var taken := Min(c.grant.counters.Available(), remaining);
      if taken > 0 {
        allocations := allocations + [Allocation(c.row, taken)];
        remaining := remaining - taken;
      } else {
        assert allocations + [] == allocations && taken == 0;
      }
      i := i + 1;
    }
    WalkEnds(cs, total, i, remaining, allocations);
  }

  lemma ChargesNext(lines: seq<UsageLine>, items: seq<Item>, charge: bool, i: nat)
    requires i < |lines| && forall l | l in lines :: FindItem(items, l.meter).Some?
    requires Charges(lines[..i], items, charge).Ok?
    ensures lines[i] in lines
    ensures var l := lines[i];
            var before := Charges(lines[..i], items, charge).value;
            Charges(lines[..i + 1], items, charge)
            == if l.actualUnits > items[FindItem(items, l.meter).value].maximumUnits then Err(UsageExceedsReservation)
               else if !charge then Ok(before + [UsageRecord(l.meter, l.actualUnits, l.source, 0)])
               else match QuoteUsage(l.meter, l.actualUnits)
                    case Ok(amount) => Ok(before + [UsageRecord(l.meter, l.actualUnits, l.source, amount)])
                    case Err(error) => Err(if error.PolicyAmountOverflow? then AmountOverflow else AccountInconsistent)
  {
    assert lines[..i + 1][..i] == lines[..i];
    hide QuoteUsage, FindItem;
  }

  /** Usage records of the reported lines, or the first refusal among them. */
  method ChargeAll(lines: seq<UsageLine>, items: seq<Item>, charge: bool) returns (r: Result<seq<UsageRecord>, CreditError>)
    requires forall l | l in lines :: FindItem(items, l.meter).Some?
    ensures r == Charges(lines, items, charge)
  {
    var records := [];
    for i := 0 to |lines|
      invariant Charges(lines[..i], items, charge) == Ok(records)
    {
      hide Charges, QuoteUsage;
      var l := lines[i];
      ChargesNext(lines, items, charge, i);
      var item := items[FindItem(items, l.meter).value];
      if l.actualUnits > item.maximumUnits {
        ChargeErrorPersists(lines, items, charge, i + 1);
        return Err(UsageExceedsReservation);
      }
      var amount := 0;
      if charge {
        var quote := QuoteUsage(l.meter, l.actualUnits);
        if quote.Err? {
          ChargeErrorPersists(lines, items, charge, i + 1);
          return Err(if quote.error.PolicyAmountOverflow? then AmountOverflow else AccountInconsistent);
        }
        amount := quote.value;
      }
      records := records + [UsageRecord(l.meter, l.actualUnits, l.source, amount)];
    }
    assert lines[..|lines|] == lines;
    r := Ok(records);
  }
}
