/** Grants and reservations tell the same story about what is held, and no total overflows. */
module HoldTotals {
  import opened Prelude
  import opened CreditPolicy
  import opened CreditRecords
  import opened CreditAccounting
  import opened CreditInvariant

  /** Sum of one reservation's allocations over the first `n` grants. */
  function AllocatedOnFirst(allocations: seq<Allocation>, n: nat): int {
    if n == 0 then 0 else AllocatedOnFirst(allocations, n - 1) + AllocationsOn(allocations, n - 1)
  }

  function HeldOnFirst(rs: seq<Reservation>, n: nat): int {
    if n == 0 then 0 else HeldOnFirst(rs, n - 1) + HeldOn(rs, n - 1)
  }

  lemma {:induction false} AllocatedNone(n: nat)
    ensures AllocatedOnFirst([], n) == 0
  {
    if n > 0 {
      AllocatedNone(n - 1);
    }
  }

  lemma {:induction false} AllocatedStep(allocations: seq<Allocation>, n: nat)
    requires allocations != []
    ensures var k := |allocations| - 1;
            AllocatedOnFirst(allocations, n)
            == AllocatedOnFirst(allocations[..k], n) + if allocations[k].grant < n then allocations[k].amount else 0
  {
    if n > 0 {
      AllocatedStep(allocations, n - 1);
    }
  }

  lemma {:induction false} AllocatedAll(allocations: seq<Allocation>, n: nat)
    requires forall a | a in allocations :: a.grant < n
    ensures AllocatedOnFirst(allocations, n) == SumOf(allocations, AmountOf)
  {
    if allocations == [] {
      AllocatedNone(n);
    } else {
      var k := |allocations| - 1;
      assert allocations[k] in allocations && forall a | a in allocations[..k] :: a in allocations;
      AllocatedStep(allocations, n);
      AllocatedAll(allocations[..k], n);
    }
  }

  lemma {:induction false} HeldNone(n: nat)
    ensures HeldOnFirst([], n) == 0
  {
    if n > 0 {
      HeldNone(n - 1);
    }
  }

  lemma {:induction false} HeldStep(rs: seq<Reservation>, n: nat)
    requires rs != []
    ensures var k := |rs| - 1;
            HeldOnFirst(rs, n) == HeldOnFirst(rs[..k], n) + if rs[k].Held() then AllocatedOnFirst(rs[k].allocations, n) else 0
  {
    if n > 0 {
      HeldStep(rs, n - 1);
    }
  }

  /** Summing holds grant by grant or reservation by reservation gives the same total. */
  lemma {:induction false} HeldBothWays(rs: seq<Reservation>, n: nat)
    requires forall r | r in rs :: AllocationsOk(r, n)
    ensures HeldOnFirst(rs, n) == HeldTotal(rs)
  {
    if rs == [] {
      HeldNone(n);
    } else {
      var k := |rs| - 1;
      assert rs[k] in rs && forall r | r in rs[..k] :: r in rs;
      HeldStep(rs, n);
      HeldBothWays(rs[..k], n);
      AllocatedAll(rs[k].allocations, n);
    }
  }

  lemma {:induction false} ReservedPrefix(s: State, n: nat)
    requires HoldsOk(s) && n <= |s.book.grants|
    ensures SumOf(s.book.grants[..n], ReservedOf) == HeldOnFirst(s.reservations, n)
  {
    if n > 0 {
      ReservedPrefix(s, n - 1);
      assert s.book.grants[..n] == s.book.grants[..n - 1] + [s.book.grants[n - 1]];
      SumOfAppend(s.book.grants[..n - 1], s.book.grants[n - 1], ReservedOf);
    }
  }

  /** Grant-held equals reservation-held. */
  lemma HeldAgrees(s: State)
    requires Core(s)
    ensures SumOf(s.book.grants, ReservedOf) == HeldTotal(s.reservations)
  {
    var n := |s.book.grants|;
    forall r | r in s.reservations
      ensures AllocationsOk(r, n)
    {
      var i :| 0 <= i < |s.reservations| && s.reservations[i] == r;
      assert ReservationOk(s, s.reservations[i]);
    }
    assert s.book.grants[..n] == s.book.grants;
    ReservedPrefix(s, n);
    HeldBothWays(s.reservations, n);
  }

  lemma {:induction false} OutstandingSplits(grants: seq<Grant>)
    ensures SumOf(grants, OutstandingOf) == SumOf(grants, AvailableOf) + SumOf(grants, ReservedOf)
  {
    if grants != [] {
      OutstandingSplits(grants[..|grants| - 1]);
    }
  }

  /** Available and held credit are both within 0 and 2^63 - 1, and so is their sum. */
  lemma BalancesBounded(s: State)
    requires Core(s)
    ensures 0 <= SumOf(s.book.grants, AvailableOf) && 0 <= SumOf(s.book.grants, ReservedOf)
    ensures SumOf(s.book.grants, AvailableOf) + SumOf(s.book.grants, ReservedOf) <= MAX_BIGINT
    ensures forall g | g in s.book.grants :: Storable(g.counters)
  {
    OutstandingSplits(s.book.grants);
    forall g | g in s.book.grants
      ensures Storable(g.counters) && 0 <= AvailableOf(g) && 0 <= ReservedOf(g)
    {
      var i :| 0 <= i < |s.book.grants| && s.book.grants[i] == g;
      assert GrantOk(s, s.book.grants[i]);
    }
    SumOfNonNegative(s.book.grants, AvailableOf);
    SumOfNonNegative(s.book.grants, ReservedOf);
  }

  /** Each grant expires in the ledger at most once. */
  lemma ExpiresOnce(s: State, i: nat, j: nat)
    requires Core(s) && i < |s.book.ledger| && j < |s.book.ledger|
    requires s.book.ledger[i].kind.ExpireEvent? && s.book.ledger[j].kind.ExpireEvent?
    requires s.book.ledger[i].grant == s.book.ledger[j].grant
    ensures i == j
  {
    var e, f := s.book.ledger[i], s.book.ledger[j];
    assert e in s.book.ledger && f in s.book.ledger;
    assert KeyOk(s, e) && KeyOk(s, f);
    assert Ident(e) == Ident(f);
  }
}
