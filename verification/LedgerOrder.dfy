/**
 * The ledger comparison adds deltas up in time order, with ties in random
 * order, and refuses when a running total leaves the 63-bit range. Here is
 * exactly when that can happen.
 */
module LedgerOrder {
  import opened Prelude
  import opened Sorting
  import opened CreditPolicy
  import opened CreditRecords
  import opened CreditAccounting
  import opened CreditInvariant

  // ---------------------------------------------------------------- running totals

  function ReservedIn(e: Event, g: nat): int {
    if e.grant == g then e.delta.reserved else 0
  }

  function ReservedBy(g: nat): Event -> int {
    (e: Event) => ReservedIn(e, g)
  }

  function GrantedBy(g: nat): Event -> int {
    (e: Event) => if e.grant == g then e.delta.granted else 0
  }

  function ConsumedBy(g: nat): Event -> int {
    (e: Event) => if e.grant == g then e.delta.consumed else 0
  }

  function ExpiredBy(g: nat): Event -> int {
    (e: Event) => if e.grant == g then e.delta.expired else 0
  }

  lemma NoTotals(g: nat)
    ensures Totals([], g) == ZERO
    ensures SumOf([], GrantedBy(g)) == SumOf([], ReservedBy(g)) == SumOf([], ConsumedBy(g)) == SumOf([], ExpiredBy(g)) == 0
  {
  }

  lemma {:induction false} TotalsAsSums(es: seq<Event>, g: nat)
    ensures Totals(es, g)
            == Counters(SumOf(es, GrantedBy(g)), SumOf(es, ReservedBy(g)), SumOf(es, ConsumedBy(g)), SumOf(es, ExpiredBy(g)))
  {
    hide SumOf, Totals;
    if es == [] {
      NoTotals(g);
    } else {
      var init, e := es[..|es| - 1], es[|es| - 1];
      assert es == init + [e];
      TotalsAsSums(init, g);
      TotalsAppend(init, e, g);
      SumOfAppend(init, e, GrantedBy(g));
      SumOfAppend(init, e, ReservedBy(g));
      SumOfAppend(init, e, ConsumedBy(g));
      SumOfAppend(init, e, ExpiredBy(g));
    }
  }

  /** What a reader may have added up for grant `g` when the clock of the ledger shows `x`, at most: all before `x` and the raises at `x`. */
  function HighOf(g: nat, x: int): Event -> int {
    (e: Event) => if e.createdAt < x || (e.createdAt == x && 0 < ReservedIn(e, g)) then ReservedIn(e, g) else 0
  }

  /** And at least: all before `x` and the reductions at `x`. */
  function LowOf(g: nat, x: int): Event -> int {
    (e: Event) => if e.createdAt < x || (e.createdAt == x && ReservedIn(e, g) < 0) then ReservedIn(e, g) else 0
  }

  function High(es: seq<Event>, g: nat, x: int): int {
    SumOf(es, HighOf(g, x))
  }

  function Low(es: seq<Event>, g: nat, x: int): int {
    SumOf(es, LowOf(g, x))
  }

  /** At no instant can the reserved total of a grant be read outside the range. */
  ghost predicate Timely(es: seq<Event>, grants: nat) {
    forall g: nat, x: int | g < grants :: High(es, g, x) <= MAX_BIGINT && -MAX_BIGINT <= Low(es, g, x)
  }

  lemma {:induction false} SumOfBelow<T>(xs: seq<T>, f: T -> int, h: T -> int)
    requires forall x | x in xs :: f(x) <= h(x)
    ensures SumOf(xs, f) <= SumOf(xs, h)
  {
    if xs != [] {
      var n := |xs| - 1;
      assert xs[n] in xs;
      assert forall x | x in xs[..n] :: x in xs;
      SumOfBelow(xs[..n], f, h);
    }
  }

  lemma {:induction false} SumOfNothing<T>(xs: seq<T>)
    ensures SumOf(xs, (x: T) => 0) == 0
  {
    if xs != [] {
      SumOfNothing(xs[..|xs| - 1]);
    }
  }

  /** What has been added up after `k` events lies between the two bounds at the time of the last one. */
  lemma PrefixBounded(es: seq<Event>, k: nat, g: nat)
    requires InTimeOrder(es) && 0 < k <= |es|
    ensures var x := es[k - 1].createdAt; Low(es, g, x) <= SumOf(es[..k], ReservedBy(g)) <= High(es, g, x)
  {
    var x := es[k - 1].createdAt;
    var read, rest := es[..k], es[k..];
    assert es == read + rest;
    SumOfConcat(read, rest, HighOf(g, x));
    SumOfConcat(read, rest, LowOf(g, x));
    forall e | e in read
      ensures LowOf(g, x)(e) <= ReservedBy(g)(e) <= HighOf(g, x)(e)
    {
      var i :| 0 <= i < k && read[i] == e;
      assert es[i].createdAt <= x;
    }
    forall e | e in rest
      ensures LowOf(g, x)(e) <= 0 <= HighOf(g, x)(e)
    {
      var i :| 0 <= i < |rest| && rest[i] == e;
      assert es[k + i] == e && x <= e.createdAt;
    }
    SumOfBelow(read, ReservedBy(g), HighOf(g, x));
    SumOfBelow(read, LowOf(g, x), ReservedBy(g));
    SumOfNothing(rest);
    SumOfBelow(rest, (e: Event) => 0, HighOf(g, x));
    SumOfBelow(rest, LowOf(g, x), (e: Event) => 0);
  }

  // ---------------------------------------------------------------- the bound suffices

  lemma ScanStep(scan: seq<Event>, grants: nat)
    requires scan != [] && ScanFault(scan[..|scan| - 1], grants).Pass?
    requires scan[|scan| - 1].grant < grants && Totals(scan, scan[|scan| - 1].grant).InRange()
    ensures ScanFault(scan, grants).Pass?
  {
  }

  /** The other three counters only grow, so no prefix of them exceeds the stored value. */
  lemma PrefixGrows(es: seq<Event>, k: nat, g: nat)
    requires k <= |es| && forall e | e in es :: ShapeOk(e)
    ensures var part, all := Totals(es[..k], g), Totals(es, g);
            && 0 <= part.granted <= all.granted && 0 <= part.consumed <= all.consumed && 0 <= part.expired <= all.expired
  {
    TotalsAsSums(es[..k], g);
    TotalsAsSums(es, g);
    forall e | e in es
      ensures 0 <= GrantedBy(g)(e) && 0 <= ConsumedBy(g)(e) && 0 <= ExpiredBy(g)(e)
    {
      assert ShapeOk(e);
    }
    SumOfPrefix(es, k, GrantedBy(g));
    SumOfPrefix(es, k, ConsumedBy(g));
    SumOfPrefix(es, k, ExpiredBy(g));
  }

  ghost predicate Reading(es: seq<Event>, s: State) {
    InTimeOrder(es) && multiset(es) == multiset(s.book.ledger)
  }

  lemma ReadEvents(es: seq<Event>, s: State)
    requires Reading(es, s) && LedgerOk(s)
    ensures forall e | e in es :: e.grant < |s.book.grants| && ShapeOk(e)
  {
    forall e | e in es
      ensures e.grant < |s.book.grants| && ShapeOk(e)
    {
      assert e in multiset(es);
      assert e in s.book.ledger;
    }
  }

  lemma RunningInRange(es: seq<Event>, s: State, k: nat, g: nat)
    requires Reading(es, s) && GrantsOk(s) && LedgerOk(s) && Timely(s.book.ledger, |s.book.grants|)
    requires 0 < k <= |es| && g < |s.book.grants|
    ensures Totals(es[..k], g).InRange()
  {
    hide SumOf;
    var x := es[k - 1].createdAt;
    ReadEvents(es, s);
    PrefixGrows(es, k, g);
    TotalsPermutation(es, s.book.ledger, g);
    assert GrantOk(s, s.book.grants[g]);
    TotalsAsSums(es[..k], g);
    PrefixBounded(es, k, g);
    SumOfPermutation(es, s.book.ledger, HighOf(g, x));
    SumOfPermutation(es, s.book.ledger, LowOf(g, x));
    assert High(s.book.ledger, g, x) <= MAX_BIGINT && -MAX_BIGINT <= Low(s.book.ledger, g, x);
  }

  lemma {:induction false} TimelyScan(es: seq<Event>, s: State, k: nat)
    requires Reading(es, s) && GrantsOk(s) && LedgerOk(s) && Timely(s.book.ledger, |s.book.grants|)
    requires k <= |es|
    ensures ScanFault(es[..k], |s.book.grants|).Pass?
  {
    if k > 0 {
      TimelyScan(es, s, k - 1);
      ReadEvents(es, s);
      RunningInRange(es, s, k, es[k - 1].grant);
      assert es[..k][..k - 1] == es[..k - 1];
      hide ScanFault, Totals, GrantsOk, LedgerOk, Timely, Counters.InRange;
      ScanStep(es[..k], |s.book.grants|);
    }
  }

  lemma CountersAgree(es: seq<Event>, s: State)
    requires Reading(es, s) && GrantsOk(s) && LedgerOk(s)
    ensures forall g | 0 <= g < |s.book.grants| :: Storable(s.book.grants[g].counters) && Totals(es, g) == s.book.grants[g].counters
  {
    forall g | 0 <= g < |s.book.grants|
      ensures Storable(s.book.grants[g].counters) && Totals(es, g) == s.book.grants[g].counters
    {
      assert GrantOk(s, s.book.grants[g]);
      TotalsPermutation(es, s.book.ledger, g);
    }
  }

  /** In whatever order ties come out, the comparison passes while the ledger is timely. */
  lemma LedgerCheckPasses(s: State, scan: Scan)
    requires GrantsOk(s) && LedgerOk(s) && Faithful(scan)
    requires Timely(s.book.ledger, |s.book.grants|)
    ensures LedgerCheck(scan(s.book.ledger), s.book.grants).Pass?
  {
    var es := scan(s.book.ledger);
    assert Reading(es, s) && es[..|es|] == es;
    TimelyScan(es, s, |es|);
    CountersAgree(es, s);
  }

  // ---------------------------------------------------------------- the bound is needed

  lemma {:induction false} PassMeansInRange(scan: seq<Event>, grants: nat, k: nat, g: nat)
    requires ScanFault(scan, grants).Pass? && k <= |scan|
    ensures Totals(scan[..k], g).InRange()
    decreases |scan|
  {
    if scan == [] {
      assert scan[..k] == [];
    } else {
      var n := |scan| - 1;
      if k <= n {
        assert scan[..n][..k] == scan[..k];
        PassMeansInRange(scan[..n], grants, k, g);
      } else {
        assert scan[..k] == scan;
        if g != scan[n].grant {
          PassMeansInRange(scan[..n], grants, n, g);
          assert scan[..n][..n] == scan[..n];
          PlusZero(Totals(scan[..n], g));
        }
      }
    }
  }

  predicate Leads(e: Event, g: nat, raises: bool) {
    if raises then 0 < ReservedIn(e, g) else ReservedIn(e, g) < 0
  }

  /** By time; among ties, what moves grant `g` the chosen way comes first. */
  function LeadingFirst(g: nat, raises: bool): (Event, Event) -> bool {
    (a: Event, b: Event) =>
      a.createdAt < b.createdAt || (a.createdAt == b.createdAt && (Leads(a, g, raises) || !Leads(b, g, raises)))
  }

  function Unlucky(g: nat, raises: bool): Scan {
    (es: seq<Event>) => Sort(es, LeadingFirst(g, raises))
  }

  lemma UnluckyFaithful(g: nat, raises: bool)
    ensures Faithful(Unlucky(g, raises))
  {
    var leq := LeadingFirst(g, raises);
    forall es: seq<Event>
      ensures multiset(Unlucky(g, raises)(es)) == multiset(es) && InTimeOrder(Unlucky(g, raises)(es))
    {
      SortPermutes(es, leq);
      SortSorts(es, leq);
      hide Sort;
      var r := Sort(es, leq);
      assert forall i, j | 0 <= i < j < |r| :: leq(r[i], r[j]);
    }
  }

  /** Already in the leading part at instant `x`? */
  predicate Early(e: Event, g: nat, raises: bool, x: int) {
    e.createdAt < x || (e.createdAt == x && Leads(e, g, raises))
  }

  /** A sorted reading starts with exactly its early events. */
  lemma EarlyFirst(es: seq<Event>, g: nat, raises: bool, x: int) returns (k: nat)
    requires Sorted(es, LeadingFirst(g, raises))
    ensures k <= |es|
    ensures forall i | 0 <= i < |es| :: Early(es[i], g, raises, x) <==> i < k
  {
    k := 0;
    while k < |es| && Early(es[k], g, raises, x)
      invariant k <= |es|
      invariant forall i | 0 <= i < k :: Early(es[i], g, raises, x)
    {
      k := k + 1;
    }
    forall i | k <= i < |es|
      ensures !Early(es[i], g, raises, x)
    {
      if k < i {
        assert LeadingFirst(g, raises)(es[k], es[i]);
      }
    }
  }

  function ExtremeOf(g: nat, x: int, raises: bool): Event -> int {
    if raises then HighOf(g, x) else LowOf(g, x)
  }

  /** The unlucky reading adds up to the extreme at `x` at some point. */
  lemma UnluckyReaches(es: seq<Event>, g: nat, raises: bool, x: int) returns (k: nat)
    requires Sorted(es, LeadingFirst(g, raises))
    ensures k <= |es| && SumOf(es[..k], ReservedBy(g)) == SumOf(es, ExtremeOf(g, x, raises))
  {
    hide SumOf;
    k := EarlyFirst(es, g, raises, x);
    var f := ExtremeOf(g, x, raises);
    assert es == es[..k] + es[k..];
    SumOfConcat(es[..k], es[k..], f);
    forall e | e in es[..k]
      ensures f(e) == ReservedBy(g)(e)
    {
      var i :| 0 <= i < k && es[i] == e;
    }
    forall e | e in es[k..]
      ensures f(e) == 0
    {
      var i :| 0 <= i < |es| - k && es[k..][i] == e;
      assert es[k + i] == e;
    }
    SumOfBelow(es[..k], f, ReservedBy(g));
    SumOfBelow(es[..k], ReservedBy(g), f);
    SumOfNothing(es[k..]);
    SumOfBelow(es[k..], f, (e: Event) => 0);
    SumOfBelow(es[k..], (e: Event) => 0, f);
  }

  /** Where the bound fails, some faithful reading is refused. */
  lemma UnluckyRefused(s: State, g: nat, x: int, raises: bool)
    requires g < |s.book.grants|
    requires if raises then MAX_BIGINT < High(s.book.ledger, g, x) else Low(s.book.ledger, g, x) < -MAX_BIGINT
    ensures Faithful(Unlucky(g, raises))
    ensures LedgerCheck(Unlucky(g, raises)(s.book.ledger), s.book.grants).Fail?
  {
    UnluckyFaithful(g, raises);
    var leq := LeadingFirst(g, raises);
    var es := Unlucky(g, raises)(s.book.ledger);
    SortSorts(s.book.ledger, leq);
    SortPermutes(s.book.ledger, leq);
    var k := UnluckyReaches(es, g, raises, x);
    SumOfPermutation(es, s.book.ledger, ExtremeOf(g, x, raises));
    TotalsAsSums(es[..k], g);
    if ScanFault(es, |s.book.grants|).Pass? {
      PassMeansInRange(es, |s.book.grants|, k, g);
    }
  }

  // ---------------------------------------------------------------- exactly when

  ghost predicate AlwaysPasses(s: State) {
    forall scan: Scan | Faithful(scan) :: LedgerCheck(scan(s.book.ledger), s.book.grants).Pass?
  }

  /**
   * The comparison passes however ties come out exactly when, for each grant
   * and instant, the reserved deltas before the instant plus the raises at it
   * stay within 2^63-1, and those before it plus the reductions at it stay
   * above the mirrored bound.
   */
  lemma PassesExactly(s: State)
    requires GrantsOk(s) && LedgerOk(s)
    ensures AlwaysPasses(s) <==> Timely(s.book.ledger, |s.book.grants|)
  {
    if Timely(s.book.ledger, |s.book.grants|) {
      forall scan: Scan | Faithful(scan)
        ensures LedgerCheck(scan(s.book.ledger), s.book.grants).Pass?
      {
        LedgerCheckPasses(s, scan);
      }
    } else {
      var g: nat, x: int :| g < |s.book.grants| && !(High(s.book.ledger, g, x) <= MAX_BIGINT && -MAX_BIGINT <= Low(s.book.ledger, g, x));
      var raises := MAX_BIGINT < High(s.book.ledger, g, x);
      UnluckyRefused(s, g, x, raises);
      hide GrantsOk, LedgerOk, LedgerCheck, Faithful, High, Low;
      assert Faithful(Unlucky(g, raises)) && !LedgerCheck(Unlucky(g, raises)(s.book.ledger), s.book.grants).Pass?;
    }
  }

  /** A refusal is always that overflow: the totals themselves agree in every order. */
  lemma RefusalIsOverflow(s: State, scan: Scan)
    requires GrantsOk(s) && LedgerOk(s) && Faithful(scan)
    requires LedgerCheck(scan(s.book.ledger), s.book.grants).Fail?
    ensures LedgerCheck(scan(s.book.ledger), s.book.grants).error == AmountOverflow
    ensures !Timely(s.book.ledger, |s.book.grants|)
  {
    var es := scan(s.book.ledger);
    if Timely(s.book.ledger, |s.book.grants|) {
      LedgerCheckPasses(s, scan);
    }
    assert Reading(es, s);
    ReadEvents(es, s);
    CountersAgree(es, s);
    ScanFaultIsOverflow(es, |s.book.grants|);
  }

  lemma {:induction false} ScanFaultIsOverflow(scan: seq<Event>, grants: nat)
    requires forall e | e in scan :: e.grant < grants
    ensures ScanFault(scan, grants).Fail? ==> ScanFault(scan, grants).error == AmountOverflow
  {
    if scan != [] {
      var init, e := scan[..|scan| - 1], scan[|scan| - 1];
      assert forall f | f in init :: f in scan;
      assert e in scan;
      ScanFaultIsOverflow(init, grants);
    }
  }

  /** A plain sufficient bound, free of instants: the gross amount ever reserved and returned. */
  function Movement(e: Event): int {
    if e.delta.reserved < 0 then -e.delta.reserved else e.delta.reserved
  }

  function Countermovement(e: Event): int {
    -Movement(e)
  }

  lemma {:induction false} MovementNegated(es: seq<Event>)
    ensures SumOf(es, Countermovement) == -SumOf(es, Movement)
  {
    if es != [] {
      MovementNegated(es[..|es| - 1]);
    }
  }

  lemma MovementBounds(es: seq<Event>, g: nat, x: int)
    ensures -SumOf(es, Movement) <= Low(es, g, x) <= SumOf(es, Movement)
    ensures -SumOf(es, Movement) <= High(es, g, x) <= SumOf(es, Movement)
  {
    MovementNegated(es);
    SumOfBelow(es, HighOf(g, x), Movement);
    SumOfBelow(es, LowOf(g, x), Movement);
    SumOfBelow(es, Countermovement, HighOf(g, x));
    SumOfBelow(es, Countermovement, LowOf(g, x));
  }

  lemma MovementIsTimely(es: seq<Event>, grants: nat)
    requires SumOf(es, Movement) <= MAX_BIGINT
    ensures Timely(es, grants)
  {
    forall g: nat, x: int | g < grants
      ensures High(es, g, x) <= MAX_BIGINT && -MAX_BIGINT <= Low(es, g, x)
    {
      MovementBounds(es, g, x);
    }
  }
}
