/** The greedy allocation: exact, complete, and optimal for every deadline. */
module GreedyAllocation {
  import opened Prelude
  import opened Sorting
  import opened CreditPolicy
  import opened CreditRecords
  import opened CreditLifecycle
  import opened CreditAccounting
  import opened CreditInvariant
  import opened LifecycleInvariant
  import opened AccountingInvariant

  /** Total allocated on the rows in `rows`. */
  function TakenFrom(allocations: seq<Allocation>, rows: set<nat>): int {
    if allocations == [] then 0
    else (if allocations[0].grant in rows then allocations[0].amount else 0) + TakenFrom(allocations[1..], rows)
  }

  /** Available credit of the candidates whose rows are in `rows`. */
  function AvailableIn(cs: seq<Candidate>, rows: set<nat>): int {
    if cs == [] then 0
    else (if cs[0].row in rows then cs[0].grant.counters.Available() else 0) + AvailableIn(cs[1..], rows)
  }

  ghost predicate Spendable(cs: seq<Candidate>) {
    && (forall c | c in cs :: 0 <= c.grant.counters.Available())
    && (forall i, j | 0 <= i < j < |cs| :: cs[i].row != cs[j].row)
  }

  /** `rows` holds an initial stretch of the spending order. */
  ghost predicate Leading(cs: seq<Candidate>, rows: set<nat>) {
    forall i, j | 0 <= i < j < |cs| :: cs[j].row in rows ==> cs[i].row in rows
  }

  lemma {:induction false} NoneAvailable(cs: seq<Candidate>, rows: set<nat>)
    requires forall c | c in cs :: c.row !in rows
    ensures AvailableIn(cs, rows) == 0
  {
    if cs != [] {
      assert cs[0] in cs && forall c | c in cs[1..] :: c in cs;
      NoneAvailable(cs[1..], rows);
    }
  }

  lemma {:induction false} AvailableInNonNegative(cs: seq<Candidate>, rows: set<nat>)
    requires forall c | c in cs :: 0 <= c.grant.counters.Available()
    ensures 0 <= AvailableIn(cs, rows)
  {
    if cs != [] {
      assert cs[0] in cs && forall c | c in cs[1..] :: c in cs;
      AvailableInNonNegative(cs[1..], rows);
    }
  }

  lemma {:induction false} NothingTaken(cs: seq<Candidate>, remaining: int, rows: set<nat>)
    requires 0 <= remaining
    requires forall c | c in cs :: c.row !in rows && 0 <= c.grant.counters.Available()
    ensures TakenFrom(Allocate(cs, remaining), rows) == 0
    decreases |cs|
  {
    if cs != [] && remaining != 0 {
      assert cs[0] in cs && forall c | c in cs[1..] :: c in cs;
      var taken := Min(cs[0].grant.counters.Available(), remaining);
      NothingTaken(cs[1..], remaining - taken, rows);
      AllocateUnfolds(cs, remaining, rows);
    }
  }

  /** One step of the greedy loop. */
  lemma AllocateUnfolds(cs: seq<Candidate>, remaining: int, rows: set<nat>)
    requires 0 < remaining && cs != []
    requires forall c | c in cs :: 0 <= c.grant.counters.Available()
    ensures 0 <= cs[0].grant.counters.Available()
    ensures forall c | c in cs[1..] :: 0 <= c.grant.counters.Available()
    ensures var taken := Min(cs[0].grant.counters.Available(), remaining);
            TakenFrom(Allocate(cs, remaining), rows)
            == (if cs[0].row in rows then taken else 0) + TakenFrom(Allocate(cs[1..], remaining - taken), rows)
  {
    assert cs[0] in cs && forall c | c in cs[1..] :: c in cs;
    var taken := Min(cs[0].grant.counters.Available(), remaining);
    var rest := Allocate(cs[1..], remaining - taken);
    if taken > 0 {
      var head := Allocation(cs[0].row, taken);
      assert Allocate(cs, remaining) == [head] + rest;
      assert ([head] + rest)[1..] == rest;
    } else {
      assert Allocate(cs, remaining) == [] + rest;
      assert [] + rest == rest;
    }
  }

  /** From every initial stretch of the spending order, greedy takes all it needs or all there is. */
  lemma {:induction false} GreedyTakesMost(cs: seq<Candidate>, remaining: int, rows: set<nat>)
    requires 0 <= remaining && Leading(cs, rows)
    requires forall c | c in cs :: 0 <= c.grant.counters.Available()
    ensures TakenFrom(Allocate(cs, remaining), rows) == Min(remaining, AvailableIn(cs, rows))
    decreases |cs|
  {
    AvailableInNonNegative(cs, rows);
    if cs != [] && remaining != 0 {
      assert cs[0] in cs && forall c | c in cs[1..] :: c in cs;
      if cs[0].row in rows {
        var taken := Min(cs[0].grant.counters.Available(), remaining);
        AllocateUnfolds(cs, remaining, rows);
        GreedyTakesMost(cs[1..], remaining - taken, rows);
        AvailableInNonNegative(cs[1..], rows);
      } else {
        forall c | c in cs
          ensures c.row !in rows
        {
          var i :| 0 <= i < |cs| && cs[i] == c;
        }
        NothingTaken(cs, remaining, rows);
        NoneAvailable(cs, rows);
      }
    }
  }

  // ---------------------------------------------------------------- any other allocation

  /** An allocation that some way of spending could have produced. */
  ghost predicate Feasible(allocations: seq<Allocation>, grants: seq<Grant>) {
    && (forall i, j | 0 <= i < j < |allocations| :: allocations[i].grant != allocations[j].grant)
    && (forall a | a in allocations :: a.grant < |grants| && 0 <= a.amount <= grants[a.grant].counters.Available())
  }

  lemma {:induction false} AvailableInRemove(cs: seq<Candidate>, k: nat, rows: set<nat>)
    requires k < |cs| && cs[k].row in rows
    requires forall i, j | 0 <= i < j < |cs| :: cs[i].row != cs[j].row
    ensures AvailableIn(cs, rows) == cs[k].grant.counters.Available() + AvailableIn(cs, rows - {cs[k].row})
  {
    if k == 0 {
      SameOnOthers(cs[1..], rows, rows - {cs[0].row});
    } else {
      AvailableInRemove(cs[1..], k - 1, rows);
    }
  }

  lemma {:induction false} SameOnOthers(cs: seq<Candidate>, rows: set<nat>, rows': set<nat>)
    requires forall c | c in cs :: c.row in rows <==> c.row in rows'
    ensures AvailableIn(cs, rows) == AvailableIn(cs, rows')
  {
    if cs != [] {
      assert cs[0] in cs && forall c | c in cs[1..] :: c in cs;
      SameOnOthers(cs[1..], rows, rows');
    }
  }

  lemma {:induction false} TakenSameOnOthers(allocations: seq<Allocation>, rows: set<nat>, rows': set<nat>)
    requires forall a | a in allocations :: a.grant in rows <==> a.grant in rows'
    ensures TakenFrom(allocations, rows) == TakenFrom(allocations, rows')
  {
    if allocations != [] {
      assert allocations[0] in allocations && forall a | a in allocations[1..] :: a in allocations;
      TakenSameOnOthers(allocations[1..], rows, rows');
    }
  }

  /** No feasible allocation takes more from `rows` than is available there. */
  lemma {:induction false} FeasibleBounded(allocations: seq<Allocation>, grants: seq<Grant>, cs: seq<Candidate>, rows: set<nat>)
    requires Feasible(allocations, grants) && Spendable(cs)
    requires forall a | a in allocations :: Candidate(a.grant, grants[a.grant]) in cs
    ensures TakenFrom(allocations, rows) <= AvailableIn(cs, rows)
    decreases |allocations|
  {
    if allocations == [] {
      AvailableInNonNegative(cs, rows);
    } else {
      var a, rest := allocations[0], allocations[1..];
      assert a in allocations && forall b | b in rest :: b in allocations;
      if a.grant in rows {
        var k :| 0 <= k < |cs| && cs[k] == Candidate(a.grant, grants[a.grant]);
        AvailableInRemove(cs, k, rows);
        forall b | b in rest
          ensures b.grant != a.grant
        {
          var i :| 0 <= i < |rest| && rest[i] == b;
          assert allocations[i + 1] == b;
        }
        TakenSameOnOthers(rest, rows, rows - {a.grant});
        FeasibleBounded(rest, grants, cs, rows - {a.grant});
      } else {
        FeasibleBounded(rest, grants, cs, rows);
      }
    }
  }

  lemma {:induction false} TakenWithinTotal(allocations: seq<Allocation>, rows: set<nat>)
    requires forall a | a in allocations :: 0 <= a.amount
    ensures TakenFrom(allocations, rows) <= SumOf(allocations, AmountOf)
  {
    if allocations != [] {
      var a := allocations[0];
      assert a in allocations && forall b | b in allocations[1..] :: b in allocations;
      assert allocations == [a] + allocations[1..];
      SumOfConcat([a], allocations[1..], AmountOf);
      assert SumOf([a], AmountOf) == a.amount by {
        assert [a][..0] == [];
      }
      TakenWithinTotal(allocations[1..], rows);
    }
  }

  lemma {:induction false} TakenFromAll(allocations: seq<Allocation>, rows: set<nat>)
    requires forall a | a in allocations :: a.grant in rows
    ensures TakenFrom(allocations, rows) == SumOf(allocations, AmountOf)
  {
    if allocations != [] {
      var a := allocations[0];
      assert a in allocations && forall b | b in allocations[1..] :: b in allocations;
      assert allocations == [a] + allocations[1..];
      SumOfConcat([a], allocations[1..], AmountOf);
      assert SumOf([a], AmountOf) == a.amount by {
        assert [a][..0] == [];
      }
      TakenFromAll(allocations[1..], rows);
    }
  }

  // ---------------------------------------------------------------- over a grant table

  ghost predicate NoneOverspent(grants: seq<Grant>) {
    forall g | g in grants :: 0 <= g.counters.Available()
  }

  /** Rows of the grants that expire by `deadline`. */
  function ExpiringBy(grants: seq<Grant>, deadline: int): set<nat> {
    set i: nat | i < |grants| && grants[i].ExpiredAt(deadline)
  }

  lemma PriorityOrder()
    ensures TotalPreorder(PriorityLeq)
  {
  }

  lemma PrioritySpendable(grants: seq<Grant>)
    requires NoneOverspent(grants)
    ensures Spendable(Priority(grants))
    ensures forall i | 0 <= i < |grants| :: Candidate(i, grants[i]) in Priority(grants)
    ensures forall c | c in Priority(grants) :: c.row < |grants| && c.grant == grants[c.row]
  {
    PriorityRows(grants);
    PriorityDistinct(grants);
    SortPermutes(Candidates(grants), PriorityLeq);
    forall i | 0 <= i < |grants|
      ensures Candidate(i, grants[i]) in Priority(grants)
    {
      assert Candidates(grants)[i] in Candidates(grants);
    }
  }

  /** Grants that expire by a deadline come first in the spending order. */
  lemma DeadlineLeads(grants: seq<Grant>, deadline: int)
    requires NoneOverspent(grants)
    ensures Leading(Priority(grants), ExpiringBy(grants, deadline))
  {
    var cs, rows := Priority(grants), ExpiringBy(grants, deadline);
    PrioritySpendable(grants);
    PriorityOrder();
    SortSorts(Candidates(grants), PriorityLeq);
    forall i, j | 0 <= i < j < |cs| && cs[j].row in rows
      ensures cs[i].row in rows
    {
      assert cs[i] in cs && cs[j] in cs;
      assert PriorityLeq(cs[i], cs[j]);
    }
  }

  function AllRows(n: nat): (rows: set<nat>)
    ensures forall i: nat :: i in rows <==> i < n
  {
    if n == 0 then {} else AllRows(n - 1) + {n - 1}
  }

  /** Exact and complete: the allocation covers the quote exactly when enough credit is available at all. */
  lemma GreedyExact(grants: seq<Grant>, total: int)
    requires NoneOverspent(grants) && 0 <= total
    ensures forall c | c in Priority(grants) :: 0 <= c.grant.counters.Available()
    ensures SumOf(Allocate(Priority(grants), total), AmountOf) == Min(total, SumOf(grants, AvailableOf))
  {
    var cs := Priority(grants);
    var all := AllRows(|grants|);
    PrioritySpendable(grants);
    AllocateRows(cs, total, |grants|);
    assert Leading(cs, all) by {
      forall i | 0 <= i < |cs|
        ensures cs[i].row in all
      {
        assert cs[i] in cs;
      }
    }
    GreedyTakesMost(cs, total, all);
    TakenFromAll(Allocate(cs, total), all);
    AvailableAll(grants);
  }

  lemma AvailableAll(grants: seq<Grant>)
    ensures AvailableIn(Priority(grants), AllRows(|grants|)) == SumOf(grants, AvailableOf)
  {
    var cs := Priority(grants);
    var all := AllRows(|grants|);
    PriorityRows(grants);
    forall c | c in cs
      ensures c.row in all
    {
    }
    AvailableAsSum(cs, all);
    SortPermutes(Candidates(grants), PriorityLeq);
    SumOfPermutation(cs, Candidates(grants), CandidateAvailable);
    CandidatesSum(grants);
  }

  function CandidateAvailable(c: Candidate): int {
    c.grant.counters.Available()
  }

  lemma {:induction false} AvailableAsSum(cs: seq<Candidate>, rows: set<nat>)
    requires forall c | c in cs :: c.row in rows
    ensures AvailableIn(cs, rows) == SumOf(cs, CandidateAvailable)
  {
    if cs != [] {
      assert cs[0] in cs && forall c | c in cs[1..] :: c in cs;
      AvailableAsSum(cs[1..], rows);
      assert cs == [cs[0]] + cs[1..];
      SumOfConcat([cs[0]], cs[1..], CandidateAvailable);
      assert SumOf([cs[0]], CandidateAvailable) == CandidateAvailable(cs[0]) by {
        assert [cs[0]][..0] == [];
      }
    }
  }

  lemma {:induction false} CandidatesSum(grants: seq<Grant>)
    ensures SumOf(Candidates(grants), CandidateAvailable) == SumOf(grants, AvailableOf)
  {
    if grants != [] {
      var n := |grants| - 1;
      CandidatesSum(grants[..n]);
      SumOfAppend(Candidates(grants[..n]), Candidate(n, grants[n]), CandidateAvailable);
      assert Candidates(grants) == Candidates(grants[..n]) + [Candidate(n, grants[n])];
    }
  }

  /** Optimal: for every deadline, no other way to cover the quote uses more of the credit that expires by then. */
  lemma GreedyOptimal(grants: seq<Grant>, total: int, other: seq<Allocation>, deadline: int)
    requires NoneOverspent(grants) && 0 <= total <= SumOf(grants, AvailableOf)
    requires Feasible(other, grants) && SumOf(other, AmountOf) == total
    ensures forall c | c in Priority(grants) :: 0 <= c.grant.counters.Available()
    ensures TakenFrom(other, ExpiringBy(grants, deadline))
            <= TakenFrom(Allocate(Priority(grants), total), ExpiringBy(grants, deadline))
  {
    var cs, rows := Priority(grants), ExpiringBy(grants, deadline);
    PrioritySpendable(grants);
    DeadlineLeads(grants, deadline);
    GreedyTakesMost(cs, total, rows);
    TakenWithinTotal(other, rows);
    FeasibleBounded(other, grants, cs, rows);
  }

  /** The greedy allocation is itself one of the feasible ones. */
  lemma GreedyFeasible(grants: seq<Grant>, total: int)
    requires NoneOverspent(grants) && 0 <= total
    ensures forall c | c in Priority(grants) :: 0 <= c.grant.counters.Available()
    ensures Feasible(Allocate(Priority(grants), total), grants)
  {
    var cs := Priority(grants);
    PrioritySpendable(grants);
    AllocateFits(cs, total);
    forall a | a in Allocate(cs, total)
      ensures a.grant < |grants| && 0 <= a.amount <= grants[a.grant].counters.Available()
    {
      assert Fits(a, cs);
    }
  }

  // ---------------------------------------------------------------- grant by grant

  /** Grant `i` is to be spent before grant `j`: it expires sooner, or at the same time and is older; never-expiring ones come last. */
  predicate Before(grants: seq<Grant>, i: nat, j: nat)
    requires i < |grants| && j < |grants|
  {
    var x, y := grants[i], grants[j];
    || (x.expiresAt.Some? && (y.expiresAt.None? || x.expiresAt.value < y.expiresAt.value))
    || (x.expiresAt == y.expiresAt
        && (x.createdAt < y.createdAt || (x.createdAt == y.createdAt && (x.tag < y.tag || (x.tag == y.tag && i < j)))))
  }

  function RowsBefore(grants: seq<Grant>, j: nat): set<nat>
    requires j < |grants|
  {
    set i: nat | i < |grants| && Before(grants, i, j)
  }

  /** Available credit of the grants in `rows`. */
  function AvailableOn(grants: seq<Grant>, rows: set<nat>): int {
    if grants == [] then 0
    else
      var n := |grants| - 1;
      AvailableOn(grants[..n], rows) + if n in rows then grants[n].counters.Available() else 0
  }

  function AvailableWithin(rows: set<nat>): Candidate -> int {
    (c: Candidate) => if c.row in rows then c.grant.counters.Available() else 0
  }

  lemma {:induction false} WithinAsSum(cs: seq<Candidate>, rows: set<nat>)
    ensures AvailableIn(cs, rows) == SumOf(cs, AvailableWithin(rows))
  {
    if cs != [] {
      WithinAsSum(cs[1..], rows);
      assert cs == [cs[0]] + cs[1..];
      SumOfConcat([cs[0]], cs[1..], AvailableWithin(rows));
      SumOfOne([cs[0]], AvailableWithin(rows));
    }
  }

  lemma {:induction false} WithinCandidates(grants: seq<Grant>, rows: set<nat>)
    ensures SumOf(Candidates(grants), AvailableWithin(rows)) == AvailableOn(grants, rows)
  {
    if grants != [] {
      var n := |grants| - 1;
      WithinCandidates(grants[..n], rows);
      SumOfAppend(Candidates(grants[..n]), Candidate(n, grants[n]), AvailableWithin(rows));
    }
  }

  lemma AvailableByRow(grants: seq<Grant>, rows: set<nat>)
    ensures AvailableIn(Priority(grants), rows) == AvailableOn(grants, rows)
  {
    var cs := Priority(grants);
    WithinAsSum(cs, rows);
    SortPermutes(Candidates(grants), PriorityLeq);
    SumOfPermutation(cs, Candidates(grants), AvailableWithin(rows));
    WithinCandidates(grants, rows);
  }

  /** The order of the walk is this order. */
  lemma OrderMeans(grants: seq<Grant>, i: nat, j: nat)
    requires i < |grants| && j < |grants| && i != j
    ensures PriorityLeq(Candidate(i, grants[i]), Candidate(j, grants[j])) <==> Before(grants, i, j)
    ensures Before(grants, i, j) <==> !Before(grants, j, i)
  {
  }

  lemma BeforeTransitive(grants: seq<Grant>, i: nat, j: nat, k: nat)
    requires i < |grants| && j < |grants| && k < |grants| && Before(grants, i, j) && Before(grants, j, k)
    ensures Before(grants, i, k)
  {
  }

  lemma BeforeLeads(grants: seq<Grant>, j: nat)
    requires NoneOverspent(grants) && j < |grants|
    ensures Leading(Priority(grants), RowsBefore(grants, j)) && Leading(Priority(grants), RowsBefore(grants, j) + {j})
  {
    hide Before;
    var cs, rows := Priority(grants), RowsBefore(grants, j);
    PrioritySpendable(grants);
    PriorityOrder();
    SortSorts(Candidates(grants), PriorityLeq);
    forall a, b | 0 <= a < b < |cs| && cs[b].row in rows + {j}
      ensures cs[a].row in rows
    {
      assert cs[a] in cs && cs[b] in cs;
      assert PriorityLeq(cs[a], cs[b]) && cs[a].row != cs[b].row;
      OrderMeans(grants, cs[a].row, cs[b].row);
      if cs[b].row in rows {
        BeforeTransitive(grants, cs[a].row, cs[b].row, j);
      }
    }
  }

  lemma {:induction false} TakenSplits(allocations: seq<Allocation>, rows: set<nat>, j: nat)
    requires j !in rows
    ensures TakenFrom(allocations, rows + {j}) == TakenFrom(allocations, rows) + TakenFrom(allocations, {j})
  {
    if allocations != [] {
      TakenSplits(allocations[1..], rows, j);
    }
  }

  lemma {:induction false} AvailableSplits(grants: seq<Grant>, rows: set<nat>, j: nat)
    requires j !in rows
    ensures AvailableOn(grants, rows + {j}) == AvailableOn(grants, rows) + if j < |grants| then grants[j].counters.Available() else 0
  {
    if grants != [] {
      AvailableSplits(grants[..|grants| - 1], rows, j);
    }
  }

  /**
   * What the walk takes from each grant, exactly: nothing while the grants to be
   * spent before it cover the request, otherwise what they leave uncovered, up
   * to what the grant has.
   */
  lemma SpentInOrder(grants: seq<Grant>, total: int, j: nat)
    requires NoneOverspent(grants) && 0 <= total && j < |grants|
    ensures forall c | c in Priority(grants) :: 0 <= c.grant.counters.Available()
    ensures TakenFrom(Allocate(Priority(grants), total), {j})
            == Min(grants[j].counters.Available(), if total <= AvailableOn(grants, RowsBefore(grants, j)) then 0
                                                   else total - AvailableOn(grants, RowsBefore(grants, j)))
  {
    hide Before, Priority, Allocate, TakenFrom, AvailableIn, AvailableOn, Leading, RowsBefore;
    var cs, rows := Priority(grants), RowsBefore(grants, j);
    PrioritySpendable(grants);
    BeforeLeads(grants, j);
    GreedyTakesMost(cs, total, rows);
    GreedyTakesMost(cs, total, rows + {j});
    AvailableByRow(grants, rows);
    AvailableByRow(grants, rows + {j});
    NotBeforeItself(grants, j);
    TakenSplits(Allocate(cs, total), rows, j);
    AvailableSplits(grants, rows, j);
    assert grants[j] in grants;
  }

  lemma NotBeforeItself(grants: seq<Grant>, j: nat)
    requires j < |grants|
    ensures j !in RowsBefore(grants, j)
  {
  }

  // ---------------------------------------------------------------- admission

  lemma CoreNoneOverspent(s: State)
    requires GrantsOk(s)
    ensures NoneOverspent(s.book.grants)
  {
    forall g | g in s.book.grants
      ensures 0 <= g.counters.Available()
    {
      var i :| 0 <= i < |s.book.grants| && s.book.grants[i] == g;
      assert GrantOk(s, s.book.grants[i]);
    }
  }

  /** Past the other guards, a request is admitted exactly when the available credit covers its quote. */
  lemma AdmitTotal(s: State, key: Key, es: seq<Estimate>, now: int, scan: Scan)
    requires Core(s) && s.account.Some? && ValidEstimates(es)
    requires forall e | e in es :: e.meter !in PolicyOf(s.account.value.plan).refused
    requires HeldCount(s.reservations) < PolicyOf(s.account.value.plan).maxConcurrentRequests
    requires LedgerCheck(scan(s.book.ledger), s.book.grants).Pass?
    requires Quotes(es).Ok? && SumOf(Quotes(es).value, QuotedOf) <= MAX_BIGINT
    ensures Admit(s, key, es, now, scan).Ok? <==> SumOf(Quotes(es).value, QuotedOf) <= SumOf(s.book.grants, AvailableOf)
    ensures Admit(s, key, es, now, scan).Err? ==> Admit(s, key, es, now, scan).error == MonthlyCreditExhausted
  {
    hide Core, LedgerCheck, PolicyOf, HeldCount;
    QuotesItems(es);
    QuotesPositive(Quotes(es).value);
    assert GrantsOk(s) by {
      CoreTables(s);
    }
    CoreNoneOverspent(s);
    GreedyExact(s.book.grants, SumOf(Quotes(es).value, QuotedOf));
    AdmitUnfolds(s, key, es, now, scan);
  }

  lemma AdmitUnfolds(s: State, key: Key, es: seq<Estimate>, now: int, scan: Scan)
    requires s.account.Some?
    requires forall e | e in es :: e.meter !in PolicyOf(s.account.value.plan).refused
    requires HeldCount(s.reservations) < PolicyOf(s.account.value.plan).maxConcurrentRequests
    requires LedgerCheck(scan(s.book.ledger), s.book.grants).Pass?
    requires Quotes(es).Ok? && 0 < SumOf(Quotes(es).value, QuotedOf) <= MAX_BIGINT
    requires forall c | c in Priority(s.book.grants) :: 0 <= c.grant.counters.Available()
    ensures var total := SumOf(Quotes(es).value, QuotedOf);
            && (Admit(s, key, es, now, scan).Ok? <==> SumOf(Allocate(Priority(s.book.grants), total), AmountOf) == total)
            && (Admit(s, key, es, now, scan).Err? ==> Admit(s, key, es, now, scan).error == MonthlyCreditExhausted)
  {
    hide PolicyOf, HeldCount, Quotes, SumOf, Allocate, Priority, ScanFault, Hold;
  }

  lemma {:induction false} QuotesPositive(items: seq<Item>)
    requires forall i | i in items :: 1 <= i.maximumUnits && QuoteUsage(i.meter, i.maximumUnits) == Ok(i.quoted)
    ensures 0 <= SumOf(items, QuotedOf) && (items != [] ==> 0 < SumOf(items, QuotedOf))
  {
    if items != [] {
      var n := |items| - 1;
      assert items[n] in items && forall i | i in items[..n] :: i in items;
      QuotesPositive(items[..n]);
    }
  }

  /** The allocation loop never tests expiry and need not: it takes nothing from a grant that has expired. */
  lemma NeverFromExpired(s: State, now: int, tag: nat, total: int)
    requires Core(s) && Started(s) && EnsureCycle(s, now, tag).Ok? && 0 <= total
    ensures var grants := EnsureCycle(s, now, tag).value.state.book.grants;
            && (forall c | c in Priority(grants) :: 0 <= c.grant.counters.Available())
            && forall a | a in Allocate(Priority(grants), total) ::
                 a.grant < |grants| && 0 < a.amount && !grants[a.grant].ExpiredAt(now)
  {
    EnsureKeeps(s, now, tag);
    var e := EnsureCycle(s, now, tag).value.state;
    var grants := e.book.grants;
    CoreNoneOverspent(e);
    GreedyFeasible(grants, total);
    PriorityRows(grants);
    AllocateRows(Priority(grants), total, |grants|);
    forall a | a in Allocate(Priority(grants), total)
      ensures !grants[a.grant].ExpiredAt(now)
    {
      assert a.amount <= grants[a.grant].counters.Available();
    }
  }
}
