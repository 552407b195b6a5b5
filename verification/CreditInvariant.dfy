/** What holds of one user's rows in every reachable state. */
module CreditInvariant {
  import opened Prelude
  import opened CreditPolicy
  import opened CreditRecords
  import opened CreditLifecycle

  /** The account's clock; before the account exists, nothing has happened. */
  function AsOf(s: State): int {
    if s.account.Some? then s.account.value.updatedAt else s.user.signedUpAt
  }

  ghost predicate AccountOk(s: State) {
    match s.account
    case None =>
      && s.cycles == [] && s.book == Book([], []) && s.reservations == [] && s.operations == map[]
    case Some(a) =>
      && a.anchor == s.user.signedUpAt <= a.createdAt <= a.updatedAt
      && (a.pending.Some? ==> Rank(a.pending.value) < Rank(a.plan))
      && (s.user.role.Master? ==> a.plan == Max && a.pending.None?)
  }

  ghost predicate CycleOk(s: State, c: Cycle) {
    && 0 <= c.index
    && c.startsAt == s.user.signedUpAt + c.index * CYCLE
    && c.endsAt == c.startsAt + CYCLE <= MAX_INSTANT
    && c.allowance == PolicyOf(c.plan).allowance
    && c.startsAt <= c.createdAt < c.endsAt
    && c.startsAt <= AsOf(s)
  }

  ghost predicate CyclesOk(s: State) {
    && (forall i | 0 <= i < |s.cycles| :: CycleOk(s, s.cycles[i]))
    && (forall i, j | 0 <= i < j < |s.cycles| :: s.cycles[i].index < s.cycles[j].index)
  }

  ghost predicate GrantOk(s: State, g: Grant) {
    && g.counters.Balanced() && g.counters.granted <= MAX_BIGINT
    && g.createdAt <= AsOf(s)
    && (g.expiresAt.Some? ==> g.createdAt < g.expiresAt.value)
    && (g.kind.Base? ==>
          && g.kind.cycle < |s.cycles|
          && g.expiresAt == Some(s.cycles[g.kind.cycle].endsAt)
          && g.counters.granted == s.cycles[g.kind.cycle].allowance)
  }

  ghost predicate GrantsOk(s: State) {
    && (forall g | 0 <= g < |s.book.grants| :: GrantOk(s, s.book.grants[g]))
    && (forall c | 0 <= c < |s.cycles| :: |Bases(s.book.grants, c)| == 1)
  }

  /** A grant that has expired by the account's clock has nothing left to spend. */
  ghost predicate NoResurrection(s: State) {
    forall g | 0 <= g < |s.book.grants| ::
      s.book.grants[g].ExpiredAt(AsOf(s)) ==> s.book.grants[g].counters.Available() == 0
  }

  /** Each grant holds exactly what held reservations allocated on it. */
  ghost predicate HoldsOk(s: State) {
    forall g | 0 <= g < |s.book.grants| :: s.book.grants[g].counters.reserved == HeldOn(s.reservations, g)
  }

  ghost predicate ItemsOk(r: Reservation) {
    && r.items != []
    && (forall i | i in r.items :: 1 <= i.maximumUnits && QuoteUsage(i.meter, i.maximumUnits) == Ok(i.quoted))
    && (forall i, j | 0 <= i < j < |r.items| :: r.items[i].meter != r.items[j].meter)
    && SumOf(r.items, QuotedOf) == r.total
    && 0 < r.total <= MAX_BIGINT
  }

  ghost predicate AllocationsOk(r: Reservation, grants: nat) {
    && (forall a | a in r.allocations :: 0 < a.amount && a.grant < grants)
    && (forall i, j | 0 <= i < j < |r.allocations| :: r.allocations[i].grant != r.allocations[j].grant)
    && SumOf(r.allocations, AmountOf) == r.total
  }

  ghost predicate TerminalOk(r: Reservation) {
    r.terminal.Some? ==>
      var t := r.terminal.value;
      && r.createdAt <= t.at
      && (t.settled <==> !t.delivery.NoDeliverable?)
      && (t.settled <==> t.reason.UsageSettled?)
      && (forall u | u in t.records :: 0 <= u.actualUnits && 0 <= u.charged <= MAX_BIGINT && (!t.settled ==> u.charged == 0))
      && (forall i, j | 0 <= i < j < |t.records| :: t.records[i].meter != t.records[j].meter)
      && (t.settled ==> 0 < SumOf(t.records, ChargedOf))
      && 0 <= SumOf(t.records, ChargedOf) <= r.total
  }

  ghost predicate ReservationOk(s: State, r: Reservation) {
    && ItemsOk(r) && AllocationsOk(r, |s.book.grants|) && TerminalOk(r) && r.createdAt <= AsOf(s)
  }

  ghost predicate ReservationsOk(s: State) {
    && (forall i | 0 <= i < |s.reservations| :: ReservationOk(s, s.reservations[i]))
    && (forall i, j | 0 <= i < j < |s.reservations| :: s.reservations[i].key != s.reservations[j].key)
    && (forall i, j | 0 <= i < j < |s.reservations| ::
          s.reservations[i].terminal.Some? && s.reservations[j].terminal.Some? ==>
            s.reservations[i].terminal.value.key != s.reservations[j].terminal.value.key)
  }

  /** The shape check of the ledger table. */
  predicate ShapeOk(e: Event) {
    var d := e.delta;
    match e.kind
    case GrantEvent => 0 < d.granted && d.reserved == d.consumed == d.expired == 0
    case AdjustEvent => 0 < d.granted && d.reserved == d.consumed == d.expired == 0
    case ReserveEvent => d.granted == 0 && 0 < d.reserved && d.consumed == d.expired == 0
    case SettleEvent => d.granted == 0 && d.reserved < 0 && 0 <= d.consumed && 0 <= d.expired && d.consumed + d.expired <= -d.reserved
    case ReleaseEvent => d.granted == 0 && d.reserved < 0 && d.consumed == 0 && 0 <= d.expired <= -d.reserved
    case ExpireEvent => d.granted == d.reserved == d.consumed == 0 && 0 < d.expired
  }

  /** What a ledger key says about the tables. */
  ghost predicate KeyOk(s: State, e: Event) {
    match e.key
    case CycleBase(_) => e.kind.GrantEvent?
    case Command(k) => k in s.operations && (e.kind.GrantEvent? || e.kind.AdjustEvent?)
    case ExpireOf(g) =>
      && e.kind.ExpireEvent? && g == e.grant < |s.book.grants| && s.book.grants[g].ExpiredAt(AsOf(s))
    case ReserveOf(r) => e.kind.ReserveEvent? && r < |s.reservations|
    case TerminalOf(r) =>
      && (e.kind.SettleEvent? || e.kind.ReleaseEvent?) && r < |s.reservations| && s.reservations[r].terminal.Some?
  }

  /** The columns of the ledger's uniqueness constraint. */
  function Ident(e: Event): (EventKey, nat, EventKind) {
    (e.key, e.grant, e.kind)
  }

  ghost predicate LedgerUnique(ledger: seq<Event>) {
    forall i, j | 0 <= i < j < |ledger| :: Ident(ledger[i]) != Ident(ledger[j])
  }

  /** Every grant's counters are the sums of its ledger events. */
  ghost predicate LedgerBalances(b: Book) {
    forall g | 0 <= g < |b.grants| :: Totals(b.ledger, g) == b.grants[g].counters
  }

  ghost predicate LedgerOk(s: State) {
    && (forall e | e in s.book.ledger :: e.grant < |s.book.grants| && ShapeOk(e) && KeyOk(s, e))
    && LedgerUnique(s.book.ledger)
    && LedgerBalances(s.book)
  }

  ghost predicate BoundedBalance(s: State) {
    SumOf(s.book.grants, OutstandingOf) <= MAX_BIGINT
  }

  ghost predicate OperationOk(s: State, o: Operation) {
    && o.cycle < |s.cycles|
    && (o.grant.Some? ==> o.grant.value < |s.book.grants|)
    && match o.payload
       case PlanChange(_) => !o.outcome.Granted? && (o.outcome.Upgraded? <==> o.grant.Some?)
       case BonusGrant(amount, expiresAt, _) =>
         && 0 < amount && o.outcome.Granted? && o.grant.Some?
         && (expiresAt.Some? ==> o.effectiveAt < expiresAt.value)
  }

  ghost predicate OperationsOk(s: State) {
    forall k | k in s.operations :: OperationOk(s, s.operations[k])
  }

  ghost predicate Core(s: State) {
    && AccountOk(s)
    && CyclesOk(s)
    && GrantsOk(s)
    && NoResurrection(s)
    && HoldsOk(s)
    && ReservationsOk(s)
    && LedgerOk(s)
    && BoundedBalance(s)
    && OperationsOk(s)
  }

  /** The newest cycle carries the account's plan. */
  ghost predicate Started(s: State) {
    s.account.Some? ==> s.cycles != [] && s.cycles[|s.cycles| - 1].plan == s.account.value.plan
  }

  /** Administration keys are used only together with their audit row. */
  ghost predicate AuditsOk(s: State) {
    forall r :: MasterCommand(r) in s.operations ==> r in s.audits
  }

  ghost predicate Inv(s: State) {
    Core(s) && Started(s) && AuditsOk(s)
  }

  // ---------------------------------------------------------------- consequences

  lemma CoreTables(s: State)
    requires Core(s)
    ensures GrantsOk(s) && LedgerOk(s)
  {
  }

  lemma {:induction false} LatestIsLast(cycles: seq<Cycle>)
    requires cycles != []
    requires forall i, j | 0 <= i < j < |cycles| :: cycles[i].index < cycles[j].index
    ensures Latest(cycles) == |cycles| - 1
  {
    var n := |cycles| - 1;
    if n > 0 {
      LatestIsLast(cycles[..n]);
    }
  }

  /** The coherence check that guards renewal never fires. */
  lemma InvCoherent(s: State)
    requires Core(s) && Started(s) && s.account.Some?
    ensures Coherent(s)
    ensures Latest(s.cycles) == |s.cycles| - 1
    ensures s.book.grants[BaseRow(s)].kind == Base(|s.cycles| - 1)
  {
    LatestIsLast(s.cycles);
    var n := |s.cycles| - 1;
    var c := s.cycles[n];
    assert CycleOk(s, c);
    BoundsConstantOnCycle(s.user.signedUpAt, c.index, c.startsAt);
    var bases := Bases(s.book.grants, n);
    assert |bases| == 1;
    assert GrantOk(s, s.book.grants[bases[0]]);
  }

  lemma OutstandingNonNegative(s: State)
    requires GrantsOk(s)
    ensures 0 <= SumOf(s.book.grants, OutstandingOf)
  {
    forall g | g in s.book.grants
      ensures 0 <= OutstandingOf(g)
    {
      var i :| 0 <= i < |s.book.grants| && s.book.grants[i] == g;
      assert GrantOk(s, s.book.grants[i]);
    }
    SumOfNonNegative(s.book.grants, OutstandingOf);
  }

  lemma UniqueConcat(l: seq<Event>, es: seq<Event>)
    requires LedgerUnique(l)
    requires forall i, j | 0 <= i < j < |es| :: es[i].grant != es[j].grant
    requires forall e, f | e in es && f in l :: Ident(e) != Ident(f)
    ensures LedgerUnique(l + es)
  {
    forall i, j | 0 <= i < j < |l + es|
      ensures Ident((l + es)[i]) != Ident((l + es)[j])
    {
      if j < |l| {
        assert (l + es)[i] == l[i] && (l + es)[j] == l[j];
      } else if i < |l| {
        assert (l + es)[i] in l && (l + es)[j] in es;
      } else {
        assert (l + es)[i] == es[i - |l|] && (l + es)[j] == es[j - |l|];
      }
    }
  }

  lemma {:induction false} BasesSameKinds(xs: seq<Grant>, ys: seq<Grant>, c: nat)
    requires |xs| == |ys|
    requires forall i | 0 <= i < |xs| :: xs[i].kind == ys[i].kind
    ensures Bases(xs, c) == Bases(ys, c)
  {
    if xs != [] {
      BasesSameKinds(xs[..|xs| - 1], ys[..|ys| - 1], c);
    }
  }

  lemma {:induction false} BasesAbsent(xs: seq<Grant>, c: nat)
    requires forall i | 0 <= i < |xs| :: xs[i].kind != Base(c)
    ensures Bases(xs, c) == []
  {
    if xs != [] {
      BasesAbsent(xs[..|xs| - 1], c);
    }
  }

  lemma BasesAppend(xs: seq<Grant>, g: Grant, c: nat)
    ensures Bases(xs + [g], c) == Bases(xs, c) + if g.kind == Base(c) then [|xs|] else []
  {
    assert (xs + [g])[..|xs|] == xs;
  }
}
