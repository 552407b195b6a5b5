/**
 * The rows of one user's credit tables and the double-entry primitive that
 * moves a grant's counters and appends the matching ledger event.
 * No row is ever deleted, so a row is identified by its position in its table.
 */
module CreditRecords {
  import opened Prelude
  import opened CreditPolicy

  datatype CreditError =
    | InputInvalid
    | ClockRegressed
    | AccountInconsistent
    | AmountOverflow
    | PlanRefused
    | IdempotencyConflict
    | UserConcurrencyLimit
    | MonthlyCreditExhausted
    | ReservationMissing
    | ReservationStateConflict
    | UsageExceedsReservation

  datatype Role = Member | Master
  datatype Status = Active | Suspended
  datatype User = User(signedUpAt: int, role: Role, status: Status)

  datatype Account = Account(anchor: int, plan: Plan, pending: Option<Plan>, createdAt: int, updatedAt: int)

  datatype Cycle = Cycle(index: int, startsAt: int, endsAt: int, plan: Plan, allowance: int, createdAt: int)

  /** A grant's four counters, or a change of them. */
  datatype Counters = Counters(granted: int, reserved: int, consumed: int, expired: int) {
    function Plus(d: Counters): Counters {
      Counters(granted + d.granted, reserved + d.reserved, consumed + d.consumed, expired + d.expired)
    }

    function Available(): int {
      granted - reserved - consumed - expired
    }

    function Outstanding(): int {
      granted - consumed - expired
    }

    predicate InRange() {
      && -MAX_BIGINT <= granted <= MAX_BIGINT
      && -MAX_BIGINT <= reserved <= MAX_BIGINT
      && -MAX_BIGINT <= consumed <= MAX_BIGINT
      && -MAX_BIGINT <= expired <= MAX_BIGINT
    }

    /** The non-negativity and balance checks of the grant table. */
    predicate Balanced() {
      && 0 <= granted && 0 <= reserved && 0 <= consumed && 0 <= expired
      && reserved + consumed + expired <= granted
    }
  }

  const ZERO := Counters(0, 0, 0, 0)

  datatype GrantKind = Base(cycle: nat) | Bonus

  /** `tag` stands for the row's random id: it only breaks ties in the spending order. */
  datatype Grant = Grant(kind: GrantKind, tag: nat, createdAt: int, expiresAt: Option<int>, counters: Counters) {
    predicate ExpiredAt(now: int) {
      expiresAt.Some? && expiresAt.value <= now
    }

    function Add(d: Counters): Grant {
      this.(counters := counters.Plus(d))
    }
  }

  /** Caller-chosen operation keys; the source keeps the callers apart by prefix. */
  datatype Key =
    | Plain(text: string)
    | PromptReserve(request: nat)
    | PromptTerminal(request: nat)
    | GenerationReserve(job: nat)
    | GenerationTerminal(job: nat)
    | MasterCommand(request: nat)

  /** The ledger's own keys: `cycle_<i>_base`, `cmd_<key>`, `expire_<grant>`, `reserve_<id>`, `terminal_<id>`. */
  datatype EventKey =
    | CycleBase(index: int)
    | Command(key: Key)
    | ExpireOf(grant: nat)
    | ReserveOf(reservation: nat)
    | TerminalOf(reservation: nat)

  datatype EventKind = GrantEvent | AdjustEvent | ReserveEvent | SettleEvent | ReleaseEvent | ExpireEvent

  datatype Event = Event(grant: nat, kind: EventKind, key: EventKey, createdAt: int, delta: Counters)

  datatype Book = Book(grants: seq<Grant>, ledger: seq<Event>)

  datatype Item = Item(meter: Meter, maximumUnits: int, quoted: int)
  datatype Allocation = Allocation(grant: nat, amount: int)

  datatype Source = ProviderReported | PlatformMeasured | MockEstimate | Estimated
  datatype Delivery = Delivered | Partial | NoDeliverable
  datatype Reason =
    | UsageSettled
    | ProviderFailed
    | ProviderTimeout
    | ProviderRateLimited
    | CancelledBeforeDelivery
    | DeliveryFailed

  datatype UsageRecord = UsageRecord(meter: Meter, actualUnits: int, source: Source, charged: int)

  /** How a reservation left `held`: settled or released. */
  datatype Terminal =
    Terminal(settled: bool, key: Key, at: int, reason: Reason, delivery: Delivery, records: seq<UsageRecord>)

  datatype Reservation =
    Reservation(key: Key, total: int, createdAt: int, items: seq<Item>, allocations: seq<Allocation>, terminal: Option<Terminal>)
  {
    predicate Held() {
      terminal.None?
    }
  }

  datatype Payload = PlanChange(target: Plan) | BonusGrant(amount: int, expiresAt: Option<int>, reason: nat)
  datatype Outcome = Upgraded | Scheduled | Cancelled | Unchanged | Granted
  datatype Operation = Operation(payload: Payload, effectiveAt: int, cycle: nat, grant: Option<nat>, outcome: Outcome)

  datatype AdminAction = Promote | AdminPlan(target: Plan) | AdminBonus(amount: int, expiresAt: Option<int>)

  /** What an audited command's fingerprint covers. */
  datatype Audit = Audit(actor: nat, action: AdminAction, reason: nat)

  /** Everything the database holds about one user. */
  datatype State = State(
    user: User,
    account: Option<Account>,
    cycles: seq<Cycle>,
    book: Book,
    reservations: seq<Reservation>,
    operations: map<Key, Operation>,
    audits: map<nat, Audit>)

  // ---------------------------------------------------------------- ledger totals

  function DeltaOn(e: Event, g: nat): Counters {
    if e.grant == g then e.delta else ZERO
  }

  /** What the ledger says about grant `g`. */
  function Totals(es: seq<Event>, g: nat): Counters {
    if es == [] then ZERO else Totals(es[..|es| - 1], g).Plus(DeltaOn(es[|es| - 1], g))
  }

  lemma TotalsAppend(es: seq<Event>, e: Event, g: nat)
    ensures Totals(es + [e], g) == Totals(es, g).Plus(DeltaOn(e, g))
  {
    assert (es + [e])[..|es|] == es;
  }

  lemma PlusZero(c: Counters)
    ensures c.Plus(ZERO) == ZERO.Plus(c) == c
  {
  }

  lemma PlusAssociative(a: Counters, b: Counters, c: Counters)
    ensures a.Plus(b).Plus(c) == a.Plus(b.Plus(c))
  {
  }

  lemma {:induction false} TotalsConcat(es: seq<Event>, fs: seq<Event>, g: nat)
    ensures Totals(es + fs, g) == Totals(es, g).Plus(Totals(fs, g))
  {
    if fs == [] {
      assert es + fs == es;
    } else {
      var init, last := fs[..|fs| - 1], fs[|fs| - 1];
      calc {
        Totals(es + fs, g);
        { assert es + fs == (es + init) + [last]; }
        Totals((es + init) + [last], g);
        { TotalsAppend(es + init, last, g); }
        Totals(es + init, g).Plus(DeltaOn(last, g));
        { TotalsConcat(es, init, g); }
        Totals(es, g).Plus(Totals(init, g)).Plus(DeltaOn(last, g));
        { PlusAssociative(Totals(es, g), Totals(init, g), DeltaOn(last, g)); }
        Totals(es, g).Plus(Totals(fs, g));
      }
    }
  }

  lemma {:induction false} TotalsAbsent(es: seq<Event>, g: nat)
    requires forall e | e in es :: e.grant != g
    ensures Totals(es, g) == ZERO
  {
    if es != [] {
      var init, last := es[..|es| - 1], es[|es| - 1];
      assert forall e | e in init :: e in es;
      TotalsAbsent(init, g);
      assert last in es;
      assert DeltaOn(last, g) == ZERO;
    }
  }

  /** When the events touch distinct grants, the total on a touched grant is its one delta. */
  lemma {:induction false} TotalsSingle(es: seq<Event>, i: nat)
    requires i < |es|
    requires forall j, k | 0 <= j < k < |es| :: es[j].grant != es[k].grant
    ensures Totals(es, es[i].grant) == es[i].delta
  {
    var n := |es| - 1;
    if i == n {
      TotalsAbsent(es[..n], es[i].grant);
    } else {
      TotalsSingle(es[..n], i);
    }
  }

  lemma TotalsRemove(es: seq<Event>, i: nat, g: nat)
    requires i < |es|
    ensures Totals(es, g) == Totals(es[..i] + es[i + 1..], g).Plus(DeltaOn(es[i], g))
  {
    assert es == es[..i] + [es[i]] + es[i + 1..];
    TotalsConcat(es[..i] + [es[i]], es[i + 1..], g);
    TotalsAppend(es[..i], es[i], g);
    TotalsConcat(es[..i], es[i + 1..], g);
  }

  /** The totals do not depend on the order in which the ledger is read. */
  lemma {:induction false} TotalsPermutation(es: seq<Event>, fs: seq<Event>, g: nat)
    requires multiset(es) == multiset(fs)
    ensures Totals(es, g) == Totals(fs, g)
    decreases |es|
  {
    if es == [] {
      assert |multiset(fs)| == |fs|;
    } else {
      var init, last := es[..|es| - 1], es[|es| - 1];
      assert es == init + [last];
      assert last in multiset(fs);
      var i :| 0 <= i < |fs| && fs[i] == last;
      var rest := fs[..i] + fs[i + 1..];
      assert fs == fs[..i] + [last] + fs[i + 1..];
      assert multiset(init) == multiset(es) - multiset{last};
      assert multiset(rest) == multiset(fs) - multiset{last};
      TotalsPermutation(init, rest, g);
      TotalsRemove(fs, i, g);
    }
  }

  // ---------------------------------------------------------------- posting

  ghost predicate Posts(es: seq<Event>, grants: seq<Grant>) {
    forall e | e in es :: e.grant < |grants|
  }

  /** Move one grant's counters and append the event that says so. */
  function Post(b: Book, e: Event): Book
    requires e.grant < |b.grants|
  {
    Book(b.grants[e.grant := b.grants[e.grant].Add(e.delta)], b.ledger + [e])
  }

  ghost function PostAll(b: Book, es: seq<Event>): (r: Book)
    requires Posts(es, b.grants)
    ensures |r.grants| == |b.grants|
  {
    if es == [] then b else Post(PostAll(b, es[..|es| - 1]), es[|es| - 1])
  }

  lemma PostAllAppend(b: Book, es: seq<Event>, e: Event)
    requires Posts(es, b.grants) && e.grant < |b.grants|
    ensures Posts(es + [e], b.grants)
    ensures PostAll(b, es + [e]) == Post(PostAll(b, es), e)
  {
    assert (es + [e])[..|es|] == es;
  }

  /** Posting changes each grant by exactly the ledger's total and appends exactly the posted events. */
  lemma {:induction false} PostAllEffect(b: Book, es: seq<Event>)
    requires Posts(es, b.grants)
    ensures PostAll(b, es).ledger == b.ledger + es
    ensures forall g | 0 <= g < |b.grants| :: PostAll(b, es).grants[g] == b.grants[g].Add(Totals(es, g))
  {
    if es != [] {
      var init, last := es[..|es| - 1], es[|es| - 1];
      PostAllEffect(b, init);
      assert es == init + [last];
    }
  }

  /** A new grant arrives together with the event that explains its counters. */
  function OpenGrant(b: Book, g: Grant, key: EventKey, now: int): Book {
    Book(b.grants + [g], b.ledger + [Event(|b.grants|, GrantEvent, key, now, g.counters)])
  }

  // ---------------------------------------------------------------- sums over grants

  function OutstandingOf(g: Grant): int {
    g.counters.Outstanding()
  }

  function AvailableOf(g: Grant): int {
    g.counters.Available()
  }

  function ReservedOf(g: Grant): int {
    g.counters.reserved
  }

  function EventOutstanding(e: Event): int {
    e.delta.Outstanding()
  }

  function AmountOf(a: Allocation): int {
    a.amount
  }

  function QuotedOf(i: Item): int {
    i.quoted
  }

  function ChargedOf(r: UsageRecord): int {
    r.charged
  }

  /** Posting moves the outstanding total by the events' own outstanding amounts. */
  lemma {:induction false} PostAllOutstanding(b: Book, es: seq<Event>)
    requires Posts(es, b.grants)
    ensures SumOf(PostAll(b, es).grants, OutstandingOf) == SumOf(b.grants, OutstandingOf) + SumOf(es, EventOutstanding)
  {
    if es != [] {
      var init, e := es[..|es| - 1], es[|es| - 1];
      PostAllOutstanding(b, init);
      var p := PostAll(b, init);
      SumOfUpdate(p.grants, e.grant, p.grants[e.grant].Add(e.delta), OutstandingOf);
    }
  }

  // ---------------------------------------------------------------- who holds what

  function AllocatedOn(a: Allocation, g: nat): int {
    if a.grant == g then a.amount else 0
  }

  function AllocationsOn(allocations: seq<Allocation>, g: nat): int {
    if allocations == [] then 0
    else AllocationsOn(allocations[..|allocations| - 1], g) + AllocatedOn(allocations[|allocations| - 1], g)
  }

  lemma {:induction false} AllocationsAbsent(allocations: seq<Allocation>, g: nat)
    requires forall a | a in allocations :: a.grant != g
    ensures AllocationsOn(allocations, g) == 0
  {
    if allocations != [] {
      AllocationsAbsent(allocations[..|allocations| - 1], g);
    }
  }

  lemma {:induction false} AllocationsSingle(allocations: seq<Allocation>, i: nat)
    requires i < |allocations|
    requires forall j, k | 0 <= j < k < |allocations| :: allocations[j].grant != allocations[k].grant
    ensures AllocationsOn(allocations, allocations[i].grant) == allocations[i].amount
  {
    var n := |allocations| - 1;
    if i == n {
      AllocationsAbsent(allocations[..n], allocations[i].grant);
    } else {
      AllocationsSingle(allocations[..n], i);
    }
  }

  function HeldByOn(r: Reservation, g: nat): int {
    if r.Held() then AllocationsOn(r.allocations, g) else 0
  }

  /** Credit of grant `g` that held reservations have set aside. */
  function HeldOn(rs: seq<Reservation>, g: nat): int {
    if rs == [] then 0 else HeldOn(rs[..|rs| - 1], g) + HeldByOn(rs[|rs| - 1], g)
  }

  lemma HeldOnAppend(rs: seq<Reservation>, r: Reservation, g: nat)
    ensures HeldOn(rs + [r], g) == HeldOn(rs, g) + HeldByOn(r, g)
  {
    assert (rs + [r])[..|rs|] == rs;
  }

  lemma {:induction false} HeldOnUpdate(rs: seq<Reservation>, i: nat, r: Reservation, g: nat)
    requires i < |rs|
    ensures HeldOn(rs[i := r], g) == HeldOn(rs, g) - HeldByOn(rs[i], g) + HeldByOn(r, g)
  {
    var n := |rs| - 1;
    if i == n {
      assert rs[i := r][..n] == rs[..n];
    } else {
      assert rs[i := r][..n] == rs[..n][i := r];
      HeldOnUpdate(rs[..n], i, r, g);
    }
  }

  lemma {:induction false} AllocationsNonNegative(allocations: seq<Allocation>, g: nat)
    requires forall a | a in allocations :: 0 <= a.amount
    ensures 0 <= AllocationsOn(allocations, g)
  {
    if allocations != [] {
      AllocationsNonNegative(allocations[..|allocations| - 1], g);
    }
  }

  /** A held reservation is covered by what is held on each of its grants. */
  lemma {:induction false} HeldOnCovers(rs: seq<Reservation>, i: nat, g: nat)
    requires i < |rs|
    requires forall r | r in rs :: forall a | a in r.allocations :: 0 <= a.amount
    ensures 0 <= HeldByOn(rs[i], g) <= HeldOn(rs, g)
  {
    var n := |rs| - 1;
    HeldOnNonNegative(rs[..n], g);
    AllocationsNonNegative(rs[n].allocations, g);
    if i < n {
      HeldOnCovers(rs[..n], i, g);
    }
  }

  lemma {:induction false} HeldOnNonNegative(rs: seq<Reservation>, g: nat)
    requires forall r | r in rs :: forall a | a in r.allocations :: 0 <= a.amount
    ensures 0 <= HeldOn(rs, g)
  {
    if rs != [] {
      AllocationsNonNegative(rs[|rs| - 1].allocations, g);
      HeldOnNonNegative(rs[..|rs| - 1], g);
    }
  }

  function HeldAmount(r: Reservation): int {
    if r.Held() then r.total else 0
  }

  function HeldOne(r: Reservation): int {
    if r.Held() then 1 else 0
  }

  /** Number of held reservations, and their total. */
  function HeldCount(rs: seq<Reservation>): int {
    SumOf(rs, HeldOne)
  }

  function HeldTotal(rs: seq<Reservation>): int {
    SumOf(rs, HeldAmount)
  }
}
