/**
 * The two read models: the personal usage view, which brings the rows up to
 * date first, and the operator's projection, which must say the same without
 * writing anything.
 */
module UsageViews {
  import opened Prelude
  import opened CreditPolicy
  import opened CreditRecords
  import opened CreditLifecycle
  import opened CreditAccounting
  import opened CreditInvariant
  import opened LifecycleInvariant
  import opened LazyRenewal
  import opened HoldTotals

  datatype ReadError = Unavailable

  // ---------------------------------------------------------------- bounded summation

  predicate Readable(x: int) {
    0 <= x <= MAX_BIGINT
  }

  /** `_add`: refuse a value out of range or a sum that would leave the range. */
  function Add(total: int, value: int): Result<int, ReadError> {
    if !Readable(value) || total > MAX_BIGINT - value then Err(Unavailable) else Ok(total + value)
  }

  /**
   * Available and held totals: they exist exactly when every grant is within
   * bounds and both totals are.
   */
  method GrantTotals(grants: seq<Grant>) returns (r: Result<(int, int), ReadError>)
    ensures r.Ok? <==>
            && (forall g | g in grants :: Storable(g.counters))
            && SumOf(grants, AvailableOf) <= MAX_BIGINT && SumOf(grants, ReservedOf) <= MAX_BIGINT
    ensures r.Ok? ==> r.value == (SumOf(grants, AvailableOf), SumOf(grants, ReservedOf))
  {
    hide SumOf, GrantSums, Storable;
    var available, held := 0, 0;
    NoGrants();
    assert grants[..0] == [] && grants[..|grants|] == grants;
    for i := 0 to |grants|
      invariant GrantSums(available, held, grants[..i])
    {
      var g := grants[i];
      var c := g.counters;
      assert g in grants && grants[..i + 1] == grants[..i] + [g];
      if !Readable(c.granted) || !Readable(c.reserved) || !Readable(c.consumed) || !Readable(c.expired) {
        NotStorable(c);
        return Err(Unavailable);
      }
      var used := Add(c.reserved, c.consumed);
      if used.Err? {
        NotStorable(c);
        return Err(Unavailable);
      }
      var spent := Add(used.value, c.expired);
      if spent.Err? || spent.value > c.granted {
        NotStorable(c);
        return Err(Unavailable);
      }
      GrantSumsNext(available, held, grants[..i], g);
      var a := Add(available, c.granted - spent.value);
      var h := Add(held, c.reserved);
      if a.Err? || h.Err? {
        GrantSumsOverflow(grants, i + 1);
        return Err(Unavailable);
      }
      available, held := a.value, h.value;
    }
    GrantSumsMean(available, held, grants);
    r := Ok((available, held));
  }

  /** Both sums over grants whose counters are storable, and in range. */
  ghost predicate GrantSums(available: int, held: int, grants: seq<Grant>) {
    && (forall g | g in grants :: Storable(g.counters))
    && available == SumOf(grants, AvailableOf) && 0 <= available <= MAX_BIGINT
    && held == SumOf(grants, ReservedOf) && 0 <= held <= MAX_BIGINT
  }

  lemma NoGrants()
    ensures GrantSums(0, 0, [])
  {
  }

  lemma NotStorable(c: Counters)
    requires !(Readable(c.granted) && Readable(c.reserved) && Readable(c.consumed) && Readable(c.expired)
               && c.reserved + c.consumed + c.expired <= c.granted)
    ensures !Storable(c)
  {
  }

  lemma GrantSumsNext(available: int, held: int, grants: seq<Grant>, g: Grant)
    requires GrantSums(available, held, grants)
    requires var c := g.counters;
             && Readable(c.granted) && Readable(c.reserved) && Readable(c.consumed) && Readable(c.expired)
             && c.reserved + c.consumed + c.expired <= c.granted
    ensures SumOf(grants + [g], AvailableOf) == available + g.counters.Available()
    ensures SumOf(grants + [g], ReservedOf) == held + g.counters.reserved
    ensures 0 <= available <= MAX_BIGINT && 0 <= held <= MAX_BIGINT
    ensures available + g.counters.Available() <= MAX_BIGINT && held + g.counters.reserved <= MAX_BIGINT ==>
              GrantSums(available + g.counters.Available(), held + g.counters.reserved, grants + [g])
  {
    SumOfAppend(grants, g, AvailableOf);
    SumOfAppend(grants, g, ReservedOf);
  }

  lemma GrantSumsOverflow(grants: seq<Grant>, n: nat)
    requires n <= |grants|
    requires SumOf(grants[..n], AvailableOf) > MAX_BIGINT || SumOf(grants[..n], ReservedOf) > MAX_BIGINT
    ensures (forall g | g in grants :: Storable(g.counters)) ==>
              SumOf(grants, AvailableOf) > MAX_BIGINT || SumOf(grants, ReservedOf) > MAX_BIGINT
  {
    if forall g | g in grants :: Storable(g.counters) {
      SumOfPrefix(grants, n, AvailableOf);
      SumOfPrefix(grants, n, ReservedOf);
    }
  }

  lemma GrantSumsMean(available: int, held: int, grants: seq<Grant>)
    requires GrantSums(available, held, grants)
    ensures forall g | g in grants :: Storable(g.counters)
    ensures available == SumOf(grants, AvailableOf) <= MAX_BIGINT && held == SumOf(grants, ReservedOf) <= MAX_BIGINT
  {
  }

  /** Number and total of the held reservations; a row that is not held, out of range, or too much in sum is refused. */
  method ReservationTotals(rs: seq<Reservation>) returns (r: Result<(nat, int), ReadError>)
    ensures r.Ok? <==> (forall x | x in rs :: x.Held() && Readable(x.total)) && HeldTotal(rs) <= MAX_BIGINT
    ensures r.Ok? ==> r.value == (|rs|, HeldTotal(rs))
  {
    var held := 0;
    for i := 0 to |rs|
      invariant forall k | 0 <= k < i :: rs[k].Held() && Readable(rs[k].total)
      invariant held == SumOf(rs[..i], HeldAmount) && 0 <= held <= MAX_BIGINT
    {
      var x := rs[i];
      assert rs[..i + 1] == rs[..i] + [x];
      SumOfAppend(rs[..i], x, HeldAmount);
      assert x in rs;
      if !x.Held() {
        return Err(Unavailable);
      }
      var sum := Add(held, x.total);
      if sum.Err? {
        if forall k | k in rs :: k.Held() && Readable(k.total) {
          SumOfPrefix(rs, i + 1, HeldAmount);
        }
        return Err(Unavailable);
      }
      held := sum.value;
    }
    assert rs[..|rs|] == rs;
    r := Ok((|rs|, held));
  }

  // ---------------------------------------------------------------- usage records

  function ObservedOn(m: Meter): UsageRecord -> int {
    (u: UsageRecord) => if u.meter == m then u.actualUnits else 0
  }

  function ChargedOn(m: Meter): UsageRecord -> int {
    (u: UsageRecord) => if u.meter == m then u.charged else 0
  }

  /** A row of the usage table: what was recorded, and what its reservation's delivery was. */
  datatype UsageRow = UsageRow(usage: UsageRecord, delivery: Delivery)

  function RowsOf(records: seq<UsageRecord>, delivery: Delivery): (rows: seq<UsageRow>)
    ensures |rows| == |records| && forall i | 0 <= i < |rows| :: rows[i] == UsageRow(records[i], delivery)
  {
    if records == [] then [] else RowsOf(records[..|records| - 1], delivery) + [UsageRow(records[|records| - 1], delivery)]
  }

  function RecordsOf(rows: seq<UsageRow>): (records: seq<UsageRecord>)
    ensures |records| == |rows| && forall i | 0 <= i < |rows| :: records[i] == rows[i].usage
  {
    if rows == [] then [] else RecordsOf(rows[..|rows| - 1]) + [rows[|rows| - 1].usage]
  }

  /** Usage recorded between `from` and `to`. */
  function RowsWithin(rs: seq<Reservation>, from: int, to: int): seq<UsageRow> {
    if rs == [] then []
    else
      var r := rs[|rs| - 1];
      RowsWithin(rs[..|rs| - 1], from, to)
      + if r.terminal.Some? && from <= r.terminal.value.at <= to then RowsOf(r.terminal.value.records, r.terminal.value.delivery) else []
  }

  /** Where nothing was delivered, nothing is charged. */
  predicate NothingForNothing(rows: seq<UsageRow>) {
    forall i | 0 <= i < |rows| :: rows[i].delivery.NoDeliverable? ==> rows[i].usage.charged == 0
  }

  lemma {:induction false} RecordedForNothing(s: State, n: nat, from: int, to: int)
    requires ReservationsOk(s) && n <= |s.reservations|
    ensures NothingForNothing(RowsWithin(s.reservations[..n], from, to))
    ensures forall i | 0 <= i < |RowsWithin(s.reservations[..n], from, to)| :: 0 <= RowsWithin(s.reservations[..n], from, to)[i].usage.charged
  {
    if n > 0 {
      RecordedForNothing(s, n - 1, from, to);
      assert s.reservations[..n][..n - 1] == s.reservations[..n - 1];
      var r := s.reservations[n - 1];
      assert ReservationOk(s, r) && TerminalOk(r);
      hide ReservationsOk, ReservationOk;
    }
  }

  ghost predicate UsageFits(records: seq<UsageRecord>) {
    && (forall u | u in records :: Readable(u.actualUnits) && Readable(u.charged))
    && (forall m :: SumOf(records, ObservedOn(m)) <= MAX_BIGINT)
    && SumOf(records, ChargedOf) <= MAX_BIGINT
  }

  lemma {:induction false} ChargedOnWithin(records: seq<UsageRecord>, m: Meter)
    requires forall u | u in records :: 0 <= u.charged
    ensures 0 <= SumOf(records, ChargedOn(m)) <= SumOf(records, ChargedOf)
  {
    if records != [] {
      var n := |records| - 1;
      assert records[n] in records && forall u | u in records[..n] :: u in records;
      ChargedOnWithin(records[..n], m);
    }
  }

  ghost predicate InOrder(records: seq<UsageRecord>) {
    forall u | u in records :: Readable(u.actualUnits) && Readable(u.charged)
  }

  /** `totals` and `charged` are the sums over `records`, all in range. */
  ghost predicate TotalsOf(totals: map<Meter, (int, int)>, charged: int, records: seq<UsageRecord>) {
    && InOrder(records)
    && charged == SumOf(records, ChargedOf) && 0 <= charged <= MAX_BIGINT
    && (forall m :: m in totals && totals[m] == (SumOf(records, ObservedOn(m)), SumOf(records, ChargedOn(m)))
                    && 0 <= totals[m].0 <= MAX_BIGINT)
  }

  lemma NothingUsed(totals: map<Meter, (int, int)>)
    requires totals == map m | m in METERS :: (0, 0)
    ensures TotalsOf(totals, 0, [])
  {
    forall m: Meter
      ensures m in METERS
    {
      InMeters(m);
    }
  }

  lemma TotalsMean(totals: map<Meter, (int, int)>, charged: int, records: seq<UsageRecord>, m: Meter)
    requires TotalsOf(totals, charged, records)
    ensures InOrder(records) && charged == SumOf(records, ChargedOf) && 0 <= charged <= MAX_BIGINT
    ensures m in totals && totals[m] == (SumOf(records, ObservedOn(m)), SumOf(records, ChargedOn(m))) && 0 <= totals[m].0 <= MAX_BIGINT
  {
  }

  lemma TotalsFit(totals: map<Meter, (int, int)>, charged: int, records: seq<UsageRecord>)
    requires TotalsOf(totals, charged, records)
    ensures UsageFits(records) && charged == SumOf(records, ChargedOf)
    ensures forall m :: m in totals && totals[m] == (SumOf(records, ObservedOn(m)), SumOf(records, ChargedOn(m)))
  {
    hide SumOf;
  }

  lemma OutOfOrder(records: seq<UsageRecord>, i: nat)
    requires i < |records| && !(Readable(records[i].actualUnits) && Readable(records[i].charged))
    ensures !UsageFits(records)
  {
    assert records[i] in records;
  }

  lemma TotalsStep(totals: map<Meter, (int, int)>, charged: int, records: seq<UsageRecord>, u: UsageRecord)
    requires TotalsOf(totals, charged, records) && Readable(u.actualUnits) && Readable(u.charged)
    requires totals[u.meter].0 + u.actualUnits <= MAX_BIGINT && charged + u.charged <= MAX_BIGINT
    ensures TotalsOf(totals[u.meter := (totals[u.meter].0 + u.actualUnits, totals[u.meter].1 + u.charged)],
                     charged + u.charged, records + [u])
  {
    var t := totals[u.meter := (totals[u.meter].0 + u.actualUnits, totals[u.meter].1 + u.charged)];
    SumOfAppend(records, u, ChargedOf);
    forall m: Meter
      ensures m in t && t[m] == (SumOf(records + [u], ObservedOn(m)), SumOf(records + [u], ChargedOn(m)))
    {
      assert m in totals;
      SumOfAppend(records, u, ObservedOn(m));
      SumOfAppend(records, u, ChargedOn(m));
    }
    hide SumOf;
  }

  /** A running sum that leaves the range leaves the whole sum out of range. */
  lemma TotalsOverflow(records: seq<UsageRecord>, n: nat, m: Meter)
    requires n <= |records|
    requires InOrder(records) ==> SumOf(records[..n], ObservedOn(m)) > MAX_BIGINT || SumOf(records[..n], ChargedOf) > MAX_BIGINT
    ensures !UsageFits(records)
  {
    if InOrder(records) {
      SumOfPrefix(records, n, ObservedOn(m));
      SumOfPrefix(records, n, ChargedOf);
    }
  }

  /** Per-meter and overall usage totals; they exist exactly when nothing undelivered was charged and every running sum fits. */
  method UsageTotals(rows: seq<UsageRow>) returns (r: Result<(map<Meter, (int, int)>, int), ReadError>)
    ensures r.Ok? <==> NothingForNothing(rows) && UsageFits(RecordsOf(rows))
    ensures r.Ok? ==>
              && r.value.1 == SumOf(RecordsOf(rows), ChargedOf)
              && forall m ::
                   m in r.value.0 && r.value.0[m] == (SumOf(RecordsOf(rows), ObservedOn(m)), SumOf(RecordsOf(rows), ChargedOn(m)))
  {
    hide SumOf, TotalsOf, UsageFits, RecordsOf;
    ghost var records := RecordsOf(rows);
    var totals: map<Meter, (int, int)> := map m | m in METERS :: (0, 0);
    var charged := 0;
    NothingUsed(totals);
    assert records[..0] == [] && records[..|records|] == records;
    for i := 0 to |rows|
      invariant TotalsOf(totals, charged, records[..i])
      invariant NothingForNothing(rows[..i])
    {
      var u := rows[i].usage;
      assert records[..i + 1] == records[..i] + [u];
      TotalsMean(totals, charged, records[..i], u.meter);
      if !Readable(u.actualUnits) || !Readable(u.charged) {
        OutOfOrder(records, i);
        return Err(Unavailable);
      }
      if rows[i].delivery.NoDeliverable? && u.charged != 0 {
        return Err(Unavailable);
      }
      ChargedOnWithin(records[..i], u.meter);
      SumOfAppend(records[..i], u, ChargedOf);
      SumOfAppend(records[..i], u, ObservedOn(u.meter));
      var observed := Add(totals[u.meter].0, u.actualUnits);
      var priced := Add(totals[u.meter].1, u.charged);
      var all := Add(charged, u.charged);
      if observed.Err? || priced.Err? || all.Err? {
        TotalsOverflow(records, i + 1, u.meter);
        return Err(Unavailable);
      }
      TotalsStep(totals, charged, records[..i], u);
      totals := totals[u.meter := (observed.value, priced.value)];
      charged := all.value;
    }
    assert rows[..|rows|] == rows;
    TotalsFit(totals, charged, records);
    r := Ok((totals, charged));
  }

  // ---------------------------------------------------------------- the personal view

  datatype MeterUse = MeterUse(meter: Meter, observed: int, charged: int)

  datatype UsageView = UsageView(plan: Plan, pending: Option<Plan>, cycle: CycleBounds, allowance: int, available: int,
                                 held: int, active: int, limit: nat, charged: int, usage: seq<MeterUse>)

  /** Observed and charged on each of the meters. */
  function UseOn(meters: seq<Meter>, records: seq<UsageRecord>): (r: seq<MeterUse>)
    ensures |r| == |meters|
    ensures forall i | 0 <= i < |meters| ::
              r[i] == MeterUse(meters[i], SumOf(records, ObservedOn(meters[i])), SumOf(records, ChargedOn(meters[i])))
  {
    if meters == [] then []
    else
      var m := meters[|meters| - 1];
      UseOn(meters[..|meters| - 1], records) + [MeterUse(m, SumOf(records, ObservedOn(m)), SumOf(records, ChargedOn(m)))]
  }

  /** What the tables show once they are up to date, or nothing when they do not fit together. */
  ghost function Shown(t: State, cycle: nat, now: int): Result<UsageView, ReadError>
    requires t.account.Some? && cycle < |t.cycles|
  {
    var c := t.cycles[cycle];
    var plan := t.account.value.plan;
    var limit := PolicyOf(plan).maxConcurrentRequests;
    var available, held := SumOf(t.book.grants, AvailableOf), SumOf(t.book.grants, ReservedOf);
    var rows := RowsWithin(t.reservations, c.startsAt, now);
    var fits := (forall g | g in t.book.grants :: Storable(g.counters)) && available <= MAX_BIGINT && held <= MAX_BIGINT;
    :- Need(fits, Unavailable);
    :- Need(forall x | x in t.reservations && x.Held() :: Readable(x.total), Unavailable);
    :- Need(HeldTotal(t.reservations) <= MAX_BIGINT && held == HeldTotal(t.reservations), Unavailable);
    :- Need(HeldCount(t.reservations) <= limit, Unavailable);
    :- Need(NothingForNothing(rows) && UsageFits(RecordsOf(rows)), Unavailable);
    :- Need(0 <= c.index && c.startsAt <= now < c.endsAt, Unavailable);
    :- Need(Readable(c.allowance), Unavailable);
    Ok(UsageView(plan, t.account.value.pending, CycleBounds(c.index, c.startsAt, c.endsAt), c.allowance,
                 available, held, HeldCount(t.reservations), limit, SumOf(RecordsOf(rows), ChargedOf), UseOn(METERS, RecordsOf(rows))))
  }

  ghost function ReadPersonalUsage(s: State, now: int, tag: nat): Result<(State, UsageView), ReadError> {
    match EnsureCycle(s, now, tag)
    case Err(_) => Err(Unavailable)
    case Ok(e) =>
      var v :- Shown(e.state, e.cycle, now);
      Ok((e.state, v))
  }

  /** The plan in force at an instant with bounds `b`: a due renewal applies what is pending. */
  function PlanInForce(s: State, b: CycleBounds): Plan
    requires s.account.Some? ==> s.cycles != []
  {
    if NeedsCycle(s, b) then PlanBefore(s) else s.account.value.plan
  }

  /**
   * Once renewal succeeds, the view fails only for two reasons: more requests
   * are held than the plan in force at `now` allows (a downgrade that takes
   * effect while requests are running), or the usage recorded since the cycle
   * began no longer fits. The balance comparison, the overflow checks and the
   * cycle window never refuse.
   */
  lemma ReadTotal(s: State, now: int, tag: nat)
    requires Core(s) && Started(s) && EnsureCycle(s, now, tag).Ok?
    ensures s.account.Some? ==> s.cycles != []
    ensures var b := BoundsAt(s.user.signedUpAt, now).value;
            ReadPersonalUsage(s, now, tag).Ok? <==>
            && HeldCount(s.reservations) <= PolicyOf(PlanInForce(s, b)).maxConcurrentRequests
            && UsageFits(RecordsOf(RowsWithin(s.reservations, b.startsAt, now)))
  {
    hide Core, Started, EnsureCycle, ReadPersonalUsage, SumOf, PolicyOf, UsageFits, RowsWithin, RecordsOf, BoundsAt, HeldTotal, HeldCount;
    EnsureKeeps(s, now, tag);
    EnsureSpelledOut(s, now, tag);
    var e := EnsureCycle(s, now, tag).value;
    BalancesBounded(e.state);
    HeldAgrees(e.state);
    ReadableTotals(e.state);
    ReadableRows(e.state, e.cycle, now);
    ReadUnfolds(s, now, tag);
  }

  lemma ReadableTotals(s: State)
    requires Core(s)
    ensures forall x | x in s.reservations :: Readable(x.total)
  {
    hide CyclesOk, GrantsOk, LedgerOk, HoldsOk, NoResurrection, OperationsOk, AccountOk, AllocationsOk, TerminalOk;
    forall x | x in s.reservations
      ensures Readable(x.total)
    {
      var i :| 0 <= i < |s.reservations| && s.reservations[i] == x;
      assert ReservationOk(s, s.reservations[i]);
    }
  }

  lemma ReadableRows(s: State, c: nat, now: int)
    requires Core(s) && c < |s.cycles|
    ensures 0 <= s.cycles[c].index && Readable(s.cycles[c].allowance)
    ensures NothingForNothing(RowsWithin(s.reservations, s.cycles[c].startsAt, now))
  {
    assert CycleOk(s, s.cycles[c]);
    assert s.reservations[..|s.reservations|] == s.reservations;
    hide RowsWithin;
    RecordedForNothing(s, |s.reservations|, s.cycles[c].startsAt, now);
  }

  lemma ReadUnfolds(s: State, now: int, tag: nat)
    requires EnsureCycle(s, now, tag).Ok?
    requires var e := EnsureCycle(s, now, tag).value;
             var c := e.state.cycles[e.cycle];
             && (forall g | g in e.state.book.grants :: Storable(g.counters))
             && SumOf(e.state.book.grants, AvailableOf) <= MAX_BIGINT
             && (forall x | x in e.state.reservations && x.Held() :: Readable(x.total))
             && SumOf(e.state.book.grants, ReservedOf) == HeldTotal(e.state.reservations) <= MAX_BIGINT
             && 0 <= c.index && c.startsAt <= now < c.endsAt && Readable(c.allowance)
             && NothingForNothing(RowsWithin(e.state.reservations, c.startsAt, now))
    ensures var e := EnsureCycle(s, now, tag).value;
            ReadPersonalUsage(s, now, tag).Ok? <==>
            && HeldCount(e.state.reservations) <= PolicyOf(e.state.account.value.plan).maxConcurrentRequests
            && UsageFits(RecordsOf(RowsWithin(e.state.reservations, e.state.cycles[e.cycle].startsAt, now)))
  {
    hide EnsureCycle, Storable, SumOf, HeldTotal, HeldCount, PolicyOf, UsageFits, RowsWithin, RecordsOf, NothingForNothing, Readable;
  }

  /** The failing family, named: a pending downgrade applied by a due renewal while more requests are held than the lower plan allows. */
  lemma DowngradeHidesView(s: State, now: int, tag: nat)
    requires Core(s) && Started(s) && EnsureCycle(s, now, tag).Ok?
    requires s.account.Some? && s.account.value.pending.Some?
    requires NeedsCycle(s, BoundsAt(s.user.signedUpAt, now).value)
    requires PolicyOf(s.account.value.pending.value).maxConcurrentRequests < HeldCount(s.reservations)
    ensures ReadPersonalUsage(s, now, tag) == Err(Unavailable)
  {
    hide Core, Started, EnsureCycle, BoundsAt, ReadPersonalUsage, HeldCount, PolicyOf, UsageFits, RowsWithin;
    ReadTotal(s, now, tag);
    var r := ReadPersonalUsage(s, now, tag);
    assert r.Err? && r.error.Unavailable?;
  }

  // ---------------------------------------------------------------- the operator's projection

  datatype Projection = Projection(plan: Plan, pending: Option<Plan>, startsAt: int, renewsAt: int, available: int, held: int,
                                   charged: int, materialized: bool)

  /** Credit of `g` that counts as available at `now` without writing anything. */
  function ProjectedAvailable(g: Grant, cycle: Option<nat>, materialized: bool, now: int): int {
    if (g.expiresAt.None? || now < g.expiresAt.value) && (g.kind.Bonus? || (materialized && Some(g.kind.cycle) == cycle))
    then g.counters.Available() else 0
  }

  function ProjectedAvailableOf(cycle: Option<nat>, materialized: bool, now: int): Grant -> int {
    (g: Grant) => ProjectedAvailable(g, cycle, materialized, now)
  }

  function BaseMatch(cycle: Option<nat>): Grant -> int {
    (g: Grant) => if g.kind.Base? && Some(g.kind.cycle) == cycle then 1 else 0
  }

  /** Has the cycle of `b` been opened already? */
  predicate Materialized(s: State, b: CycleBounds) {
    LatestRow(s).Some? && s.cycles[LatestRow(s).value].index == b.index
  }

  function PlanNow(s: State): Plan {
    if s.account.Some? then s.account.value.plan else if s.user.role.Master? then Max else Free
  }

  function PendingNow(s: State): Option<Plan> {
    if s.account.Some? then s.account.value.pending else None
  }

  function ProjectedPlan(s: State, b: CycleBounds): Plan {
    if Materialized(s, b) then PlanNow(s) else PendingNow(s).GetOr(PlanNow(s))
  }

  function ProjectedPending(s: State, b: CycleBounds): Option<Plan> {
    if Materialized(s, b) then PendingNow(s) else None
  }

  predicate ProjectionRefused(s: State, cycle: Option<nat>, plan: Plan, index: int)
    requires cycle.Some? ==> cycle.value < |s.cycles|
  {
    || (s.account.Some? && (cycle.None? || index < s.cycles[cycle.value].index || s.account.value.anchor != s.user.signedUpAt))
    || (s.user.role.Master? && plan != Max)
  }

  function LatestRow(s: State): (r: Option<nat>)
    ensures r.Some? ==> r.value < |s.cycles|
  {
    if s.cycles == [] then None else Some(Latest(s.cycles))
  }

  /** The running sums of the projection over the grants read so far. */
  ghost predicate Projecting(available: int, held: int, bases: int, grants: seq<Grant>, cycle: Option<nat>, materialized: bool, now: int) {
    && (forall g | g in grants :: g.counters.Balanced())
    && held == SumOf(grants, ReservedOf)
    && bases == (if materialized then SumOf(grants, BaseMatch(cycle)) else 0)
    && available == SumOf(grants, ProjectedAvailableOf(cycle, materialized, now))
  }

  lemma NothingProjected(start: int, cycle: Option<nat>, materialized: bool, now: int)
    ensures Projecting(start - start, 0, 0, [], cycle, materialized, now)
  {
  }

  lemma ProjectingNext(available: int, held: int, bases: int, grants: seq<Grant>, g: Grant, cycle: Option<nat>, materialized: bool, now: int)
    requires Projecting(available, held, bases, grants, cycle, materialized, now) && g.counters.Balanced()
    ensures Projecting(
              available + (if (g.expiresAt.None? || now < g.expiresAt.value) && (g.kind.Bonus? || (materialized && Some(g.kind.cycle) == cycle))
                           then g.counters.Available() else 0),
              held + g.counters.reserved,
              bases + (if g.kind.Base? && Some(g.kind.cycle) == cycle && materialized then 1 else 0),
              grants + [g], cycle, materialized, now)
  {
    SumOfAppend(grants, g, ReservedOf);
    SumOfAppend(grants, g, BaseMatch(cycle));
    SumOfAppend(grants, g, ProjectedAvailableOf(cycle, materialized, now));
    hide SumOf, Counters.Balanced;
  }

  lemma ProjectingMeans(available: int, held: int, bases: int, grants: seq<Grant>, cycle: Option<nat>, materialized: bool, now: int)
    requires Projecting(available, held, bases, grants, cycle, materialized, now)
    ensures forall g | g in grants :: g.counters.Balanced()
    ensures held == SumOf(grants, ReservedOf)
    ensures bases == (if materialized then SumOf(grants, BaseMatch(cycle)) else 0)
    ensures available == SumOf(grants, ProjectedAvailableOf(cycle, materialized, now))
  {
  }

  /** Loop over the grants, without writing, as the operator's page does it. */
  method ProjectUser(s: State, held: int, charged: int, now: int) returns (r: Result<Projection, ReadError>)
    ensures r == ProjectedUser(s, held, charged, now)
  {
    var bounds := BoundsAt(s.user.signedUpAt, now);
    if bounds.Err? {
      return Err(Unavailable);
    }
    var b := bounds.value;
    var cycle := LatestRow(s);
    var materialized := cycle.Some? && s.cycles[cycle.value].index == b.index;
    var plan, pending := PlanNow(s), PendingNow(s);
    if !materialized && pending.Some? {
      plan, pending := pending.value, None;
    }
    if ProjectionRefused(s, cycle, plan, b.index) {
      return Err(Unavailable);
    }
    var start := if materialized then 0 else PolicyOf(plan).allowance;
    var available, grantHeld, bases := start, 0, 0;
    var grants := s.book.grants;
    NothingProjected(start, cycle, materialized, now);
    hide SumOf, PolicyOf, BoundsAt, Latest, ProjectionRefused, Projecting, ProjectedAvailable;
    assert grants[..0] == [] && grants[..|grants|] == grants;
    for i := 0 to |grants|
      invariant Projecting(available - start, grantHeld, bases, grants[..i], cycle, materialized, now)
    {
      var g := grants[i];
      assert grants[..i + 1] == grants[..i] + [g];
      if !g.counters.Balanced() {
        assert g in grants;
        return Err(Unavailable);
      }
      ProjectingNext(available - start, grantHeld, bases, grants[..i], g, cycle, materialized, now);
      grantHeld := grantHeld + g.counters.reserved;
      if g.kind.Base? && Some(g.kind.cycle) == cycle && materialized {
        bases := bases + 1;
      }
      if g.expiresAt.None? || now < g.expiresAt.value {
        if g.kind.Bonus? || (materialized && Some(g.kind.cycle) == cycle) {
          available := available + g.counters.Available();
        }
      }
    }
    ProjectingMeans(available - start, grantHeld, bases, grants, cycle, materialized, now);
    if held < 0 || grantHeld != held || (materialized && bases != 1) {
      return Err(Unavailable);
    }
    if charged < 0 {
      return Err(Unavailable);
    }
    r := Ok(Projection(plan, pending, b.startsAt, b.endsAt, available, held, charged, materialized));
  }

  /** What the projection shows, once it is not refused. */
  function ProjectedView(s: State, b: CycleBounds, held: int, charged: int, now: int): Projection {
    Projection(ProjectedPlan(s, b), ProjectedPending(s, b), b.startsAt, b.endsAt,
               (if Materialized(s, b) then 0 else PolicyOf(ProjectedPlan(s, b)).allowance)
               + SumOf(s.book.grants, ProjectedAvailableOf(LatestRow(s), Materialized(s, b), now)),
               held, charged, Materialized(s, b))
  }

  predicate Projectable(s: State, b: CycleBounds, held: int) {
    && !ProjectionRefused(s, LatestRow(s), ProjectedPlan(s, b), b.index)
    && (forall g | g in s.book.grants :: g.counters.Balanced())
    && 0 <= held && SumOf(s.book.grants, ReservedOf) == held
    && (Materialized(s, b) ==> SumOf(s.book.grants, BaseMatch(LatestRow(s))) == 1)
  }

  /** The projection as one expression. */
  function ProjectedUser(s: State, held: int, charged: int, now: int): Result<Projection, ReadError> {
    match BoundsAt(s.user.signedUpAt, now)
    case Err(_) => Err(Unavailable)
    case Ok(b) => if Projectable(s, b, held) && 0 <= charged then Ok(ProjectedView(s, b, held, charged, now)) else Err(Unavailable)
  }

  /** What was charged since the cycle of `now` began. */
  function ChargedSince(s: State, now: int): int
    requires BoundsAt(s.user.signedUpAt, now).Ok?
  {
    SumOf(RecordsOf(RowsWithin(s.reservations, BoundsAt(s.user.signedUpAt, now).value.startsAt, now)), ChargedOf)
  }

  lemma ChargedNonNegative(s: State, now: int)
    requires Core(s) && BoundsAt(s.user.signedUpAt, now).Ok?
    ensures 0 <= ChargedSince(s, now)
  {
    var from := BoundsAt(s.user.signedUpAt, now).value.startsAt;
    assert s.reservations[..|s.reservations|] == s.reservations;
    RecordedForNothing(s, |s.reservations|, from, now);
    hide Core, SumOf, RowsWithin, RecordsOf, BoundsAt;
    var records := RecordsOf(RowsWithin(s.reservations, from, now));
    forall u | u in records
      ensures 0 <= ChargedOf(u)
    {
      var i :| 0 <= i < |records| && records[i] == u;
    }
    SumOfNonNegative(records, ChargedOf);
  }

  lemma {:induction false} BaseMatchCount(grants: seq<Grant>, c: nat)
    ensures SumOf(grants, BaseMatch(Some(c))) == |Bases(grants, c)|
  {
    if grants != [] {
      BaseMatchCount(grants[..|grants| - 1], c);
    }
  }

  /** Grant by grant, what is projected as available is what would be left after expiry. */
  lemma ProjectedGrant(s: State, g: nat, now: int)
    requires Core(s) && Started(s) && s.account.Some? && AsOf(s) <= now && g < |s.book.grants|
    requires BoundsAt(s.user.signedUpAt, now).Ok?
    ensures var b := BoundsAt(s.user.signedUpAt, now).value;
            var materialized := s.cycles[|s.cycles| - 1].index == b.index;
            ProjectedAvailable(s.book.grants[g], Some(|s.cycles| - 1), materialized, now)
            == AvailableOf(Expired(s.book.grants[g], now))
  {
    hide Core, BoundsAt, PolicyOf, Coherent, Bases, Latest;
    var b := BoundsAt(s.user.signedUpAt, now).value;
    BoundsTile(s.user.signedUpAt, now, b.index);
    InvCoherent(s);
    ClockGuardUnreachable(s, now);
    if s.book.grants[g].kind.Base? {
      BaseCycle(s, g);
    }
  }

  /** A base grant expires with its cycle, which is no later than the newest one. */
  lemma BaseCycle(s: State, g: nat)
    requires Core(s) && g < |s.book.grants| && s.book.grants[g].kind.Base?
    ensures var c := s.book.grants[g].kind.cycle;
            && c < |s.cycles| && s.book.grants[g].expiresAt == Some(s.user.signedUpAt + s.cycles[c].index * CYCLE + CYCLE)
            && (c < |s.cycles| - 1 ==> s.cycles[c].index < s.cycles[|s.cycles| - 1].index)
  {
    hide ReservationsOk, LedgerOk, HoldsOk, NoResurrection, OperationsOk, AccountOk, PolicyOf, Bases;
    assert GrantOk(s, s.book.grants[g]);
    assert CycleOk(s, s.cycles[s.book.grants[g].kind.cycle]);
  }

  lemma {:induction false} ProjectedSum(xs: seq<Grant>, ys: seq<Grant>, f: Grant -> int)
    requires |xs| == |ys| && forall i | 0 <= i < |xs| :: f(xs[i]) == AvailableOf(ys[i])
    ensures SumOf(xs, f) == SumOf(ys, AvailableOf)
  {
    if xs != [] {
      ProjectedSum(xs[..|xs| - 1], ys[..|ys| - 1], f);
    }
  }

  lemma ProjectedTotals(s: State, now: int)
    requires Core(s) && Started(s) && AsOf(s) <= now && BoundsAt(s.user.signedUpAt, now).Ok?
    ensures var b := BoundsAt(s.user.signedUpAt, now).value;
            SumOf(s.book.grants, ProjectedAvailableOf(LatestRow(s), Materialized(s, b), now))
            == SumOf(ExpireAll(s.book.grants, now), AvailableOf)
  {
    if s.account.Some? {
      InvCoherent(s);
      var b := BoundsAt(s.user.signedUpAt, now).value;
      var materialized := s.cycles[|s.cycles| - 1].index == b.index;
      var f := ProjectedAvailableOf(LatestRow(s), materialized, now);
      forall g | 0 <= g < |s.book.grants|
        ensures f(s.book.grants[g]) == AvailableOf(ExpireAll(s.book.grants, now)[g])
      {
        ProjectedGrant(s, g, now);
      }
      ProjectedSum(s.book.grants, ExpireAll(s.book.grants, now), f);
    }
  }

  /** The projection exists for every representable time not before the account's clock. */
  lemma ProjectionTotal(s: State, now: int)
    requires Core(s) && Started(s) && AsOf(s) <= now
    ensures BoundsAt(s.user.signedUpAt, now).Ok? ==> ProjectedUser(s, HeldTotal(s.reservations), ChargedSince(s, now), now).Ok?
    ensures forall charged :: BoundsAt(s.user.signedUpAt, now).Err? ==> ProjectedUser(s, HeldTotal(s.reservations), charged, now).Err?
  {
    if BoundsAt(s.user.signedUpAt, now).Ok? {
      ChargedNonNegative(s, now);
      HeldAgrees(s);
      BalancesBounded(s);
      NotRefused(s, BoundsAt(s.user.signedUpAt, now).value, now);
      hide Core, Started, BoundsAt, SumOf, ProjectionRefused, HeldTotal, Materialized, LatestRow, ProjectedPlan, ProjectedView, ChargedSince;
      forall g | g in s.book.grants
        ensures g.counters.Balanced()
      {
        assert Storable(g.counters);
      }
    }
  }

  lemma NotRefused(s: State, b: CycleBounds, now: int)
    requires Core(s) && Started(s) && AsOf(s) <= now && BoundsAt(s.user.signedUpAt, now) == Ok(b)
    ensures !ProjectionRefused(s, LatestRow(s), ProjectedPlan(s, b), b.index)
    ensures Materialized(s, b) ==> SumOf(s.book.grants, BaseMatch(LatestRow(s))) == 1
  {
    hide BoundsAt, SumOf, GrantsOk, LedgerOk, ReservationsOk, HoldsOk, NoResurrection, OperationsOk, CyclesOk, PolicyOf, Bases;
    if s.account.Some? {
      InvCoherent(s);
      OneBase(s, |s.cycles| - 1);
      BaseMatchCount(s.book.grants, |s.cycles| - 1);
      ClockGuardUnreachable(s, now);
    }
  }

  lemma OneBase(s: State, c: nat)
    requires GrantsOk(s) && c < |s.cycles|
    ensures |Bases(s.book.grants, c)| == 1
  {
  }

  lemma {:induction false} ExpiryKeepsReserved(grants: seq<Grant>, now: int)
    ensures SumOf(ExpireAll(grants, now), ReservedOf) == SumOf(grants, ReservedOf)
  {
    if grants != [] {
      var n := |grants| - 1;
      ExpiryKeepsReserved(grants[..n], now);
      SumOfAppend(ExpireAll(grants[..n], now), Expired(grants[n], now), ReservedOf);
    }
  }

  /**
   * The operator's projection, made without writing, agrees with what bringing
   * the rows up to date would show: un-renewed cycles, pending downgrades and
   * users without an account included.
   */
  lemma ProjectionAgrees(s: State, now: int, tag: nat)
    requires Core(s) && Started(s) && EnsureCycle(s, now, tag).Ok?
    ensures var e := EnsureCycle(s, now, tag).value;
            var v := ViewOf(e);
            var p := ProjectedUser(s, HeldTotal(s.reservations), ChargedSince(s, now), now);
            && p.Ok?
            && p.value.plan == v.plan && p.value.pending == v.pending
            && p.value.startsAt == v.bounds.startsAt && p.value.renewsAt == v.bounds.endsAt
            && p.value.available == v.available && p.value.held == v.held
            && p.value.charged == ChargedSince(s, now)
            && (s.account.Some? ==> s.cycles != [])
            && (p.value.materialized <==> !NeedsCycle(s, BoundsAt(s.user.signedUpAt, now).value))
  {
    hide Core, Started, EnsureCycle, BoundsAt, SumOf, ExpireAll, PolicyOf, Projectable, Materialized, NeedsCycle, HeldTotal, ChargedSince;
    EnsureTotal(s, now, tag);
    EnsureClock(s, now, tag);
    var b := BoundsAt(s.user.signedUpAt, now).value;
    ProjectionTotal(s, now);
    ProjectedTotals(s, now);
    EnsureSpelledOut(s, now, tag);
    EnsureSums(s, now, tag);
    HeldAgrees(s);
    ExpiryKeepsReserved(s.book.grants, now);
    MaterializedMeans(s, b, now);
  }

  /** And the charged amount is the one the personal view shows, when that view exists. */
  lemma ChargedAgrees(s: State, now: int, tag: nat)
    requires Core(s) && Started(s) && ReadPersonalUsage(s, now, tag).Ok?
    ensures BoundsAt(s.user.signedUpAt, now).Ok?
    ensures ReadPersonalUsage(s, now, tag).value.1.charged == ChargedSince(s, now)
  {
    hide Core, Started, EnsureCycle, BoundsAt, SumOf, RowsWithin, RecordsOf, UsageFits, NothingForNothing, Storable, HeldTotal, HeldCount, PolicyOf;
    EnsureSpelledOut(s, now, tag);
    EnsureKeeps(s, now, tag);
    EnsureTotal(s, now, tag);
  }

  lemma MaterializedMeans(s: State, b: CycleBounds, now: int)
    requires Core(s) && Started(s) && AsOf(s) <= now && BoundsAt(s.user.signedUpAt, now) == Ok(b)
    ensures s.account.Some? ==> s.cycles != []
    ensures Materialized(s, b) <==> !NeedsCycle(s, b)
    ensures s.account.None? ==> NeedsCycle(s, b)
  {
    if s.account.Some? {
      InvCoherent(s);
      ClockGuardUnreachable(s, now);
    }
  }
}
