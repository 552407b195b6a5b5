/** What the personal usage view shows, told from the rows it was asked about, and the reading of it in place. */
module ViewMeaning {
  import opened Prelude
  import opened CreditPolicy
  import opened CreditRecords
  import opened CreditLifecycle
  import opened CreditAccounting
  import opened CreditInvariant
  import opened LifecycleInvariant
  import opened LazyRenewal
  import opened CreditStore
  import opened UsageViews

  // ---------------------------------------------------------------- sums over the reservations themselves

  /** `f` over the records of a reservation that ended between `from` and `to`. */
  function EndedWithin(f: UsageRecord -> int, from: int, to: int): Reservation -> int {
    (r: Reservation) => if r.terminal.Some? && from <= r.terminal.value.at <= to then SumOf(r.terminal.value.records, f) else 0
  }

  lemma RecordsJoin(xs: seq<UsageRow>, ys: seq<UsageRow>)
    ensures RecordsOf(xs + ys) == RecordsOf(xs) + RecordsOf(ys)
  {
  }

  lemma {:induction false} WithinSum(rs: seq<Reservation>, from: int, to: int, f: UsageRecord -> int)
    ensures SumOf(RecordsOf(RowsWithin(rs, from, to)), f) == SumOf(rs, EndedWithin(f, from, to))
  {
    hide SumOf, RecordsOf;
    if rs == [] {
      EmptySums(f, EndedWithin(f, from, to));
    } else {
      var n := |rs| - 1;
      WithinSum(rs[..n], from, to, f);
      assert rs == rs[..n] + [rs[n]];
      SumOfAppend(rs[..n], rs[n], EndedWithin(f, from, to));
      LastEnded(rs, from, to, f);
    }
  }

  lemma EmptySums(f: UsageRecord -> int, g: Reservation -> int)
    ensures SumOf(RecordsOf([]), f) == SumOf([], g) == 0
  {
  }

  /** The last reservation adds its own records, if it ended in time. */
  lemma LastEnded(rs: seq<Reservation>, from: int, to: int, f: UsageRecord -> int)
    requires rs != []
    ensures SumOf(RecordsOf(RowsWithin(rs, from, to)), f)
            == SumOf(RecordsOf(RowsWithin(rs[..|rs| - 1], from, to)), f) + EndedWithin(f, from, to)(rs[|rs| - 1])
  {
    hide SumOf;
    var r := rs[|rs| - 1];
    var before := RowsWithin(rs[..|rs| - 1], from, to);
    if r.terminal.Some? && from <= r.terminal.value.at <= to {
      var rows := RowsOf(r.terminal.value.records, r.terminal.value.delivery);
      RecordsJoin(before, rows);
      assert RecordsOf(rows) == r.terminal.value.records;
      SumOfConcat(RecordsOf(before), r.terminal.value.records, f);
    } else {
      assert before + [] == before;
    }
  }

  /** Positions of the held reservations. */
  function HeldIds(rs: seq<Reservation>): set<nat> {
    set i: nat | i < |rs| && rs[i].Held()
  }

  lemma {:induction false} HeldCounted(rs: seq<Reservation>)
    ensures HeldCount(rs) == |HeldIds(rs)|
  {
    if rs == [] {
      assert HeldIds(rs) == {};
    } else {
      var n := |rs| - 1;
      HeldCounted(rs[..n]);
      assert HeldIds(rs) == HeldIds(rs[..n]) + if rs[n].Held() then {n} else {};
    }
  }

  function ChargedBy(u: MeterUse): int {
    u.charged
  }

  lemma {:induction false} MeterCharges(meters: seq<Meter>, records: seq<UsageRecord>)
    requires forall i, j | 0 <= i < j < |meters| :: meters[i] != meters[j]
    ensures SumOf(UseOn(meters, records), ChargedBy) == SumOf(records, (u: UsageRecord) => if u.meter in meters then u.charged else 0)
  {
    var among := (u: UsageRecord) => if u.meter in meters then u.charged else 0;
    if meters == [] {
      Nothing(records, among);
    } else {
      var n := |meters| - 1;
      var m := meters[n];
      assert meters == meters[..n] + [m];
      MeterCharges(meters[..n], records);
      var before := (u: UsageRecord) => if u.meter in meters[..n] then u.charged else 0;
      SumsAdd(records, before, ChargedOn(m), among);
      SumOfAppend(UseOn(meters[..n], records), UseOn(meters, records)[n], ChargedBy);
      assert UseOn(meters, records) == UseOn(meters[..n], records) + [UseOn(meters, records)[n]];
    }
  }

  lemma {:induction false} Nothing(records: seq<UsageRecord>, f: UsageRecord -> int)
    requires forall u :: f(u) == 0
    ensures SumOf(records, f) == 0
  {
    if records != [] {
      Nothing(records[..|records| - 1], f);
    }
  }

  lemma {:induction false} SumsAdd(records: seq<UsageRecord>, f: UsageRecord -> int, g: UsageRecord -> int, h: UsageRecord -> int)
    requires forall u :: h(u) == f(u) + g(u)
    ensures SumOf(records, h) == SumOf(records, f) + SumOf(records, g)
  {
    if records != [] {
      SumsAdd(records[..|records| - 1], f, g, h);
    }
  }

  /** The charge of the cycle is the sum of what its meters charged. */
  lemma ChargeSplits(records: seq<UsageRecord>)
    ensures SumOf(UseOn(METERS, records), ChargedBy) == SumOf(records, ChargedOf)
  {
    var among := (u: UsageRecord) => if u.meter in METERS then u.charged else 0;
    MeterCharges(METERS, records);
    forall u: UsageRecord
      ensures among(u) == ChargedOf(u)
    {
      InMeters(u.meter);
    }
    SumsAdd(records, ChargedOf, (u: UsageRecord) => 0, among);
    Nothing(records, (u: UsageRecord) => 0);
  }

  // ---------------------------------------------------------------- what the view shows

  /**
   * When the view exists, it shows what the operator's projection of the same
   * rows shows, and reading it leaves the rows as bringing them up to date does.
   * Held requests are counted one by one against the limit of the plan in
   * force, and each meter's use is what ended within the cycle.
   */
  ghost predicate Shows(s: State, now: int, b: CycleBounds, v: UsageView)
    requires s.account.Some? ==> s.cycles != []
    requires BoundsAt(s.user.signedUpAt, now).Ok?
  {
    var p := ProjectedUser(s, HeldTotal(s.reservations), ChargedSince(s, now), now);
    && BoundsAt(s.user.signedUpAt, now) == Ok(b)
    && p.Ok?
    && v.plan == p.value.plan == PlanInForce(s, b) && v.pending == p.value.pending
    && v.cycle == b && p.value.startsAt == b.startsAt && p.value.renewsAt == b.endsAt
    && v.available == p.value.available
    && v.held == p.value.held == HeldTotal(s.reservations)
    && v.active == |HeldIds(s.reservations)| <= v.limit
    && v.limit == (match v.plan case Free => 1 case Pro => 3 case Max => 5)
    && v.allowance == (match v.plan case Free => 1_000 case Pro => 10_000 case Max => 50_000) * MICROCREDITS_PER_CREDIT
    && v.charged == p.value.charged == SumOf(s.reservations, EndedWithin(ChargedOf, b.startsAt, now))
    && v.charged == SumOf(v.usage, ChargedBy)
    && |v.usage| == |METERS|
    && forall i | 0 <= i < |METERS| ::
         v.usage[i] == MeterUse(METERS[i], SumOf(s.reservations, EndedWithin(ObservedOn(METERS[i]), b.startsAt, now)),
                                SumOf(s.reservations, EndedWithin(ChargedOn(METERS[i]), b.startsAt, now)))
  }

  lemma ViewMeans(s: State, now: int, tag: nat)
    requires Core(s) && Started(s) && ReadPersonalUsage(s, now, tag).Ok?
    ensures s.account.Some? ==> s.cycles != []
    ensures BoundsAt(s.user.signedUpAt, now).Ok?
    ensures EnsureCycle(s, now, tag).Ok? && ReadPersonalUsage(s, now, tag).value.0 == EnsureCycle(s, now, tag).value.state
    ensures Shows(s, now, BoundsAt(s.user.signedUpAt, now).value, ReadPersonalUsage(s, now, tag).value.1)
  {
    hide Core, Started, EnsureCycle, BoundsAt, PolicyOf, RowsWithin, RecordsOf, SumOf, ProjectedUser, ChargedSince, HeldTotal, HeldCount, HeldIds,
      UseOn, PlanInForce, Storable, UsageFits, NothingForNothing;
    var (t, v) := ReadPersonalUsage(s, now, tag).value;
    var e := EnsureCycle(s, now, tag).value;
    ReadTotal(s, now, tag);
    EnsureSpelledOut(s, now, tag);
    KeptRows(s, now, tag);
    ProjectionAgrees(s, now, tag);
    ChargedAgrees(s, now, tag);
    HeldCounted(s.reservations);
    var b := BoundsAt(s.user.signedUpAt, now).value;
    PlanNumbers(v.plan);
    var records := RecordsOf(RowsWithin(s.reservations, b.startsAt, now));
    WithinSum(s.reservations, b.startsAt, now, ChargedOf);
    ChargeSplits(records);
    UsesWithin(s, b.startsAt, now);
  }

  lemma PlanNumbers(p: Plan)
    ensures PolicyOf(p).maxConcurrentRequests == (match p case Free => 1 case Pro => 3 case Max => 5)
    ensures PolicyOf(p).allowance == (match p case Free => 1_000 case Pro => 10_000 case Max => 50_000) * MICROCREDITS_PER_CREDIT
  {
  }

  lemma KeptRows(s: State, now: int, tag: nat)
    requires Core(s) && Started(s) && EnsureCycle(s, now, tag).Ok?
    ensures EnsureCycle(s, now, tag).value.state.reservations == s.reservations
    ensures s.account.Some? ==> s.cycles != []
    ensures BoundsAt(s.user.signedUpAt, now).Ok?
    ensures EnsureCycle(s, now, tag).value.state.account.value.plan == PlanInForce(s, BoundsAt(s.user.signedUpAt, now).value)
  {
    hide Core, EnsureCycle, BoundsAt;
    EnsureTotal(s, now, tag);
    EnsureKeeps(s, now, tag);
    EnsureSpelledOut(s, now, tag);
  }

  lemma UsesWithin(s: State, from: int, now: int)
    ensures var usage := UseOn(METERS, RecordsOf(RowsWithin(s.reservations, from, now)));
            forall i | 0 <= i < |METERS| ::
              usage[i] == MeterUse(METERS[i], SumOf(s.reservations, EndedWithin(ObservedOn(METERS[i]), from, now)),
                                   SumOf(s.reservations, EndedWithin(ChargedOn(METERS[i]), from, now)))
  {
    hide SumOf, RowsWithin, RecordsOf;
    forall m: Meter
      ensures SumOf(RecordsOf(RowsWithin(s.reservations, from, now)), ObservedOn(m)) == SumOf(s.reservations, EndedWithin(ObservedOn(m), from, now))
      ensures SumOf(RecordsOf(RowsWithin(s.reservations, from, now)), ChargedOn(m)) == SumOf(s.reservations, EndedWithin(ChargedOn(m), from, now))
    {
      WithinSum(s.reservations, from, now, ObservedOn(m));
      WithinSum(s.reservations, from, now, ChargedOn(m));
    }
  }

  // ---------------------------------------------------------------- reading in place

  /** The held rows, as the query selects them. */
  function HeldRows(rs: seq<Reservation>): (r: seq<Reservation>)
    ensures forall x :: x in r <==> x in rs && x.Held()
  {
    if rs == [] then []
    else
      assert rs == rs[..|rs| - 1] + [rs[|rs| - 1]];
      HeldRows(rs[..|rs| - 1]) + if rs[|rs| - 1].Held() then [rs[|rs| - 1]] else []
  }

  lemma {:induction false} HeldRowsCount(rs: seq<Reservation>)
    ensures |HeldRows(rs)| == HeldCount(rs) && HeldTotal(HeldRows(rs)) == HeldTotal(rs)
  {
    if rs != [] {
      var n := |rs| - 1;
      HeldRowsCount(rs[..n]);
      if rs[n].Held() {
        SumOfAppend(HeldRows(rs[..n]), rs[n], HeldAmount);
      } else {
        assert HeldRows(rs[..n]) + [] == HeldRows(rs[..n]);
      }
    }
  }

  /** The report of the totals, in meter order. */
  method ReportUse(totals: map<Meter, (int, int)>, ghost records: seq<UsageRecord>) returns (usage: seq<MeterUse>)
    requires forall m :: m in totals && totals[m] == (SumOf(records, ObservedOn(m)), SumOf(records, ChargedOn(m)))
    ensures usage == UseOn(METERS, records)
  {
    hide SumOf;
    usage := [];
    for i := 0 to |METERS|
      invariant |usage| == i
      invariant forall k | 0 <= k < i :: usage[k] == UseOn(METERS, records)[k]
    {
      var m := METERS[i];
      usage := usage + [MeterUse(m, totals[m].0, totals[m].1)];
    }
    assert usage == UseOn(METERS, records);
  }

  /** The reading itself: three loops over the tables and what must agree between them. */
  method ReadTables(store: Store, cycle: nat, now: int) returns (r: Result<UsageView, ReadError>)
    requires store.account.Some? && cycle < |store.cycles|
    ensures r == Shown(store.Rows(), cycle, now)
  {
    hide SumOf, RowsWithin, RecordsOf, UsageFits, NothingForNothing, Storable, PolicyOf, UseOn, Readable, HeldTotal, HeldCount;
    var c := store.cycles[cycle];
    var limit := PolicyOf(store.account.value.plan).maxConcurrentRequests;
    var rows := RowsWithin(store.reservations, c.startsAt, now);
    var credit := GrantTotals(store.grants);
    if credit.Err? {
      return Err(Unavailable);
    }
    HeldRowsCount(store.reservations);
    var open := ReservationTotals(HeldRows(store.reservations));
    if open.Err? {
      return Err(Unavailable);
    }
    if credit.value.1 != open.value.1 || open.value.0 > limit {
      return Err(Unavailable);
    }
    var used := UsageTotals(rows);
    if used.Err? {
      return Err(Unavailable);
    }
    if !(0 <= c.index && c.startsAt <= now < c.endsAt) || !Readable(c.allowance) {
      return Err(Unavailable);
    }
    var usage := ReportUse(used.value.0, RecordsOf(rows));
    r := Ok(UsageView(store.account.value.plan, store.account.value.pending, CycleBounds(c.index, c.startsAt, c.endsAt), c.allowance,
                      credit.value.0, credit.value.1, open.value.0, limit, used.value.1, usage));
  }

  /** `read_personal_usage` under its savepoint: bring the rows up to date, read the tables, and undo everything on a refusal. */
  method ReadUsage(store: Store, now: int, tag: nat) returns (r: Result<UsageView, ReadError>)
    modifies store
    ensures match ReadPersonalUsage(old(store.Rows()), now, tag)
            case Ok((t, v)) => r == Ok(v) && store.Rows() == t
            case Err(error) => r == Err(error) && store.Rows() == old(store.Rows())
    ensures Inv(old(store.Rows())) ==> Inv(store.Rows())
  {
    hide Inv, EnsureCycle, SumOf, RowsWithin, RecordsOf, UsageFits, NothingForNothing, Storable, HeldTotal, HeldCount, PolicyOf, UseOn, Shown;
    var savepoint := store.Rows();
    var current := store.Ensure(now, tag);
    if current.Err? {
      return Err(Unavailable);
    }
    r := ReadTables(store, current.value.0, now);
    if r.Err? {
      store.Rollback(savepoint);
    }
  }
}
