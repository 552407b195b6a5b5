/**
 * Holds, settlement and release: what `reserve`, `settle` and `release` do to
 * one user's rows, and which error they give when they do nothing.
 */
module CreditAccounting {
  import opened Prelude
  import opened Sorting
  import opened CreditPolicy
  import opened CreditRecords
  import opened CreditLifecycle

  datatype Estimate = Estimate(meter: Meter, maximumUnits: int)
  datatype UsageLine = UsageLine(meter: Meter, actualUnits: int, source: Source)

  datatype ReservationReceipt = ReservationReceipt(reservation: nat, key: Key, total: int, replayed: bool)
  datatype TerminalReceipt =
    TerminalReceipt(reservation: nat, key: Key, settled: bool, consumed: int, released: int, lines: nat, at: int, replayed: bool)

  /** The order in which the database returns the ledger: by time, ties by random id. */
  type Scan = seq<Event> -> seq<Event>

  ghost predicate InTimeOrder(es: seq<Event>) {
    forall i, j | 0 <= i < j < |es| :: es[i].createdAt <= es[j].createdAt
  }

  /** Reading loses and adds nothing and follows the clock; how ties come out is open. */
  ghost predicate Faithful(scan: Scan) {
    forall es :: multiset(scan(es)) == multiset(es) && InTimeOrder(scan(es))
  }

  // ---------------------------------------------------------------- inputs

  predicate EstimateLeq(a: Estimate, b: Estimate) {
    MeterRank(a.meter) < MeterRank(b.meter)
    || (a.meter == b.meter && a.maximumUnits <= b.maximumUnits)
  }

  function SourceRank(s: Source): nat {
    match s
    case ProviderReported => 0
    case PlatformMeasured => 1
    case MockEstimate => 2
    case Estimated => 3
  }

  predicate LineLeq(a: UsageLine, b: UsageLine) {
    MeterRank(a.meter) < MeterRank(b.meter)
    || (a.meter == b.meter
        && (a.actualUnits < b.actualUnits
            || (a.actualUnits == b.actualUnits && SourceRank(a.source) <= SourceRank(b.source))))
  }

  predicate ValidEstimates(raw: seq<Estimate>) {
    && 1 <= |raw| <= METER_COUNT
    && (forall i, j | 0 <= i < j < |raw| :: raw[i].meter != raw[j].meter)
    && (forall e | e in raw :: 1 <= e.maximumUnits <= MAX_BIGINT)
  }

  predicate ValidLines(raw: seq<UsageLine>, allowEmpty: bool) {
    && |raw| <= METER_COUNT
    && (raw == [] ==> allowEmpty)
    && (forall i, j | 0 <= i < j < |raw| :: raw[i].meter != raw[j].meter)
    && (forall l | l in raw :: 0 <= l.actualUnits <= MAX_BIGINT)
  }

  // ---------------------------------------------------------------- the ledger agrees with the grants

  /** First fault met while the running totals of a scan are accumulated. */
  function ScanFault(scan: seq<Event>, grants: nat): Check<CreditError> {
    if scan == [] then Pass
    else
      var init, e := scan[..|scan| - 1], scan[|scan| - 1];
      var before := ScanFault(init, grants);
      if before.Fail? then before
      else if e.grant >= grants then Fail(AccountInconsistent)
      else if !Totals(scan, e.grant).InRange() then Fail(AmountOverflow)
      else Pass
  }

  predicate Storable(c: Counters) {
    && 0 <= c.granted <= MAX_BIGINT && 0 <= c.reserved <= MAX_BIGINT
    && 0 <= c.consumed <= MAX_BIGINT && 0 <= c.expired <= MAX_BIGINT
    && c.reserved + c.consumed + c.expired <= c.granted
  }

  function LedgerCheck(scan: seq<Event>, grants: seq<Grant>): Check<CreditError> {
    var fault := ScanFault(scan, |grants|);
    if fault.Fail? then fault
    else
      Need(forall g | 0 <= g < |grants| :: Storable(grants[g].counters) && Totals(scan, g) == grants[g].counters,
           AccountInconsistent)
  }

  // ---------------------------------------------------------------- reserve

  /** Row of the reservation made under `key`. */
  function FindReserved(rs: seq<Reservation>, key: Key): (r: Option<nat>)
    ensures r.Some? ==> r.value < |rs| && rs[r.value].key == key
    ensures r.None? ==> forall i | 0 <= i < |rs| :: rs[i].key != key
  {
    if rs == [] then None
    else if rs[|rs| - 1].key == key then Some(|rs| - 1)
    else FindReserved(rs[..|rs| - 1], key)
  }

  predicate SameEstimates(items: seq<Item>, es: seq<Estimate>) {
    && |items| == |es|
    && forall i | 0 <= i < |es| :: items[i].meter == es[i].meter && items[i].maximumUnits == es[i].maximumUnits
  }

  function Quotes(es: seq<Estimate>): (r: Result<seq<Item>, CreditError>)
    ensures r.Ok? ==> |r.value| == |es|
  {
    if es == [] then Ok([])
    else
      var e := es[|es| - 1];
      var items :- Quotes(es[..|es| - 1]);
      match QuoteUsage(e.meter, e.maximumUnits)
      case Ok(amount) => Ok(items + [Item(e.meter, e.maximumUnits, amount)])
      case Err(error) => Err(if error.PolicyAmountOverflow? then AmountOverflow else InputInvalid)
  }

  datatype Candidate = Candidate(row: nat, grant: Grant)

  /** Soonest expiry first, never-expiring last; then by age, then by id. */
  predicate PriorityLeq(a: Candidate, b: Candidate) {
    var x, y := a.grant, b.grant;
    if x.expiresAt.None? != y.expiresAt.None? then y.expiresAt.None?
    else if x.expiresAt != y.expiresAt then x.expiresAt.value < y.expiresAt.value
    else if x.createdAt != y.createdAt then x.createdAt < y.createdAt
    else if x.tag != y.tag then x.tag < y.tag
    else a.row <= b.row
  }

  function Candidates(grants: seq<Grant>): (cs: seq<Candidate>)
    ensures |cs| == |grants|
    ensures forall i | 0 <= i < |grants| :: cs[i] == Candidate(i, grants[i])
  {
    if grants == [] then []
    else Candidates(grants[..|grants| - 1]) + [Candidate(|grants| - 1, grants[|grants| - 1])]
  }

  function Priority(grants: seq<Grant>): seq<Candidate> {
    Sort(Candidates(grants), PriorityLeq)
  }

  /** Spend greedily along the candidates until `remaining` is covered. */
  function Allocate(cs: seq<Candidate>, remaining: int): seq<Allocation>
    requires 0 <= remaining
    requires forall c | c in cs :: 0 <= c.grant.counters.Available()
  {
    if cs == [] || remaining == 0 then []
    else
      assert cs[0] in cs;
      var taken := Min(cs[0].grant.counters.Available(), remaining);
      (if taken > 0 then [Allocation(cs[0].row, taken)] else []) + Allocate(cs[1..], remaining - taken)
  }

  function HoldEventOf(a: Allocation, rid: nat, now: int): Event {
    Event(a.grant, ReserveEvent, ReserveOf(rid), now, Counters(0, a.amount, 0, 0))
  }

  function HoldEvents(allocations: seq<Allocation>, rid: nat, now: int): (es: seq<Event>)
    ensures |es| == |allocations|
    ensures forall i | 0 <= i < |es| :: es[i] == HoldEventOf(allocations[i], rid, now)
  {
    if allocations == [] then []
    else HoldEvents(allocations[..|allocations| - 1], rid, now) + [HoldEventOf(allocations[|allocations| - 1], rid, now)]
  }

  /** A new held reservation: its rows, the grants' counters and the ledger. */
  ghost function Hold(s: State, key: Key, items: seq<Item>, allocations: seq<Allocation>, now: int): State
    requires forall a | a in allocations :: a.grant < |s.book.grants|
  {
    var rid := |s.reservations|;
    s.(reservations := s.reservations + [Reservation(key, SumOf(items, QuotedOf), now, items, allocations, None)],
       book := PostAll(s.book, HoldEvents(allocations, rid, now)))
  }

  /** Past replay and renewal: admission, quoting and the greedy allocation. */
  ghost function Admit(s: State, key: Key, es: seq<Estimate>, now: int, scan: Scan)
    : Result<(State, ReservationReceipt), CreditError>
    requires s.account.Some?
  {
    var policy := PolicyOf(s.account.value.plan);
    :- Need(forall e | e in es :: e.meter !in policy.refused, PlanRefused);
    :- Need(HeldCount(s.reservations) < policy.maxConcurrentRequests, UserConcurrencyLimit);
    :- LedgerCheck(scan(s.book.ledger), s.book.grants);
    var items :- Quotes(es);
    var total := SumOf(items, QuotedOf);
    :- Need(total <= MAX_BIGINT, AmountOverflow);
    :- Need(0 < total, InputInvalid);
    assert forall g | 0 <= g < |s.book.grants| :: Storable(s.book.grants[g].counters);
    PriorityRows(s.book.grants);
    var allocations := Allocate(Priority(s.book.grants), total);
    :- Need(SumOf(allocations, AmountOf) == total, MonthlyCreditExhausted);
    AllocateRows(Priority(s.book.grants), total, |s.book.grants|);
    Ok((Hold(s, key, items, allocations, now), ReservationReceipt(|s.reservations|, key, total, false)))
  }

  function MappedError(e: CreditError): CreditError {
    if e.ClockRegressed? then AccountInconsistent else e
  }

  ghost function Reserve(s: State, key: Key, raw: seq<Estimate>, now: int, tag: nat, scan: Scan)
    : Result<(State, ReservationReceipt), CreditError>
  {
    var valid := ValidEstimates(raw);
    :- Need(valid, InputInvalid);
    var es := Sort(raw, EstimateLeq);
    var existing := FindReserved(s.reservations, key);
    if existing.Some? then
      var r := s.reservations[existing.value];
      :- Need(SameEstimates(r.items, es), IdempotencyConflict);
      Ok((s, ReservationReceipt(existing.value, r.key, r.total, true)))
    else
      :- Need(s.user.signedUpAt <= now, InputInvalid);
      :- Need(s.user.status.Active?, PlanRefused);
      match EnsureCycle(s, now, tag)
      case Err(error) => Err(MappedError(error))
      case Ok(e) => Admit(e.state, key, es, now, scan)
  }

  lemma PriorityRows(grants: seq<Grant>)
    ensures forall c | c in Priority(grants) :: c.row < |grants| && c.grant == grants[c.row]
    ensures |Priority(grants)| == |grants|
  {
    SortPermutes(Candidates(grants), PriorityLeq);
  }

  lemma {:induction false} AllocateRows(cs: seq<Candidate>, remaining: int, n: nat)
    requires 0 <= remaining
    requires forall c | c in cs :: 0 <= c.grant.counters.Available() && c.row < n
    ensures forall a | a in Allocate(cs, remaining) :: a.grant < n && 0 < a.amount
    decreases |cs|
  {
    if cs != [] && remaining != 0 {
      assert cs[0] in cs;
      AllocateRows(cs[1..], remaining - Min(cs[0].grant.counters.Available(), remaining), n);
    }
  }

  // ---------------------------------------------------------------- settle and release

  function FindTerminal(rs: seq<Reservation>, key: Key): (r: Option<nat>)
    ensures r.Some? ==> r.value < |rs| && rs[r.value].terminal.Some? && rs[r.value].terminal.value.key == key
    ensures r.None? ==> forall i | 0 <= i < |rs| :: rs[i].terminal.Some? ==> rs[i].terminal.value.key != key
  {
    if rs == [] then None
    else
      var r := rs[|rs| - 1];
      if r.terminal.Some? && r.terminal.value.key == key then Some(|rs| - 1)
      else FindTerminal(rs[..|rs| - 1], key)
  }

  predicate ReservationCoherent(r: Reservation, grants: nat) {
    && r.items != [] && r.allocations != []
    && (forall i | i in r.items :: QuoteUsage(i.meter, i.maximumUnits) == Ok(i.quoted))
    && (forall a | a in r.allocations :: 0 <= a.amount && a.grant < grants)
    && SumOf(r.items, QuotedOf) == r.total
    && SumOf(r.allocations, AmountOf) == r.total
    && r.total <= MAX_BIGINT
  }

  predicate SameLines(records: seq<UsageRecord>, lines: seq<UsageLine>) {
    && |records| == |lines|
    && forall i | 0 <= i < |lines| ::
        && records[i].meter == lines[i].meter
        && records[i].actualUnits == lines[i].actualUnits
        && records[i].source == lines[i].source
  }

  function TerminalReceiptOf(r: Reservation, rid: nat, replayed: bool): Result<TerminalReceipt, CreditError>
    requires r.terminal.Some?
  {
    var t := r.terminal.value;
    var consumed := SumOf(t.records, ChargedOf);
    :- Need(forall u | u in t.records :: 0 <= u.charged <= MAX_BIGINT, AccountInconsistent);
    :- Need(consumed <= MAX_BIGINT, AmountOverflow);
    :- Need(consumed <= r.total, AccountInconsistent);
    Ok(TerminalReceipt(rid, t.key, t.settled, consumed, r.total - consumed, |t.records|, t.at, replayed))
  }

  function FindItem(items: seq<Item>, m: Meter): (r: Option<nat>)
    ensures r.Some? ==> r.value < |items| && items[r.value].meter == m
    ensures r.None? ==> forall i | i in items :: i.meter != m
  {
    if items == [] then None
    else if items[|items| - 1].meter == m then Some(|items| - 1)
    else FindItem(items[..|items| - 1], m)
  }

  /** The usage records of the reported lines, priced when the reservation is charged. */
  function Charges(lines: seq<UsageLine>, items: seq<Item>, charge: bool): (r: Result<seq<UsageRecord>, CreditError>)
    requires forall l | l in lines :: FindItem(items, l.meter).Some?
    ensures r.Ok? ==> |r.value| == |lines|
  {
    if lines == [] then Ok([])
    else
      var l := lines[|lines| - 1];
      var records :- Charges(lines[..|lines| - 1], items, charge);
      assert l in lines;
      var item := items[FindItem(items, l.meter).value];
      :- Need(l.actualUnits <= item.maximumUnits, UsageExceedsReservation);
      if !charge then Ok(records + [UsageRecord(l.meter, l.actualUnits, l.source, 0)])
      else
        match QuoteUsage(l.meter, l.actualUnits)
        case Ok(amount) => Ok(records + [UsageRecord(l.meter, l.actualUnits, l.source, amount)])
        case Err(error) => Err(if error.PolicyAmountOverflow? then AmountOverflow else AccountInconsistent)
  }

  /** What is left to spend after the first `n` allocations. */
  function Remaining(allocations: seq<Allocation>, consumed: int, n: nat): int
    requires n <= |allocations|
  {
    if n == 0 then consumed
    else
      var before := Remaining(allocations, consumed, n - 1);
      before - Min(allocations[n - 1].amount, before)
  }

  function SpentAt(allocations: seq<Allocation>, consumed: int, n: nat): int
    requires n < |allocations|
  {
    Min(allocations[n].amount, Remaining(allocations, consumed, n))
  }

  function TerminalEventOf(a: Allocation, spent: int, expired: bool, rid: nat, now: int, charge: bool): Event {
    Event(a.grant, if charge then SettleEvent else ReleaseEvent, TerminalOf(rid), now,
          Counters(0, -a.amount, spent, if expired then a.amount - spent else 0))
  }

  /** Hand the first `n` allocations back to their grants, spending `consumed` along the way. */
  function Discharge(b: Book, allocations: seq<Allocation>, consumed: int, rid: nat, now: int, charge: bool, n: nat)
    : (r: Result<Book, CreditError>)
    requires n <= |allocations|
    requires forall a | a in allocations :: a.grant < |b.grants|
    ensures r.Ok? ==> |r.value.grants| == |b.grants|
  {
    if n == 0 then Ok(b)
    else
      var p :- Discharge(b, allocations, consumed, rid, now, charge, n - 1);
      var a := allocations[n - 1];
      var g := p.grants[a.grant];
      :- Need(a.amount <= g.counters.reserved, AccountInconsistent);
      var spent := SpentAt(allocations, consumed, n - 1);
      var q := Post(p, TerminalEventOf(a, spent, g.ExpiredAt(now), rid, now, charge));
      :- Need(q.grants[a.grant].counters.consumed <= MAX_BIGINT && q.grants[a.grant].counters.expired <= MAX_BIGINT,
              AmountOverflow);
      Ok(q)
  }

  /** Past the replay check: close a held reservation. */
  function Close(s: State, rid: nat, lines: seq<UsageLine>, delivery: Delivery, reason: Reason, key: Key, now: int, charge: bool)
    : Result<(State, TerminalReceipt), CreditError>
    requires s.account.Some?
  {
    var inOrder := s.account.value.updatedAt <= now;
    :- Need(inOrder, AccountInconsistent);
    :- Need(rid < |s.reservations|, ReservationMissing);
    var r := s.reservations[rid];
    :- Need(ReservationCoherent(r, |s.book.grants|), AccountInconsistent);
    :- Need(r.Held(), ReservationStateConflict);
    :- Need(r.createdAt <= now, InputInvalid);
    :- Need(forall l | l in lines :: FindItem(r.items, l.meter).Some?, UsageExceedsReservation);
    var records :- Charges(lines, r.items, charge);
    var consumed := SumOf(records, ChargedOf);
    :- Need(consumed <= MAX_BIGINT, AmountOverflow);
    :- Need(charge ==> 0 < consumed, InputInvalid);
    :- Need(consumed <= r.total, UsageExceedsReservation);
    var book :- Discharge(s.book, r.allocations, consumed, rid, now, charge, |r.allocations|);
    :- Need(Remaining(r.allocations, consumed, |r.allocations|) == 0, AccountInconsistent);
    var closed := r.(terminal := Some(Terminal(charge, key, now, reason, delivery, records)));
    var receipt :- TerminalReceiptOf(closed, rid, false);
    Ok((s.(reservations := s.reservations[rid := closed], book := book), receipt))
  }

  function Terminate(s: State, rid: nat, lines: seq<UsageLine>, delivery: Delivery, reason: Reason, key: Key, now: int,
                     charge: bool, scan: Scan): Result<(State, TerminalReceipt), CreditError>
  {
    var started := s.account.Some? && s.cycles != [];
    :- Need(started, AccountInconsistent);
    :- LedgerCheck(scan(s.book.ledger), s.book.grants);
    var existing := FindTerminal(s.reservations, key);
    if existing.Some? then
      var r := s.reservations[existing.value];
      var t := r.terminal.value;
      :- Need(ReservationCoherent(r, |s.book.grants|), AccountInconsistent);
      :- Need(existing.value == rid && t.settled == charge && t.delivery == delivery && t.reason == reason
              && SameLines(t.records, lines), IdempotencyConflict);
      var receipt :- TerminalReceiptOf(r, rid, true);
      Ok((s, receipt))
    else
      Close(s, rid, lines, delivery, reason, key, now, charge)
  }

  function Settle(s: State, rid: nat, usage: seq<UsageLine>, delivery: Delivery, key: Key, now: int, scan: Scan)
    : Result<(State, TerminalReceipt), CreditError>
  {
    var valid := ValidLines(usage, false) && !delivery.NoDeliverable?;
    :- Need(valid, InputInvalid);
    Terminate(s, rid, Sort(usage, LineLeq), delivery, UsageSettled, key, now, true, scan)
  }

  function Release(s: State, rid: nat, usage: seq<UsageLine>, reason: Reason, key: Key, now: int, scan: Scan)
    : Result<(State, TerminalReceipt), CreditError>
  {
    var valid := ValidLines(usage, true) && !reason.UsageSettled?;
    :- Need(valid, InputInvalid);
    Terminate(s, rid, Sort(usage, LineLeq), NoDeliverable, reason, key, now, false, scan)
  }
}
