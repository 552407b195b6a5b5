/**
 * The credit tables of one user as the services change them: rows updated in
 * place, and a savepoint that undoes a failing call. Every public method is
 * tied to the call it implements in `CreditHistory.Step`.
 */
module CreditStore {
  import opened Prelude
  import opened Sorting
  import opened CreditPolicy
  import opened CreditRecords
  import opened CreditLifecycle
  import opened CreditAccounting
  import opened CreditInvariant
  import opened CreditLoops
  import opened MasterAdmin
  import opened CreditHistory

  /** A method did what the specification says: same answer, same rows; after an error the rows do not matter. */
  ghost predicate Does<R>(spec: Result<(State, R), CreditError>, r: Result<R, CreditError>, rows: State) {
    match spec
    case Ok((t, answer)) => r == Ok(answer) && rows == t
    case Err(error) => r == Err(error)
  }

  ghost predicate BroughtUpToDate(spec: Result<Current, CreditError>, r: Result<(nat, nat), CreditError>, rows: State) {
    match spec
    case Ok(e) => r == Ok((e.cycle, e.base)) && rows == e.state
    case Err(error) => r == Err(error)
  }

  /** The part of a settlement that only reads: the records and what they charge. */
  function Priced(row: Reservation, lines: seq<UsageLine>, charge: bool): Result<(seq<UsageRecord>, int), CreditError> {
    var reserved := forall l | l in lines :: FindItem(row.items, l.meter).Some?;
    :- Need(reserved, UsageExceedsReservation);
    var records :- Charges(lines, row.items, charge);
    var consumed := SumOf(records, ChargedOf);
    :- Need(consumed <= MAX_BIGINT, AmountOverflow);
    :- Need(charge ==> 0 < consumed, InputInvalid);
    :- Need(consumed <= row.total, UsageExceedsReservation);
    Ok((records, consumed))
  }

  class Store {
    var user: User
    var account: Option<Account>
    var cycles: seq<Cycle>
    var grants: seq<Grant>
    var ledger: seq<Event>
    var reservations: seq<Reservation>
    var operations: map<Key, Operation>
    var audits: map<nat, Audit>

    function Entries(): Book
      reads this`grants, this`ledger
    {
      Book(grants, ledger)
    }

    function Rows(): State
      reads this
    {
      State(user, account, cycles, Entries(), reservations, operations, audits)
    }

    constructor (user: User)
      ensures Rows() == SignedUp(user)
    {
      this.user, account, cycles, grants, ledger := user, None, [], [], [];
      reservations, operations, audits := [], map[], map[];
    }

    /** The savepoint is rolled back. */
    method Rollback(savepoint: State)
      modifies this
      ensures Rows() == savepoint
    {
      user, account, cycles := savepoint.user, savepoint.account, savepoint.cycles;
      grants, ledger := savepoint.book.grants, savepoint.book.ledger;
      reservations, operations, audits := savepoint.reservations, savepoint.operations, savepoint.audits;
    }

    /** Change one grant's counters in place and record the event. */
    method Record(e: Event)
      requires e.grant < |grants|
      modifies this`grants, this`ledger
      ensures Entries() == Post(old(Entries()), e)
    {
      grants := grants[e.grant := grants[e.grant].Add(e.delta)];
      ledger := ledger + [e];
    }

    method AddGrant(g: Grant, key: EventKey, now: int)
      modifies this`grants, this`ledger
      ensures Entries() == OpenGrant(old(Entries()), g, key, now)
    {
      ledger := ledger + [Event(|grants|, GrantEvent, key, now, g.counters)];
      grants := grants + [g];
    }

    // -------------------------------------------------------------- renewal

    /** Expire, grant by grant, whatever is due; refuse an overspent grant. */
    method ExpireDue(now: int) returns (ok: bool)
      modifies this`grants, this`ledger
      ensures ok <==> forall g | g in old(grants) :: 0 <= g.counters.Available()
      ensures ok ==> Entries() == PostAll(old(Entries()), ExpireEvents(old(grants), now, |old(grants)|))
    {
      ghost var start, before := Entries(), grants;
      for i := 0 to |grants|
        invariant |grants| == |before|
        invariant forall k | i <= k < |before| :: grants[k] == before[k]
        invariant forall k | 0 <= k < i :: 0 <= before[k].counters.Available()
        invariant Entries() == PostAll(start, ExpireEvents(before, now, i))
      {
        hide PostAll, ExpireEvents;
        var g := grants[i];
        assert g in before;
        ExpireEventsNext(before, now, i);
        var available := g.counters.Available();
        if available < 0 {
          return false;
        }
        if g.ExpiredAt(now) && available != 0 {
          PostAllAppend(start, ExpireEvents(before, now, i), ExpireEventOf(i, g, now));
          Record(ExpireEventOf(i, g, now));
        } else {
          assert ExpireEvents(before, now, i) + [] == ExpireEvents(before, now, i);
        }
      }
      ok := true;
    }

    /** The next cycle and its base grant; a pending downgrade takes effect. */
    method Renew(b: CycleBounds, now: int, tag: nat) returns (r: Result<(nat, nat), CreditError>)
      requires account.Some?
      modifies this`account, this`cycles, this`grants, this`ledger
      ensures BroughtUpToDate(Renewed(old(Rows()), b, now, tag), r, Rows())
    {
      if account.value.pending.Some? {
        account := Some(account.value.(plan := account.value.pending.value, pending := None));
      }
      var plan := account.value.plan;
      if !Capacity(grants, PolicyOf(plan).allowance) {
        return Err(AmountOverflow);
      }
      var cycle, base := |cycles|, |grants|;
      cycles := cycles + [NewCycle(plan, b, now)];
      AddGrant(NewBase(cycle, plan, b, now, tag), CycleBase(b.index), now);
      r := Ok((cycle, base));
    }

    method EnsureRows(now: int, tag: nat) returns (r: Result<(nat, nat), CreditError>)
      modifies this`account, this`cycles, this`grants, this`ledger
      ensures BroughtUpToDate(EnsureCycle(old(Rows()), now, tag), r, Rows())
    {
      hide PostAll, ExpireEvents, SumOf, Latest, Bases, Coherent, BaseRow, BoundsAt, PolicyOf;
      ghost var s := Rows();
      if now < user.signedUpAt {
        return Err(InputInvalid);
      }
      var bounds := BoundsAt(user.signedUpAt, now);
      if bounds.Err? {
        return Err(InputInvalid);
      }
      var b := bounds.value;
      var cycle, base := 0, 0;
      var opening := account.None?;
      if opening {
        account := Some(Account(user.signedUpAt, if user.role.Master? then Max else Free, None, now, now));
        if cycles != [] || grants != [] {
          return Err(AccountInconsistent);
        }
      } else {
        if now < account.value.updatedAt {
          return Err(ClockRegressed);
        }
        if !Coherent(Rows()) {
          return Err(AccountInconsistent);
        }
        CoherentHasCycle(Rows());
        cycle, base := Latest(cycles), BaseRow(Rows());
        if b.index < cycles[cycle].index {
          return Err(ClockRegressed);
        }
      }
      var ok := ExpireDue(now);
      if !ok {
        return Err(AccountInconsistent);
      }
      account := Some(account.value.(updatedAt := now));
      if opening {
        NothingToExpire(s.book, now);
      }
      assert Rows() == Prepared(s, now);
      if opening || cycles[cycle].index < b.index {
        r := Renew(b, now, tag);
        if r.Err? {
          return;
        }
        cycle, base := r.value.0, r.value.1;
      }
      if !Capacity(grants, 0) {
        return Err(AmountOverflow);
      }
      r := Ok((cycle, base));
    }

    /** `ensure_cycle` under its own savepoint. */
    method Ensure(now: int, tag: nat) returns (r: Result<(nat, nat), CreditError>)
      modifies this
      ensures Rows() == Step(old(Rows()), CallEnsure(now, tag))
      ensures r.Ok? ==> BroughtUpToDate(EnsureCycle(old(Rows()), now, tag), r, Rows())
      ensures r.Err? ==> EnsureCycle(old(Rows()), now, tag) == Err(r.error)
      ensures r.Err? ==> Rows() == old(Rows())
      ensures Inv(old(Rows())) ==> Inv(Rows())
    {
      hide EnsureCycle, Inv;
      ghost var s := Rows();
      var savepoint := Rows();
      r := EnsureRows(now, tag);
      if r.Err? {
        Rollback(savepoint);
      }
      if Inv(s) {
        StepKeeps(s, CallEnsure(now, tag));
      }
    }

    // -------------------------------------------------------------- plan and bonus

    method Replayed(key: Key, payload: Payload) returns (r: Result<MutationReceipt, CreditError>)
      requires key in operations
      ensures r == Replay(Rows(), key, payload)
    {
      var operation := operations[key];
      if operation.payload != payload {
        return Err(IdempotencyConflict);
      }
      r := Ok(MutationReceipt(key, operation, true));
    }

    /** The plan change proper: upgrade now, downgrade later, or call a pending downgrade off. */
    method ApplyPlan(cycle: nat, base: nat, target: Plan, key: Key, now: int) returns (r: Result<MutationReceipt, CreditError>)
      requires Ready(Current(Rows(), cycle, base))
      modifies this
      ensures Does(PlanChanged(Current(old(Rows()), cycle, base), target, key, now), r, Rows())
    {
      hide PolicyOf, SumOf;
      var payload := PlanChange(target);
      var outcome, grant := Unchanged, None;
      if Rank(account.value.plan) < Rank(target) {
        var allowance := PolicyOf(target).allowance;
        var delta := allowance - cycles[cycle].allowance;
        if !Capacity(grants, delta) {
          return Err(AmountOverflow);
        }
        Record(Event(base, AdjustEvent, Command(key), now, Counters(delta, 0, 0, 0)));
        account := Some(account.value.(plan := target, pending := None));
        cycles := cycles[cycle := cycles[cycle].(plan := target, allowance := allowance)];
        outcome, grant := Upgraded, Some(base);
      } else if Rank(target) < Rank(account.value.plan) {
        outcome := if account.value.pending == Some(target) then Unchanged else Scheduled;
        account := Some(account.value.(pending := Some(target)));
      } else {
        outcome := if account.value.pending.Some? then Cancelled else Unchanged;
        account := Some(account.value.(pending := None));
      }
      var operation := Operation(payload, now, cycle, grant, outcome);
      operations := operations[key := operation];
      r := Ok(MutationReceipt(key, operation, false));
    }

    method PlanRows(target: Plan, key: Key, now: int, tag: nat) returns (r: Result<MutationReceipt, CreditError>)
      modifies this
      ensures Does(ChangePlan(old(Rows()), target, key, now, tag), r, Rows())
    {
      hide EnsureCycle, PlanChanged;
      if now < user.signedUpAt {
        return Err(InputInvalid);
      }
      if key in operations {
        r := Replayed(key, PlanChange(target));
        return;
      }
      if user.status.Suspended? || (user.role.Master? && target != Max) {
        return Err(PlanRefused);
      }
      var rows := EnsureRows(now, tag);
      if rows.Err? {
        return Err(rows.error);
      }
      var (cycle, base) := rows.value;
      r := ApplyPlan(cycle, base, target, key, now);
    }

    /** `change_plan` under its savepoint. */
    method SwitchPlan(target: Plan, key: Key, now: int, tag: nat) returns (r: Result<MutationReceipt, CreditError>)
      modifies this
      ensures Rows() == Step(old(Rows()), CallChangePlan(target, key, now, tag))
      ensures Does(ChangePlan(old(Rows()), target, key, now, tag), r, if r.Ok? then Rows() else old(Rows()))
      ensures r.Err? ==> Rows() == old(Rows())
      ensures Inv(old(Rows())) && !key.MasterCommand? ==> Inv(Rows())
    {
      hide ChangePlan, Inv;
      ghost var s := Rows();
      var savepoint := Rows();
      r := PlanRows(target, key, now, tag);
      if r.Err? {
        Rollback(savepoint);
      }
      if Inv(s) && !key.MasterCommand? {
        StepKeeps(s, CallChangePlan(target, key, now, tag));
      }
    }

    method BonusRows(amount: int, expiresAt: Option<int>, note: nat, key: Key, now: int, tag: nat, bonusTag: nat)
      returns (r: Result<MutationReceipt, CreditError>)
      modifies this
      ensures Does(GrantBonus(old(Rows()), amount, expiresAt, note, key, now, tag, bonusTag), r, Rows())
    {
      hide EnsureCycle, SumOf;
      if !(0 < amount <= MAX_BIGINT) || now < user.signedUpAt {
        return Err(InputInvalid);
      }
      var payload := BonusGrant(amount, expiresAt, note);
      if key in operations {
        r := Replayed(key, payload);
        return;
      }
      if user.status.Suspended? {
        return Err(PlanRefused);
      }
      if expiresAt.Some? && expiresAt.value <= now {
        return Err(InputInvalid);
      }
      var rows := EnsureRows(now, tag);
      if rows.Err? {
        return Err(rows.error);
      }
      if !Capacity(grants, amount) {
        return Err(AmountOverflow);
      }
      var operation := Operation(payload, now, rows.value.0, Some(|grants|), Granted);
      AddGrant(Grant(Bonus, bonusTag, now, expiresAt, Counters(amount, 0, 0, 0)), Command(key), now);
      operations := operations[key := operation];
      r := Ok(MutationReceipt(key, operation, false));
    }

    /** `grant_bonus` under its savepoint. */
    method AddBonus(amount: int, expiresAt: Option<int>, note: nat, key: Key, now: int, tag: nat, bonusTag: nat)
      returns (r: Result<MutationReceipt, CreditError>)
      modifies this
      ensures Rows() == Step(old(Rows()), CallGrantBonus(amount, expiresAt, note, key, now, tag, bonusTag))
      ensures Does(GrantBonus(old(Rows()), amount, expiresAt, note, key, now, tag, bonusTag), r, if r.Ok? then Rows() else old(Rows()))
      ensures r.Err? ==> Rows() == old(Rows())
      ensures Inv(old(Rows())) && !key.MasterCommand? ==> Inv(Rows())
    {
      hide GrantBonus, Inv;
      ghost var s := Rows();
      var savepoint := Rows();
      r := BonusRows(amount, expiresAt, note, key, now, tag, bonusTag);
      if r.Err? {
        Rollback(savepoint);
      }
      if Inv(s) && !key.MasterCommand? {
        StepKeeps(s, CallGrantBonus(amount, expiresAt, note, key, now, tag, bonusTag));
      }
    }

    // -------------------------------------------------------------- holds

    /** Set the allocated credit aside, grant by grant. */
    method SetAside(allocations: seq<Allocation>, rid: nat, now: int)
      requires forall a | a in allocations :: a.grant < |grants|
      modifies this`grants, this`ledger
      ensures Entries() == PostAll(old(Entries()), HoldEvents(allocations, rid, now))
    {
      ghost var start := Entries();
      assert allocations[..0] == [] && allocations[..|allocations|] == allocations;
      assert HoldEvents([], rid, now) == [] && PostAll(start, []) == start;
      hide PostAll, HoldEvents, Grant.Add;
      for i := 0 to |allocations|
        invariant |grants| == |start.grants|
        invariant Posts(HoldEvents(allocations[..i], rid, now), start.grants)
        invariant Entries() == PostAll(start, HoldEvents(allocations[..i], rid, now))
      {
        var a := allocations[i];
        assert a in allocations;
        HoldEventsNext(allocations, i, rid, now);
        PostAllAppend(start, HoldEvents(allocations[..i], rid, now), HoldEventOf(a, rid, now));
        Record(HoldEventOf(a, rid, now));
      }
    }

    method AdmitRows(key: Key, es: seq<Estimate>, now: int, scan: Scan) returns (r: Result<ReservationReceipt, CreditError>)
      requires account.Some?
      modifies this`reservations, this`grants, this`ledger
      ensures Does(Admit(old(Rows()), key, es, now, scan), r, Rows())
    {
      hide ScanFault, Quotes, SumOf, Priority, Allocate, PostAll, HoldEvents, PolicyOf;
      var policy := PolicyOf(account.value.plan);
      if exists e | e in es :: e.meter in policy.refused {
        return Err(PlanRefused);
      }
      if HeldCount(reservations) >= policy.maxConcurrentRequests {
        return Err(UserConcurrencyLimit);
      }
      var coherent := LedgerCoherent(scan(ledger), grants);
      if coherent.Fail? {
        return Err(coherent.error);
      }
      var items := QuoteAll(es);
      if items.Err? {
        return Err(items.error);
      }
      var total := SumOf(items.value, QuotedOf);
      if total > MAX_BIGINT {
        return Err(AmountOverflow);
      }
      if total <= 0 {
        return Err(InputInvalid);
      }
      var remaining, allocations := AllocateGreedily(grants, total);
      if remaining != 0 {
        return Err(MonthlyCreditExhausted);
      }
      AllocationRows(grants, total);
      var rid := |reservations|;
      reservations := reservations + [Reservation(key, total, now, items.value, allocations, None)];
      SetAside(allocations, rid, now);
      r := Ok(ReservationReceipt(rid, key, total, false));
    }

    method ReserveRows(key: Key, raw: seq<Estimate>, now: int, tag: nat, scan: Scan) returns (r: Result<ReservationReceipt, CreditError>)
      modifies this
      ensures Does(Reserve(old(Rows()), key, raw, now, tag, scan), r, Rows())
    {
      hide EnsureCycle, Admit, Sort, ValidEstimates;
      var estimates := NormalizedEstimates(raw);
      if estimates.None? {
        return Err(InputInvalid);
      }
      var es := estimates.value;
      var existing := FindReserved(reservations, key);
      if existing.Some? {
        var row := reservations[existing.value];
        if !SameEstimates(row.items, es) {
          return Err(IdempotencyConflict);
        }
        return Ok(ReservationReceipt(existing.value, row.key, row.total, true));
      }
      if now < user.signedUpAt {
        return Err(InputInvalid);
      }
      if user.status.Suspended? {
        return Err(PlanRefused);
      }
      var rows := EnsureRows(now, tag);
      if rows.Err? {
        return Err(MappedError(rows.error));
      }
      r := AdmitRows(key, es, now, scan);
    }

    /** `reserve` under its savepoint. */
    method MakeReservation(key: Key, raw: seq<Estimate>, now: int, tag: nat, scan: Scan) returns (r: Result<ReservationReceipt, CreditError>)
      modifies this
      ensures Rows() == Step(old(Rows()), CallReserve(key, raw, now, tag, scan))
      ensures Does(Reserve(old(Rows()), key, raw, now, tag, scan), r, if r.Ok? then Rows() else old(Rows()))
      ensures r.Err? ==> Rows() == old(Rows())
      ensures Inv(old(Rows())) ==> Inv(Rows())
    {
      hide Reserve, Inv;
      ghost var s := Rows();
      var savepoint := Rows();
      r := ReserveRows(key, raw, now, tag, scan);
      if r.Err? {
        Rollback(savepoint);
      }
      if Inv(s) {
        StepKeeps(s, CallReserve(key, raw, now, tag, scan));
      }
    }

    // -------------------------------------------------------------- settlement and release

    /** Hand one allocation back to its grant. */
    method DischargeOne(a: Allocation, spent: int, rid: nat, now: int, charge: bool) returns (fault: Check<CreditError>)
      requires a.grant < |grants|
      modifies this`grants, this`ledger
      ensures var p := old(Entries());
              var q := Post(p, TerminalEventOf(a, spent, p.grants[a.grant].ExpiredAt(now), rid, now, charge));
              if p.grants[a.grant].counters.reserved < a.amount then fault == Fail(AccountInconsistent)
              else
                && |grants| == |p.grants| && Entries() == q
                && fault == Need(q.grants[a.grant].counters.consumed <= MAX_BIGINT && q.grants[a.grant].counters.expired <= MAX_BIGINT,
                                 AmountOverflow)
    {
      var g := grants[a.grant];
      if g.counters.reserved < a.amount {
        return Fail(AccountInconsistent);
      }
      Record(TerminalEventOf(a, spent, g.ExpiredAt(now), rid, now, charge));
      var after := grants[a.grant].counters;
      fault := if after.consumed > MAX_BIGINT || after.expired > MAX_BIGINT then Fail(AmountOverflow) else Pass;
    }

    /** Hand every allocation back to its grant, spending `consumed` along the way; unused credit of an expired grant expires. */
    method DischargeRows(allocations: seq<Allocation>, consumed: int, rid: nat, now: int, charge: bool)
      returns (r: Result<int, CreditError>)
      requires forall a | a in allocations :: a.grant < |grants|
      modifies this`grants, this`ledger
      ensures match Discharge(old(Entries()), allocations, consumed, rid, now, charge, |allocations|)
              case Ok(b) => r == Ok(Remaining(allocations, consumed, |allocations|)) && Entries() == b
              case Err(error) => r == Err(error)
    {
      hide Discharge, Remaining, Post, TerminalEventOf;
      ghost var start := Entries();
      DischargeNone(start, allocations, consumed, rid, now, charge);
      var remaining := consumed;
      for i := 0 to |allocations|
        invariant |grants| == |start.grants|
        invariant Discharge(start, allocations, consumed, rid, now, charge, i) == Ok(Entries())
        invariant remaining == Remaining(allocations, consumed, i)
      {
        DischargeNext(start, allocations, consumed, rid, now, charge, i);
        var a := allocations[i];
        assert a in allocations;
        var spent := Min(a.amount, remaining);
        remaining := remaining - spent;
        var fault := DischargeOne(a, spent, rid, now, charge);
        if fault.Fail? {
          DischargeErrorPersists(start, allocations, consumed, rid, now, charge, i + 1, |allocations|);
          return Err(fault.error);
        }
      }
      r := Ok(remaining);
    }

    /** Price the reported lines against the reservation, with the refusals in their order. */
    method PricedRecords(row: Reservation, lines: seq<UsageLine>, charge: bool)
      returns (r: Result<(seq<UsageRecord>, int), CreditError>)
      ensures r == Priced(row, lines, charge)
    {
      hide Charges, SumOf, FindItem;
      if exists l | l in lines :: FindItem(row.items, l.meter).None? {
        return Err(UsageExceedsReservation);
      }
      var records := ChargeAll(lines, row.items, charge);
      if records.Err? {
        return Err(records.error);
      }
      var consumed := SumOf(records.value, ChargedOf);
      if consumed > MAX_BIGINT {
        return Err(AmountOverflow);
      }
      if charge && consumed <= 0 {
        return Err(InputInvalid);
      }
      if consumed > row.total {
        return Err(UsageExceedsReservation);
      }
      r := Ok((records.value, consumed));
    }

    /** Price, discharge, and stamp a reservation that passed the guards. */
    method CloseHeld(rid: nat, lines: seq<UsageLine>, delivery: Delivery, reason: Reason, key: Key, now: int, charge: bool)
      returns (r: Result<TerminalReceipt, CreditError>)
      requires rid < |reservations| && forall a | a in reservations[rid].allocations :: a.grant < |grants|
      modifies this`reservations, this`grants, this`ledger
      ensures Does(ClosePriced(old(Rows()), rid, lines, delivery, reason, key, now, charge), r, Rows())
    {
      hide Priced, Discharge, Remaining, TerminalReceiptOf;
      var row := reservations[rid];
      var priced := PricedRecords(row, lines, charge);
      if priced.Err? {
        return Err(priced.error);
      }
      var (records, consumed) := priced.value;
      var remaining := DischargeRows(row.allocations, consumed, rid, now, charge);
      if remaining.Err? {
        return Err(remaining.error);
      }
      if remaining.value != 0 {
        return Err(AccountInconsistent);
      }
      var closed := row.(terminal := Some(Terminal(charge, key, now, reason, delivery, records)));
      reservations := reservations[rid := closed];
      r := TerminalReceiptOf(closed, rid, false);
    }

    method CloseRows(rid: nat, lines: seq<UsageLine>, delivery: Delivery, reason: Reason, key: Key, now: int, charge: bool)
      returns (r: Result<TerminalReceipt, CreditError>)
      requires account.Some?
      modifies this`reservations, this`grants, this`ledger
      ensures Does(Close(old(Rows()), rid, lines, delivery, reason, key, now, charge), r, Rows())
    {
      hide Charges, Discharge, Remaining, SumOf, TerminalReceiptOf, FindItem, ReservationCoherent, Counters.Balanced;
      if now < account.value.updatedAt {
        return Err(AccountInconsistent);
      }
      if rid >= |reservations| {
        return Err(ReservationMissing);
      }
      var row := reservations[rid];
      if !ReservationCoherent(row, |grants|) {
        return Err(AccountInconsistent);
      }
      CoherentRows(row, |grants|);
      if !row.Held() {
        return Err(ReservationStateConflict);
      }
      if now < row.createdAt {
        return Err(InputInvalid);
      }
      CloseByParts(Rows(), rid, lines, delivery, reason, key, now, charge);
      hide Close, ClosePriced;
      r := CloseHeld(rid, lines, delivery, reason, key, now, charge);
    }

    method TerminalRows(rid: nat, lines: seq<UsageLine>, delivery: Delivery, reason: Reason, key: Key, now: int, charge: bool, scan: Scan)
      returns (r: Result<TerminalReceipt, CreditError>)
      modifies this`reservations, this`grants, this`ledger
      ensures Does(Terminate(old(Rows()), rid, lines, delivery, reason, key, now, charge, scan), r, Rows())
    {
      hide LedgerCheck, FindTerminal, Close, TerminalReceiptOf, SameLines, ReservationCoherent;
      if account.None? || cycles == [] {
        return Err(AccountInconsistent);
      }
      var coherent := LedgerCoherent(scan(ledger), grants);
      if coherent.Fail? {
        return Err(coherent.error);
      }
      var replay := FindTerminal(reservations, key);
      if replay.Some? {
        var row := reservations[replay.value];
        var stored := row.terminal.value;
        if !ReservationCoherent(row, |grants|) {
          return Err(AccountInconsistent);
        }
        if replay.value != rid || stored.settled != charge || stored.delivery != delivery || stored.reason != reason
           || !SameLines(stored.records, lines) {
          return Err(IdempotencyConflict);
        }
        r := TerminalReceiptOf(row, rid, true);
        return;
      }
      r := CloseRows(rid, lines, delivery, reason, key, now, charge);
    }

    /** `settle` under its savepoint. */
    method SettleReservation(rid: nat, usage: seq<UsageLine>, delivery: Delivery, key: Key, now: int, scan: Scan)
      returns (r: Result<TerminalReceipt, CreditError>)
      modifies this
      ensures Rows() == Step(old(Rows()), CallSettle(rid, usage, delivery, key, now, scan))
      ensures Does(Settle(old(Rows()), rid, usage, delivery, key, now, scan), r, if r.Ok? then Rows() else old(Rows()))
      ensures r.Err? ==> Rows() == old(Rows())
      ensures Inv(old(Rows())) ==> Inv(Rows())
    {
      hide Terminate, Inv, Sort, ValidLines;
      ghost var s := Rows();
      var lines := NormalizedUsage(usage, false);
      if lines.None? || delivery.NoDeliverable? {
        return Err(InputInvalid);
      }
      var savepoint := Rows();
      r := TerminalRows(rid, lines.value, delivery, UsageSettled, key, now, true, scan);
      if r.Err? {
        Rollback(savepoint);
      }
      if Inv(s) {
        StepKeeps(s, CallSettle(rid, usage, delivery, key, now, scan));
      }
    }

    /** `release` under its savepoint. */
    method ReleaseReservation(rid: nat, usage: seq<UsageLine>, reason: Reason, key: Key, now: int, scan: Scan)
      returns (r: Result<TerminalReceipt, CreditError>)
      modifies this
      ensures Rows() == Step(old(Rows()), CallRelease(rid, usage, reason, key, now, scan))
      ensures Does(Release(old(Rows()), rid, usage, reason, key, now, scan), r, if r.Ok? then Rows() else old(Rows()))
      ensures r.Err? ==> Rows() == old(Rows())
      ensures Inv(old(Rows())) ==> Inv(Rows())
    {
      hide Terminate, Inv, Sort, ValidLines;
      ghost var s := Rows();
      var lines := NormalizedUsage(usage, true);
      if lines.None? || reason.UsageSettled? {
        return Err(InputInvalid);
      }
      var savepoint := Rows();
      r := TerminalRows(rid, lines.value, NoDeliverable, reason, key, now, false, scan);
      if r.Err? {
        Rollback(savepoint);
      }
      if Inv(s) {
        StepKeeps(s, CallRelease(rid, usage, reason, key, now, scan));
      }
    }

    // -------------------------------------------------------------- administration

    method AdministerRows(request: nat, actor: nat, action: AdminAction, note: nat, now: int, tag: nat) returns (r: Check<AdminError>)
      modifies this
      ensures match Administer(old(Rows()), request, actor, action, note, now, tag)
              case Ok(t) => r.Pass? && Rows() == t
              case Err(error) => r == Fail(error)
    {
      hide EnsureCycle, ChangePlan, GrantBonus;
      if !ValidAction(action) {
        return Fail(MasterInputInvalid);
      }
      if request in audits {
        return if audits[request] == Audit(actor, action, note) then Pass else Fail(MasterConflict);
      }
      if user.status.Suspended? || now < user.signedUpAt {
        return Fail(MasterConflict);
      }
      var rows := EnsureRows(now, tag);
      if rows.Err? {
        return Fail(Mapped(rows.error));
      }
      var key := MasterCommand(request);
      var receipt;
      match action {
        case Promote => receipt := PlanRows(Max, key, now, tag);
        case AdminPlan(target) => receipt := PlanRows(target, key, now, tag);
        case AdminBonus(amount, expiresAt) => receipt := BonusRows(amount, expiresAt, note, key, now, tag, tag);
      }
      if receipt.Err? {
        return Fail(Mapped(receipt.error));
      }
      if action.Promote? {
        user := user.(role := Master);
      }
      audits := audits[request := Audit(actor, action, note)];
      r := Pass;
    }

    /** `administer`, credit actions, under its savepoint. */
    method Execute(request: nat, actor: nat, action: AdminAction, note: nat, now: int, tag: nat) returns (r: Check<AdminError>)
      modifies this
      ensures Rows() == Step(old(Rows()), CallAdminister(request, actor, action, note, now, tag))
      ensures r.Pass? <==> Administer(old(Rows()), request, actor, action, note, now, tag).Ok?
      ensures r.Fail? ==> Administer(old(Rows()), request, actor, action, note, now, tag) == Err(r.error)
      ensures r.Fail? ==> Rows() == old(Rows())
      ensures Inv(old(Rows())) ==> Inv(Rows())
    {
      hide Administer, Inv;
      ghost var s := Rows();
      var savepoint := Rows();
      r := AdministerRows(request, actor, action, note, now, tag);
      if r.Fail? {
        Rollback(savepoint);
      }
      if Inv(s) {
        StepKeeps(s, CallAdminister(request, actor, action, note, now, tag));
      }
    }
  }

  lemma DischargeNone(b: Book, allocations: seq<Allocation>, consumed: int, rid: nat, now: int, charge: bool)
    requires forall a | a in allocations :: a.grant < |b.grants|
    ensures Discharge(b, allocations, consumed, rid, now, charge, 0) == Ok(b) && Remaining(allocations, consumed, 0) == consumed
  {
  }

  lemma DischargeNext(b: Book, allocations: seq<Allocation>, consumed: int, rid: nat, now: int, charge: bool, i: nat)
    requires i < |allocations| && forall a | a in allocations :: a.grant < |b.grants|
    requires Discharge(b, allocations, consumed, rid, now, charge, i).Ok?
    ensures var p := Discharge(b, allocations, consumed, rid, now, charge, i).value;
            var a := allocations[i];
            assert a in allocations;
            var g := p.grants[a.grant];
            var q := Post(p, TerminalEventOf(a, SpentAt(allocations, consumed, i), g.ExpiredAt(now), rid, now, charge));
            Discharge(b, allocations, consumed, rid, now, charge, i + 1)
            == if g.counters.reserved < a.amount then Err(AccountInconsistent)
               else if q.grants[a.grant].counters.consumed <= MAX_BIGINT && q.grants[a.grant].counters.expired <= MAX_BIGINT then Ok(q)
               else Err(AmountOverflow)
    ensures Remaining(allocations, consumed, i + 1) == Remaining(allocations, consumed, i) - SpentAt(allocations, consumed, i)
  {
    hide Post, TerminalEventOf, Grant.ExpiredAt, Remaining;
    assert Remaining(allocations, consumed, i + 1) == Remaining(allocations, consumed, i) - SpentAt(allocations, consumed, i) by {
      RemainingNext(allocations, consumed, i);
    }
  }

  lemma RemainingNext(allocations: seq<Allocation>, consumed: int, i: nat)
    requires i < |allocations|
    ensures Remaining(allocations, consumed, i + 1) == Remaining(allocations, consumed, i) - SpentAt(allocations, consumed, i)
  {
  }

  /** Closing a held reservation that passed its guards: price, discharge, stamp. */
  function ClosePriced(s: State, rid: nat, lines: seq<UsageLine>, delivery: Delivery, reason: Reason, key: Key, now: int, charge: bool)
    : Result<(State, TerminalReceipt), CreditError>
    requires rid < |s.reservations| && forall a | a in s.reservations[rid].allocations :: a.grant < |s.book.grants|
  {
    var r := s.reservations[rid];
    var priced :- Priced(r, lines, charge);
    var book :- Discharge(s.book, r.allocations, priced.1, rid, now, charge, |r.allocations|);
    :- Need(Remaining(r.allocations, priced.1, |r.allocations|) == 0, AccountInconsistent);
    var closed := r.(terminal := Some(Terminal(charge, key, now, reason, delivery, priced.0)));
    var receipt :- TerminalReceiptOf(closed, rid, false);
    Ok((s.(reservations := s.reservations[rid := closed], book := book), receipt))
  }

  lemma CloseByParts(s: State, rid: nat, lines: seq<UsageLine>, delivery: Delivery, reason: Reason, key: Key, now: int, charge: bool)
    requires s.account.Some? && s.account.value.updatedAt <= now && rid < |s.reservations|
    requires ReservationCoherent(s.reservations[rid], |s.book.grants|)
    requires s.reservations[rid].Held() && s.reservations[rid].createdAt <= now
    ensures Close(s, rid, lines, delivery, reason, key, now, charge) == ClosePriced(s, rid, lines, delivery, reason, key, now, charge)
  {
    hide Charges, Discharge, Remaining, SumOf, FindItem, QuoteUsage, TerminalReceiptOf;
  }

  lemma NothingToExpire(b: Book, now: int)
    requires b.grants == []
    ensures PostAll(b, ExpireEvents(b.grants, now, |b.grants|)) == b
  {
  }

  lemma CoherentHasCycle(s: State)
    requires s.account.Some? && Coherent(s)
    ensures s.cycles != []
  {
  }

  lemma CoherentRows(r: Reservation, grants: nat)
    requires ReservationCoherent(r, grants)
    ensures forall a | a in r.allocations :: a.grant < grants
  {
  }

  lemma AllocationRows(grants: seq<Grant>, total: int)
    requires 0 < total && forall c | c in Priority(grants) :: 0 <= c.grant.counters.Available()
    ensures forall a | a in Allocate(Priority(grants), total) :: a.grant < |grants|
  {
    PriorityRows(grants);
    AllocateRows(Priority(grants), total, |grants|);
  }
}
