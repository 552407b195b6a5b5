/**
 * When the ledger comparison cannot refuse: while every call comes later than
 * everything recorded, and, with clocks that only never go back, for a reader
 * that keeps events of one instant in the order in which they were written.
 */
module PunctualRuns {
  import opened Prelude
  import opened Sorting
  import opened CreditPolicy
  import opened CreditRecords
  import opened CreditLifecycle
  import opened CreditAccounting
  import opened CreditInvariant
  import opened LedgerOrder
  import opened LifecycleInvariant
  import opened AccountingInvariant
  import opened SettlementInvariant
  import opened TerminalCalls
  import opened MasterAdmin
  import opened CreditHistory

  /** Which way a call moves reserved credit. */
  datatype Way = Neither | Up | Down

  predicate Goes(e: Event, way: Way) {
    match way
    case Neither => e.delta.reserved == 0
    case Up => 0 <= e.delta.reserved
    case Down => e.delta.reserved <= 0
  }

  /** New events, all of one instant and one way. */
  ghost predicate Grows(l: seq<Event>, m: seq<Event>, now: int, way: Way) {
    && |l| <= |m| && m[..|l|] == l
    && forall i | |l| <= i < |m| :: m[i].createdAt == now && Goes(m[i], way)
  }

  lemma GrowsBy(l: seq<Event>, es: seq<Event>, now: int, way: Way)
    requires forall e | e in es :: e.createdAt == now && Goes(e, way)
    ensures Grows(l, l + es, now, way)
  {
    hide Goes;
    assert forall i | |l| <= i < |l + es| :: (l + es)[i] == es[i - |l|];
  }

  lemma GrowsOn(l: seq<Event>, m: seq<Event>, k: seq<Event>, now: int, way: Way)
    requires Grows(l, m, now, Neither) && Grows(m, k, now, way)
    ensures Grows(l, k, now, way)
  {
    assert k[..|l|] == m[..|l|];
    forall i | |l| <= i < |k|
      ensures k[i].createdAt == now && Goes(k[i], way)
    {
      if i < |m| {
        assert k[i] == k[..|m|][i];
      }
    }
  }

  lemma {:induction false} ExpiryNeutral(grants: seq<Grant>, now: int, n: nat)
    requires n <= |grants|
    ensures forall e | e in ExpireEvents(grants, now, n) :: e.createdAt == now && Goes(e, Neither)
  {
    if n > 0 {
      ExpiryNeutral(grants, now, n - 1);
    }
  }

  lemma PreparedGrows(s: State, now: int)
    ensures Grows(s.book.ledger, Prepared(s, now).book.ledger, now, Neither)
  {
    if s.account.Some? {
      AgedBook(s, now);
      ExpiryNeutral(s.book.grants, now, |s.book.grants|);
      GrowsBy(s.book.ledger, ExpireEvents(s.book.grants, now, |s.book.grants|), now, Neither);
    } else {
      assert s.book.ledger + [] == s.book.ledger;
      GrowsBy(s.book.ledger, [], now, Neither);
    }
  }

  lemma EnsureGrows(s: State, now: int, tag: nat)
    requires EnsureCycle(s, now, tag).Ok?
    ensures Grows(s.book.ledger, EnsureCycle(s, now, tag).value.state.book.ledger, now, Neither)
  {
    hide Grows, BoundsAt, PostAll, ExpireEvents, Bases, Latest, SumOf, EnsureGuard, Coherent, BaseRow;
    var b := BoundsAt(s.user.signedUpAt, now).value;
    var p := Prepared(s, now);
    PreparedGrows(s, now);
    if NeedsCycle(s, b) {
      var base := NewBase(|p.cycles|, NextPlan(p.account.value), b, now, tag);
      GrowsBy(p.book.ledger, [Event(|p.book.grants|, GrantEvent, CycleBase(b.index), now, base.counters)], now, Neither);
      GrowsOn(s.book.ledger, p.book.ledger, OpenGrant(p.book, base, CycleBase(b.index), now).ledger, now, Neither);
    }
  }

  lemma ChangePlanGrows(s: State, target: Plan, key: Key, now: int, tag: nat)
    requires ChangePlan(s, target, key, now, tag).Ok?
    ensures Grows(s.book.ledger, ChangePlan(s, target, key, now, tag).value.0.book.ledger, now, Neither)
  {
    hide Grows, EnsureCycle, PolicyOf, Capacity;
    GrowsBy(s.book.ledger, [], now, Neither);
    assert s.book.ledger + [] == s.book.ledger;
    if key !in s.operations {
      EnsureGrows(s, now, tag);
      var e := EnsureCycle(s, now, tag).value;
      var t := ChangePlan(s, target, key, now, tag).value.0;
      if t.book != e.state.book {
        var adjust := t.book.ledger[|e.state.book.ledger|];
        assert t.book.ledger == e.state.book.ledger + [adjust];
        GrowsBy(e.state.book.ledger, [adjust], now, Neither);
        GrowsOn(s.book.ledger, e.state.book.ledger, t.book.ledger, now, Neither);
      }
    }
  }

  lemma GrantBonusGrows(s: State, amount: int, expiresAt: Option<int>, note: nat, key: Key, now: int, tag: nat, bonusTag: nat)
    requires GrantBonus(s, amount, expiresAt, note, key, now, tag, bonusTag).Ok?
    ensures Grows(s.book.ledger, GrantBonus(s, amount, expiresAt, note, key, now, tag, bonusTag).value.0.book.ledger, now, Neither)
  {
    hide Grows, EnsureCycle, Capacity;
    GrowsBy(s.book.ledger, [], now, Neither);
    assert s.book.ledger + [] == s.book.ledger;
    if key !in s.operations {
      EnsureGrows(s, now, tag);
      var e := EnsureCycle(s, now, tag).value;
      var t := GrantBonus(s, amount, expiresAt, note, key, now, tag, bonusTag).value.0;
      var granted := Event(|e.state.book.grants|, GrantEvent, Command(key), now, Counters(amount, 0, 0, 0));
      GrowsBy(e.state.book.ledger, [granted], now, Neither);
      GrowsOn(s.book.ledger, e.state.book.ledger, t.book.ledger, now, Neither);
    }
  }

  lemma AdministerGrows(s: State, request: nat, actor: nat, action: AdminAction, reason: nat, now: int, tag: nat)
    requires Administer(s, request, actor, action, reason, now, tag).Ok?
    ensures Grows(s.book.ledger, Administer(s, request, actor, action, reason, now, tag).value.book.ledger, now, Neither)
  {
    hide Grows, EnsureCycle, ChangePlan, GrantBonus;
    GrowsBy(s.book.ledger, [], now, Neither);
    assert s.book.ledger + [] == s.book.ledger;
    if request !in s.audits {
      EnsureGrows(s, now, tag);
      var e := EnsureCycle(s, now, tag).value.state;
      match action {
        case Promote => ChangePlanGrows(e, Max, MasterCommand(request), now, tag);
        case AdminPlan(target) => ChangePlanGrows(e, target, MasterCommand(request), now, tag);
        case AdminBonus(amount, expiresAt) => GrantBonusGrows(e, amount, expiresAt, reason, MasterCommand(request), now, tag, tag);
      }
      GrowsOn(s.book.ledger, e.book.ledger, Act(e, request, action, reason, now, tag).value.0.book.ledger, now, Neither);
    }
  }

  lemma HoldGrows(s: State, key: Key, items: seq<Item>, allocations: seq<Allocation>, now: int)
    requires forall a | a in allocations :: a.grant < |s.book.grants| && 0 < a.amount
    ensures Grows(s.book.ledger, Hold(s, key, items, allocations, now).book.ledger, now, Up)
  {
    hide Grows, SumOf;
    var holds := HoldEvents(allocations, |s.reservations|, now);
    PostAllEffect(s.book, holds);
    forall e | e in holds
      ensures e.createdAt == now && Goes(e, Up)
    {
      var i :| 0 <= i < |holds| && holds[i] == e;
      assert allocations[i] in allocations;
    }
    GrowsBy(s.book.ledger, holds, now, Up);
  }

  lemma AdmitGrows(s: State, key: Key, es: seq<Estimate>, now: int, scan: Scan)
    requires s.account.Some? && Admit(s, key, es, now, scan).Ok?
    ensures Grows(s.book.ledger, Admit(s, key, es, now, scan).value.0.book.ledger, now, Up)
  {
    hide Grows, ScanFault, Quotes, SumOf, Priority, PolicyOf, HoldEvents, PostAll;
    var total := SumOf(Quotes(es).value, QuotedOf);
    assert forall g | 0 <= g < |s.book.grants| :: Storable(s.book.grants[g].counters);
    PriorityRows(s.book.grants);
    var allocations := Allocate(Priority(s.book.grants), total);
    AllocateRows(Priority(s.book.grants), total, |s.book.grants|);
    hide Allocate;
    HoldGrows(s, key, Quotes(es).value, allocations, now);
  }

  lemma ReserveGrows(s: State, key: Key, raw: seq<Estimate>, now: int, tag: nat, scan: Scan)
    requires Reserve(s, key, raw, now, tag, scan).Ok?
    ensures Grows(s.book.ledger, Reserve(s, key, raw, now, tag, scan).value.0.book.ledger, now, Up)
  {
    hide Grows, EnsureCycle, Admit, ValidEstimates, Sort;
    GrowsBy(s.book.ledger, [], now, Up);
    assert s.book.ledger + [] == s.book.ledger;
    if FindReserved(s.reservations, key).None? {
      EnsureGrows(s, now, tag);
      var e := EnsureCycle(s, now, tag).value.state;
      AdmitGrows(e, key, Sort(raw, EstimateLeq), now, scan);
      GrowsOn(s.book.ledger, e.book.ledger, Admit(e, key, Sort(raw, EstimateLeq), now, scan).value.0.book.ledger, now, Up);
    }
  }

  lemma CloseGrows(s: State, rid: nat, lines: seq<UsageLine>, delivery: Delivery, reason: Reason, key: Key, now: int, charge: bool)
    requires Core(s) && s.account.Some? && ValidLines(lines, true)
    requires (charge <==> !delivery.NoDeliverable?) && (charge <==> reason.UsageSettled?)
    requires FindTerminal(s.reservations, key).None? && Close(s, rid, lines, delivery, reason, key, now, charge).Ok?
    ensures Grows(s.book.ledger, Close(s, rid, lines, delivery, reason, key, now, charge).value.0.book.ledger, now, Down)
  {
    hide Core, Grows, PostAll;
    CloseTotal(s, rid, lines, delivery, reason, key, now, charge);
    CloseEffect(s, rid, lines, delivery, reason, key, now, charge);
    RowOk(s, rid);
    hide Close, Charges, SumOf, LedgerOk;
    var r := s.reservations[rid];
    var consumed := SumOf(Closing(lines, r.items, delivery, reason, key, now, charge).records, ChargedOf);
    var es := TerminalEvents(s.book.grants, r.allocations, consumed, rid, now, charge, |r.allocations|);
    forall e | e in es
      ensures e.createdAt == now && Goes(e, Down) && e.grant < |s.book.grants|
    {
      var i :| 0 <= i < |es| && es[i] == e;
      assert r.allocations[i] in r.allocations;
    }
    PostAllEffect(s.book, es);
    GrowsBy(s.book.ledger, es, now, Down);
  }

  lemma TerminateGrows(s: State, rid: nat, lines: seq<UsageLine>, delivery: Delivery, reason: Reason, key: Key, now: int, charge: bool, scan: Scan)
    requires Core(s) && ValidLines(lines, true)
    requires (charge <==> !delivery.NoDeliverable?) && (charge <==> reason.UsageSettled?)
    requires Terminate(s, rid, lines, delivery, reason, key, now, charge, scan).Ok?
    ensures Grows(s.book.ledger, Terminate(s, rid, lines, delivery, reason, key, now, charge, scan).value.0.book.ledger, now, Down)
  {
    hide Core, Grows, Close, LedgerCheck, ReservationCoherent, SameLines, TerminalReceiptOf, ValidLines;
    GrowsBy(s.book.ledger, [], now, Down);
    assert s.book.ledger + [] == s.book.ledger;
    if FindTerminal(s.reservations, key).None? {
      CloseGrows(s, rid, lines, delivery, reason, key, now, charge);
    }
  }

  // ---------------------------------------------------------------- calls on time

  function ClockOf(c: Call): Option<int> {
    match c
    case CallSetStatus(_) => None
    case CallEnsure(now, _) => Some(now)
    case CallChangePlan(_, _, now, _) => Some(now)
    case CallGrantBonus(_, _, _, _, now, _, _) => Some(now)
    case CallAdminister(_, _, _, _, now, _) => Some(now)
    case CallReserve(_, _, now, _, _) => Some(now)
    case CallSettle(_, _, _, _, now, _) => Some(now)
    case CallRelease(_, _, _, _, now, _) => Some(now)
  }

  function WayOf(c: Call): Way {
    if c.CallReserve? then Up else if c.CallSettle? || c.CallRelease? then Down else Neither
  }

  /** The call comes later than everything recorded. */
  ghost predicate Punctual(s: State, c: Call) {
    ClockOf(c).Some? ==> forall e | e in s.book.ledger :: e.createdAt < ClockOf(c).value
  }

  lemma StepGrows(s: State, c: Call)
    requires Inv(s) && Allowed(c)
    ensures if ClockOf(c).None? then Step(s, c).book == s.book
            else Grows(s.book.ledger, Step(s, c).book.ledger, ClockOf(c).value, WayOf(c))
  {
    hide Core, Started, EnsureCycle, ChangePlan, GrantBonus, Administer, Reserve, Terminate, ValidLines, Grows;
    if ClockOf(c).Some? {
      GrowsBy(s.book.ledger, [], ClockOf(c).value, WayOf(c));
      assert s.book.ledger + [] == s.book.ledger;
    }
    match c
    case CallEnsure(now, tag) =>
      if EnsureCycle(s, now, tag).Ok? { EnsureGrows(s, now, tag); }
    case CallChangePlan(target, key, now, tag) =>
      if ChangePlan(s, target, key, now, tag).Ok? { ChangePlanGrows(s, target, key, now, tag); }
    case CallGrantBonus(amount, expiresAt, reason, key, now, tag, bonusTag) =>
      if GrantBonus(s, amount, expiresAt, reason, key, now, tag, bonusTag).Ok? {
        GrantBonusGrows(s, amount, expiresAt, reason, key, now, tag, bonusTag);
      }
    case CallAdminister(request, actor, action, reason, now, tag) =>
      if Administer(s, request, actor, action, reason, now, tag).Ok? { AdministerGrows(s, request, actor, action, reason, now, tag); }
    case CallSetStatus(status) =>
    case CallReserve(key, estimates, now, tag, scan) =>
      if Reserve(s, key, estimates, now, tag, scan).Ok? { ReserveGrows(s, key, estimates, now, tag, scan); }
    case CallSettle(rid, usage, delivery, key, now, scan) =>
      if Settle(s, rid, usage, delivery, key, now, scan).Ok? {
        SortedLines(usage, false);
        LinesAllowed(usage);
        TerminateGrows(s, rid, Sort(usage, LineLeq), delivery, UsageSettled, key, now, true, scan);
      }
    case CallRelease(rid, usage, reason, key, now, scan) =>
      if Release(s, rid, usage, reason, key, now, scan).Ok? {
        SortedLines(usage, true);
        TerminateGrows(s, rid, Sort(usage, LineLeq), NoDeliverable, reason, key, now, false, scan);
      }
  }

  lemma LinesAllowed(usage: seq<UsageLine>)
    requires ValidLines(Sort(usage, LineLeq), false)
    ensures ValidLines(Sort(usage, LineLeq), true)
  {
    hide Sort;
  }

  /** What the ledger says is reserved on a grant is what the grant holds, or nothing for a grant that is not there yet. */
  lemma ReservedTotal(s: State, g: nat)
    requires GrantsOk(s) && LedgerOk(s)
    ensures 0 <= SumOf(s.book.ledger, ReservedBy(g)) <= MAX_BIGINT
    ensures |s.book.grants| <= g ==> forall x :: High(s.book.ledger, g, x) == 0 == Low(s.book.ledger, g, x)
  {
    TotalsAsSums(s.book.ledger, g);
    if g < |s.book.grants| {
      assert GrantOk(s, s.book.grants[g]);
      assert Totals(s.book.ledger, g) == s.book.grants[g].counters;
    } else {
      TotalsAbsent(s.book.ledger, g);
      forall x
        ensures High(s.book.ledger, g, x) == 0 == Low(s.book.ledger, g, x)
      {
        SumOfNothing(s.book.ledger);
        SumOfBelow(s.book.ledger, HighOf(g, x), (e: Event) => 0);
        SumOfBelow(s.book.ledger, (e: Event) => 0, HighOf(g, x));
        SumOfBelow(s.book.ledger, LowOf(g, x), (e: Event) => 0);
        SumOfBelow(s.book.ledger, (e: Event) => 0, LowOf(g, x));
      }
    }
  }

  /** With every event before `x`, both bounds are the whole sum; with none up to `x`, they are zero. */
  lemma BoundsOutside(es: seq<Event>, g: nat, x: int)
    ensures (forall e | e in es :: e.createdAt < x) ==> High(es, g, x) == Low(es, g, x) == SumOf(es, ReservedBy(g))
    ensures (forall e | e in es :: x < e.createdAt) ==> High(es, g, x) == Low(es, g, x) == 0
  {
    if forall e | e in es :: e.createdAt < x {
      SumOfBelow(es, HighOf(g, x), ReservedBy(g));
      SumOfBelow(es, ReservedBy(g), HighOf(g, x));
      SumOfBelow(es, LowOf(g, x), ReservedBy(g));
      SumOfBelow(es, ReservedBy(g), LowOf(g, x));
    }
    if forall e | e in es :: x < e.createdAt {
      SumOfNothing(es);
      SumOfBelow(es, HighOf(g, x), (e: Event) => 0);
      SumOfBelow(es, (e: Event) => 0, HighOf(g, x));
      SumOfBelow(es, LowOf(g, x), (e: Event) => 0);
      SumOfBelow(es, (e: Event) => 0, LowOf(g, x));
    }
  }

  /** At the instant itself, events of one way contribute all of their sum to one bound and nothing to the other. */
  lemma BoundsAtOnce(es: seq<Event>, g: nat, x: int, way: Way)
    requires forall e | e in es :: e.createdAt == x && Goes(e, way)
    ensures var sum := SumOf(es, ReservedBy(g));
            && High(es, g, x) == (if way.Down? then 0 else sum)
            && Low(es, g, x) == (if way.Down? then sum else 0)
  {
    SumOfNothing(es);
    if way.Down? {
      SumOfBelow(es, HighOf(g, x), (e: Event) => 0);
      SumOfBelow(es, (e: Event) => 0, HighOf(g, x));
      SumOfBelow(es, LowOf(g, x), ReservedBy(g));
      SumOfBelow(es, ReservedBy(g), LowOf(g, x));
    } else {
      SumOfBelow(es, HighOf(g, x), ReservedBy(g));
      SumOfBelow(es, ReservedBy(g), HighOf(g, x));
      SumOfBelow(es, LowOf(g, x), (e: Event) => 0);
      SumOfBelow(es, (e: Event) => 0, LowOf(g, x));
    }
  }

  /** How the two bounds move when the ledger grows. */
  lemma TurnBounds(l: seq<Event>, m: seq<Event>, now: int, way: Way, g: nat, x: int)
    requires Grows(l, m, now, way)
    ensures var d := SumOf(m, ReservedBy(g)) - SumOf(l, ReservedBy(g));
            && High(m, g, x) == High(l, g, x) + (if x < now || (x == now && way.Down?) then 0 else d)
            && Low(m, g, x) == Low(l, g, x) + (if x < now || (x == now && !way.Down?) then 0 else d)
  {
    var es := m[|l|..];
    assert m == l + es;
    forall e | e in es
      ensures e.createdAt == now && Goes(e, way)
    {
      var i :| 0 <= i < |es| && es[i] == e;
      assert m[|l| + i] == e;
    }
    SumOfConcat(l, es, HighOf(g, x));
    SumOfConcat(l, es, LowOf(g, x));
    SumOfConcat(l, es, ReservedBy(g));
    hide SumOf, Goes, Grows;
    BoundsOutside(es, g, x);
    if x == now {
      BoundsAtOnce(es, g, x, way);
    }
  }

  /** After one call on a ledger that never moved a reservation, every bound holds. */
  lemma FirstMoveTimely(s: State, t: State, now: int, way: Way)
    requires GrantsOk(s) && LedgerOk(s) && GrantsOk(t) && LedgerOk(t)
    requires SumOf(s.book.ledger, Movement) == 0 && Grows(s.book.ledger, t.book.ledger, now, way)
    ensures Timely(t.book.ledger, |t.book.grants|)
  {
    hide Grows, SumOf, High, Low, GrantsOk, LedgerOk;
    forall g: nat, x: int | g < |t.book.grants|
      ensures High(t.book.ledger, g, x) <= MAX_BIGINT && -MAX_BIGINT <= Low(t.book.ledger, g, x)
    {
      ReservedTotal(s, g);
      ReservedTotal(t, g);
      MovementBounds(s.book.ledger, g, x);
      TurnBounds(s.book.ledger, t.book.ledger, now, way, g, x);
    }
  }

  lemma GrownBounds(s: State, t: State, now: int, way: Way, g: nat, x: int)
    requires GrantsOk(s) && LedgerOk(s) && GrantsOk(t) && LedgerOk(t)
    requires Grows(s.book.ledger, t.book.ledger, now, way) && forall e | e in s.book.ledger :: e.createdAt < now
    requires Timely(s.book.ledger, |s.book.grants|)
    ensures High(t.book.ledger, g, x) <= MAX_BIGINT && -MAX_BIGINT <= Low(t.book.ledger, g, x)
  {
    var l, m := s.book.ledger, t.book.ledger;
    ReservedTotal(s, g);
    ReservedTotal(t, g);
    hide SumOf, GrantsOk, LedgerOk, Goes, Grows;
    TurnBounds(l, m, now, way, g, x);
    BoundsOutside(l, g, x);
    if x < now && g < |s.book.grants| {
      assert High(l, g, x) <= MAX_BIGINT && -MAX_BIGINT <= Low(l, g, x);
    }
  }

  lemma PunctualStep(s: State, c: Call)
    requires Inv(s) && Allowed(c) && Punctual(s, c) && Timely(s.book.ledger, |s.book.grants|)
    ensures Timely(Step(s, c).book.ledger, |Step(s, c).book.grants|)
  {
    hide Step, Allowed, Core, Started, High, Low, Grows;
    StepGrows(s, c);
    StepKeeps(s, c);
    var t := Step(s, c);
    if ClockOf(c).Some? {
      forall g: nat, x: int | g < |t.book.grants|
        ensures High(t.book.ledger, g, x) <= MAX_BIGINT && -MAX_BIGINT <= Low(t.book.ledger, g, x)
      {
        CoreTables(s);
        CoreTables(t);
        GrownBounds(s, t, ClockOf(c).value, WayOf(c), g, x);
      }
    }
  }

  /** Every call of the run comes later than everything recorded before it. */
  ghost predicate PunctualRun(s: State, cs: seq<Call>) {
    cs == [] || (PunctualRun(s, cs[..|cs| - 1]) && Punctual(Run(s, cs[..|cs| - 1]), cs[|cs| - 1]))
  }

  /** On such a run the ledger stays timely, however much has been held and returned. */
  lemma {:induction false} PunctualTimely(user: User, cs: seq<Call>)
    requires (forall c | c in cs :: Allowed(c)) && PunctualRun(SignedUp(user), cs)
    ensures var t := Run(SignedUp(user), cs); Timely(t.book.ledger, |t.book.grants|)
  {
    var s := SignedUp(user);
    SignedUpInv(user);
    if cs != [] {
      var init, c := cs[..|cs| - 1], cs[|cs| - 1];
      assert c in cs && forall d | d in init :: d in cs;
      hide Inv, Step, Allowed, Timely, Punctual;
      PunctualTimely(user, init);
      RunKeeps(s, init);
      PunctualStep(Run(s, init), c);
    }
  }

  /** So after it any held reservation can be released in whatever order ties come out, without a bound on the history. */
  lemma PunctualRelease(user: User, cs: seq<Call>, rid: nat, reason: Reason, key: Key, now: int, scan: Scan)
    requires (forall c | c in cs :: Allowed(c)) && PunctualRun(SignedUp(user), cs) && Faithful(scan)
    requires var s := Run(SignedUp(user), cs);
             && rid < |s.reservations| && s.reservations[rid].Held()
             && FindTerminal(s.reservations, key).None? && AsOf(s) <= now
    requires !reason.UsageSettled?
    ensures var r := Release(Run(SignedUp(user), cs), rid, [], reason, key, now, scan);
            r.Ok? && r.value.1.consumed == 0 && rid < |r.value.0.reservations| && !r.value.0.reservations[rid].Held()
  {
    hide Core, Started, Allowed, Timely, Release, Run, FindTerminal, LedgerCheck;
    SignedUpInv(user);
    RunKeeps(SignedUp(user), cs);
    PunctualTimely(user, cs);
    CoreTables(Run(SignedUp(user), cs));
    LedgerCheckPasses(Run(SignedUp(user), cs), scan);
    HeldRelease(Run(SignedUp(user), cs), rid, reason, key, now, scan);
  }

  // ---------------------------------------------------------------- ties in the order of writing

  lemma {:induction false} OtherGrants(es: seq<Event>, n: nat, m: nat)
    requires ScanFault(es, n).Pass? && forall e | e in es :: e.grant < m
    ensures ScanFault(es, m).Pass?
  {
    if es != [] {
      assert es[|es| - 1] in es && forall e | e in es[..|es| - 1] :: e in es;
      OtherGrants(es[..|es| - 1], n, m);
    }
  }

  /** Part of a one-way stretch leaves the sum between its ends. */
  lemma OneWayBetween(l: seq<Event>, m: seq<Event>, now: int, way: Way, g: nat, k: nat)
    requires Grows(l, m, now, way) && |l| <= k <= |m|
    ensures var at, from, to := SumOf(m[..k], ReservedBy(g)), SumOf(l, ReservedBy(g)), SumOf(m, ReservedBy(g));
            from <= at <= to || to <= at <= from
  {
    var part, rest := m[|l|..k], m[k..];
    assert m[..k] == l + part && m == m[..k] + rest;
    SumOfConcat(l, part, ReservedBy(g));
    SumOfConcat(m[..k], rest, ReservedBy(g));
    OneWaySum(part, g, way);
    OneWaySum(rest, g, way);
  }

  lemma OneWaySum(es: seq<Event>, g: nat, way: Way)
    requires forall e | e in es :: Goes(e, way)
    ensures if way.Down? then SumOf(es, ReservedBy(g)) <= 0 else 0 <= SumOf(es, ReservedBy(g))
  {
    SumOfNothing(es);
    if way.Down? {
      SumOfBelow(es, ReservedBy(g), (e: Event) => 0);
    } else {
      SumOfBelow(es, (e: Event) => 0, ReservedBy(g));
    }
  }

  lemma WrittenInRange(s: State, t: State, now: int, way: Way, k: nat, g: nat)
    requires GrantsOk(s) && LedgerOk(s) && GrantsOk(t) && LedgerOk(t)
    requires Grows(s.book.ledger, t.book.ledger, now, way) && |s.book.ledger| <= k <= |t.book.ledger| && g < |t.book.grants|
    ensures Totals(t.book.ledger[..k], g).InRange()
  {
    var m := t.book.ledger;
    ReservedTotal(s, g);
    ReservedTotal(t, g);
    PrefixGrows(m, k, g);
    assert GrantOk(t, t.book.grants[g]);
    assert Totals(m, g) == t.book.grants[g].counters;
    TotalsAsSums(m[..k], g);
    hide SumOf, Totals, GrantsOk, LedgerOk;
    OneWayBetween(s.book.ledger, m, now, way, g, k);
  }

  lemma {:induction false} WrittenPasses(s: State, t: State, now: int, way: Way, k: nat)
    requires GrantsOk(s) && LedgerOk(s) && GrantsOk(t) && LedgerOk(t)
    requires Grows(s.book.ledger, t.book.ledger, now, way) && |s.book.ledger| <= k <= |t.book.ledger|
    requires ScanFault(s.book.ledger, |s.book.grants|).Pass?
    ensures ScanFault(t.book.ledger[..k], |t.book.grants|).Pass?
    decreases k
  {
    hide GrantsOk, Grows, ScanFault, Totals, Counters.InRange;
    var m := t.book.ledger;
    if k == |s.book.ledger| {
      assert m[..k] == s.book.ledger by { GrownPrefix(s.book.ledger, m, now, way); }
      assert forall e | e in m[..k] :: e in m;
      OtherGrants(m[..k], |s.book.grants|, |t.book.grants|);
    } else {
      WrittenPasses(s, t, now, way, k - 1);
      assert m[..k][..k - 1] == m[..k - 1];
      assert m[k - 1] in m;
      WrittenInRange(s, t, now, way, k, m[k - 1].grant);
      ScanStep(m[..k], |t.book.grants|);
    }
  }

  lemma GrownPrefix(l: seq<Event>, m: seq<Event>, now: int, way: Way)
    requires Grows(l, m, now, way)
    ensures |l| <= |m| && m[..|l|] == l
  {
  }

  lemma WrittenStep(s: State, c: Call)
    requires Inv(s) && Allowed(c) && ScanFault(s.book.ledger, |s.book.grants|).Pass?
    ensures ScanFault(Step(s, c).book.ledger, |Step(s, c).book.grants|).Pass?
  {
    hide Step, Allowed, Core, Started, Grows, ScanFault;
    StepGrows(s, c);
    StepKeeps(s, c);
    CoreTables(s);
    CoreTables(Step(s, c));
    var t := Step(s, c);
    if ClockOf(c).Some? {
      var k := |t.book.ledger|;
      assert t.book.ledger[..k] == t.book.ledger;
      assert |s.book.ledger| <= k by { GrownPrefix(s.book.ledger, t.book.ledger, ClockOf(c).value, WayOf(c)); }
      WrittenPasses(s, t, ClockOf(c).value, WayOf(c), k);
    } else {
      SameGrantCount(s, c);
    }
  }

  lemma SameGrantCount(s: State, c: Call)
    requires ClockOf(c).None?
    ensures Step(s, c).book == s.book
  {
  }

  /** Read in the order of writing, the ledger agrees with the grants after every run. */
  lemma WrittenOrderPasses(user: User, cs: seq<Call>)
    requires forall c | c in cs :: Allowed(c)
    ensures var t := Run(SignedUp(user), cs);
            LedgerCheck(t.book.ledger, t.book.grants).Pass?
  {
    var s := SignedUp(user);
    SignedUpInv(user);
    RunKeeps(s, cs);
    WrittenFaultless(user, cs);
    hide Core, Run, ScanFault;
    var t := Run(s, cs);
    CoreTables(t);
    TableTotals(t);
  }

  lemma TableTotals(s: State)
    requires GrantsOk(s) && LedgerOk(s)
    ensures forall g | 0 <= g < |s.book.grants| :: Storable(s.book.grants[g].counters) && Totals(s.book.ledger, g) == s.book.grants[g].counters
  {
    forall g | 0 <= g < |s.book.grants|
      ensures Storable(s.book.grants[g].counters) && Totals(s.book.ledger, g) == s.book.grants[g].counters
    {
      assert GrantOk(s, s.book.grants[g]);
    }
  }

  lemma {:induction false} WrittenFaultless(user: User, cs: seq<Call>)
    requires forall c | c in cs :: Allowed(c)
    ensures var t := Run(SignedUp(user), cs); ScanFault(t.book.ledger, |t.book.grants|).Pass?
  {
    var s := SignedUp(user);
    SignedUpInv(user);
    if cs != [] {
      var init, c := cs[..|cs| - 1], cs[|cs| - 1];
      assert c in cs && forall d | d in init :: d in cs;
      hide Inv, Step, Allowed, ScanFault;
      WrittenFaultless(user, init);
      RunKeeps(s, init);
      WrittenStep(Run(s, init), c);
    }
  }

  /** The call comes no earlier than anything recorded. */
  ghost predicate Onward(s: State, c: Call) {
    ClockOf(c).Some? ==> forall e | e in s.book.ledger :: e.createdAt <= ClockOf(c).value
  }

  ghost predicate OnwardRun(s: State, cs: seq<Call>) {
    cs == [] || (OnwardRun(s, cs[..|cs| - 1]) && Onward(Run(s, cs[..|cs| - 1]), cs[|cs| - 1]))
  }

  lemma {:induction false} OnwardInTimeOrder(user: User, cs: seq<Call>)
    requires (forall c | c in cs :: Allowed(c)) && OnwardRun(SignedUp(user), cs)
    ensures InTimeOrder(Run(SignedUp(user), cs).book.ledger)
  {
    var s := SignedUp(user);
    SignedUpInv(user);
    if cs != [] {
      var init, c := cs[..|cs| - 1], cs[|cs| - 1];
      assert c in cs && forall d | d in init :: d in cs;
      hide Inv, Step, Allowed;
      OnwardInTimeOrder(user, init);
      RunKeeps(s, init);
      StepGrows(Run(s, init), c);
      if ClockOf(c).Some? {
        GrownInTimeOrder(Run(s, init).book.ledger, Run(s, cs).book.ledger, ClockOf(c).value, WayOf(c));
      }
    }
  }

  lemma GrownInTimeOrder(l: seq<Event>, m: seq<Event>, now: int, way: Way)
    requires InTimeOrder(l) && Grows(l, m, now, way) && forall e | e in l :: e.createdAt <= now
    ensures InTimeOrder(m)
  {
    forall i, j | 0 <= i < j < |m|
      ensures m[i].createdAt <= m[j].createdAt
    {
      if j < |l| {
        assert m[i] == l[i] && m[j] == l[j];
      } else if i < |l| {
        assert m[i] == l[i] && l[i] in l;
      }
    }
  }

  function Earlier(a: Event, b: Event): bool {
    a.createdAt <= b.createdAt
  }

  /** By time, and what is already in time order is left alone: ties keep the order of writing. */
  ghost function Patient(): Scan {
    (es: seq<Event>) => if InTimeOrder(es) then es else Sort(es, Earlier)
  }

  lemma PatientFaithful()
    ensures Faithful(Patient())
  {
    forall es: seq<Event>
      ensures multiset(Patient()(es)) == multiset(es) && InTimeOrder(Patient()(es))
    {
      SortPermutes(es, Earlier);
      SortSorts(es, Earlier);
      hide Sort;
      var r := Sort(es, Earlier);
      assert forall i, j | 0 <= i < j < |r| :: Earlier(r[i], r[j]);
    }
  }

  /**
   * As long as no call's clock goes back behind a recorded event, a reader that
   * keeps ties in the order of writing is faithful and is never refused.
   */
  lemma PatientPasses(user: User, cs: seq<Call>)
    requires (forall c | c in cs :: Allowed(c)) && OnwardRun(SignedUp(user), cs)
    ensures var t := Run(SignedUp(user), cs);
            Faithful(Patient()) && LedgerCheck(Patient()(t.book.ledger), t.book.grants).Pass?
  {
    hide LedgerCheck, Run, Faithful;
    PatientFaithful();
    OnwardInTimeOrder(user, cs);
    WrittenOrderPasses(user, cs);
  }
}
