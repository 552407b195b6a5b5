/** What becomes of a grant over any run: its terms stay, and a bonus is worth its amount until it expires. */
module GrantHistory {
  import opened Prelude
  import opened Sorting
  import opened CreditPolicy
  import opened CreditRecords
  import opened CreditLifecycle
  import opened CreditAccounting
  import opened CreditInvariant
  import opened LifecycleInvariant
  import opened AccountingInvariant
  import opened SettlementInvariant
  import opened TerminalCalls
  import opened MasterAdmin
  import opened CreditHistory
  import opened CreditReplay
  import opened LazyRenewal
  import opened WorkedRuns

  // ---------------------------------------------------------------- terms never change

  /** Only the counters of a grant move, and what a bonus granted does not. */
  ghost predicate SameGrant(g: Grant, h: Grant) {
    h == g.(counters := h.counters) && (g.kind.Bonus? ==> h.counters.granted == g.counters.granted)
  }

  ghost predicate KeepsGrants(b: Book, c: Book) {
    |b.grants| <= |c.grants| && forall i | 0 <= i < |b.grants| :: SameGrant(b.grants[i], c.grants[i])
  }

  lemma KeepsTransitive(b: Book, c: Book, d: Book)
    requires KeepsGrants(b, c) && KeepsGrants(c, d)
    ensures KeepsGrants(b, d)
  {
    forall i | 0 <= i < |b.grants|
      ensures SameGrant(b.grants[i], d.grants[i])
    {
      assert SameGrant(b.grants[i], c.grants[i]) && SameGrant(c.grants[i], d.grants[i]);
    }
  }

  lemma SelfKeeps(b: Book)
    ensures KeepsGrants(b, b)
  {
  }

  /** Events that grant nothing leave every grant's terms. */
  lemma {:induction false} PostAllKeeps(b: Book, es: seq<Event>)
    requires Posts(es, b.grants) && forall e | e in es :: e.delta.granted == 0
    ensures KeepsGrants(b, PostAll(b, es))
  {
    if es != [] {
      var n := |es| - 1;
      assert es[n] in es && forall e | e in es[..n] :: e in es;
      PostAllKeeps(b, es[..n]);
    }
  }

  lemma EnsureKeepsGrants(s: State, now: int, tag: nat)
    requires Core(s) && Started(s) && EnsureCycle(s, now, tag).Ok?
    ensures KeepsGrants(s.book, EnsureCycle(s, now, tag).value.state.book)
  {
    hide Core, Started, EnsureCycle, BoundsAt;
    EnsureSpelledOut(s, now, tag);
    forall i | 0 <= i < |s.book.grants|
      ensures SameGrant(s.book.grants[i], EnsureCycle(s, now, tag).value.state.book.grants[i])
    {
      assert ExpireAll(s.book.grants, now)[i] == Expired(s.book.grants[i], now);
    }
  }

  lemma ChangePlanKeepsGrants(s: State, target: Plan, key: Key, now: int, tag: nat)
    requires Core(s) && Started(s) && ChangePlan(s, target, key, now, tag).Ok?
    ensures KeepsGrants(s.book, ChangePlan(s, target, key, now, tag).value.0.book)
  {
    hide Core, Started, EnsureCycle, Capacity, PolicyOf, KeepsGrants;
    SelfKeeps(s.book);
    if key !in s.operations {
      EnsureKeepsGrants(s, now, tag);
      EnsureKeeps(s, now, tag);
      var e := EnsureCycle(s, now, tag).value;
      var t := ChangePlan(s, target, key, now, tag).value.0;
      SelfKeeps(e.state.book);
      if Rank(e.state.account.value.plan) < Rank(target) {
        RaisedBase(e.state.book, t.book, e.base);
      }
      KeepsTransitive(s.book, e.state.book, t.book);
    }
  }

  lemma RaisedBase(b: Book, c: Book, row: nat)
    requires row < |b.grants| && b.grants[row].kind.Base?
    requires exists e: Event :: e.grant == row && c == Post(b, e)
    ensures KeepsGrants(b, c)
  {
  }

  lemma GrantBonusKeepsGrants(s: State, amount: int, expiresAt: Option<int>, reason: nat, key: Key, now: int, tag: nat, bonusTag: nat)
    requires Core(s) && Started(s) && GrantBonus(s, amount, expiresAt, reason, key, now, tag, bonusTag).Ok?
    ensures KeepsGrants(s.book, GrantBonus(s, amount, expiresAt, reason, key, now, tag, bonusTag).value.0.book)
  {
    hide Core, Started, EnsureCycle, Capacity;
    if key !in s.operations {
      EnsureKeepsGrants(s, now, tag);
    }
  }

  lemma AdministerKeepsGrants(s: State, request: nat, actor: nat, action: AdminAction, reason: nat, now: int, tag: nat)
    requires Inv(s) && Administer(s, request, actor, action, reason, now, tag).Ok?
    ensures KeepsGrants(s.book, Administer(s, request, actor, action, reason, now, tag).value.book)
  {
    hide Core, Started, EnsureCycle, ChangePlan, GrantBonus, KeepsGrants;
    SelfKeeps(s.book);
    if request !in s.audits {
      EnsureKeepsGrants(s, now, tag);
      EnsureKeeps(s, now, tag);
      var e := EnsureCycle(s, now, tag).value.state;
      match action {
        case Promote => ChangePlanKeepsGrants(e, Max, MasterCommand(request), now, tag);
        case AdminPlan(target) => ChangePlanKeepsGrants(e, target, MasterCommand(request), now, tag);
        case AdminBonus(amount, expiresAt) => GrantBonusKeepsGrants(e, amount, expiresAt, reason, MasterCommand(request), now, tag, tag);
      }
      KeepsTransitive(s.book, e.book, Act(e, request, action, reason, now, tag).value.0.book);
    }
  }

  lemma HoldKeepsGrants(s: State, key: Key, items: seq<Item>, allocations: seq<Allocation>, now: int)
    requires forall a | a in allocations :: a.grant < |s.book.grants|
    ensures KeepsGrants(s.book, Hold(s, key, items, allocations, now).book)
  {
    hide SumOf, PostAll;
    var es := HoldEvents(allocations, |s.reservations|, now);
    PostAllKeeps(s.book, es);
  }

  lemma AdmitKeepsGrants(s: State, key: Key, es: seq<Estimate>, now: int, scan: Scan)
    requires s.account.Some? && Admit(s, key, es, now, scan).Ok?
    ensures KeepsGrants(s.book, Admit(s, key, es, now, scan).value.0.book)
  {
    hide ScanFault, Quotes, SumOf, Priority, PolicyOf, Hold, KeepsGrants;
    var total := SumOf(Quotes(es).value, QuotedOf);
    assert forall g | 0 <= g < |s.book.grants| :: Storable(s.book.grants[g].counters);
    PriorityRows(s.book.grants);
    var allocations := Allocate(Priority(s.book.grants), total);
    AllocateRows(Priority(s.book.grants), total, |s.book.grants|);
    hide Allocate;
    HoldKeepsGrants(s, key, Quotes(es).value, allocations, now);
  }

  lemma ReserveKeepsGrants(s: State, key: Key, raw: seq<Estimate>, now: int, tag: nat, scan: Scan)
    requires Core(s) && Started(s) && Reserve(s, key, raw, now, tag, scan).Ok?
    ensures KeepsGrants(s.book, Reserve(s, key, raw, now, tag, scan).value.0.book)
  {
    hide Core, Started, EnsureCycle, Admit, KeepsGrants, Sort;
    SelfKeeps(s.book);
    if FindReserved(s.reservations, key).None? {
      EnsureKeepsGrants(s, now, tag);
      var e := EnsureCycle(s, now, tag).value.state;
      AdmitKeepsGrants(e, key, Sort(raw, EstimateLeq), now, scan);
      KeepsTransitive(s.book, e.book, Admit(e, key, Sort(raw, EstimateLeq), now, scan).value.0.book);
    }
  }

  lemma ClosedKeepsGrants(s: State, rid: nat, closing: Terminal, consumed: int, now: int, charge: bool)
    requires rid < |s.reservations|
    requires forall a | a in s.reservations[rid].allocations :: a.grant < |s.book.grants|
    ensures KeepsGrants(s.book, Closed(s, rid, closing, consumed, now, charge).book)
  {
    hide SumOf, PostAll, SpentAt;
    var r := s.reservations[rid];
    PostAllKeeps(s.book, TerminalEvents(s.book.grants, r.allocations, consumed, rid, now, charge, |r.allocations|));
  }

  lemma TerminateKeepsGrants(s: State, rid: nat, lines: seq<UsageLine>, delivery: Delivery, reason: Reason, key: Key, now: int, charge: bool, scan: Scan)
    requires Core(s) && Started(s) && ValidLines(lines, true)
    requires (charge <==> !delivery.NoDeliverable?) && (charge <==> reason.UsageSettled?)
    requires Terminate(s, rid, lines, delivery, reason, key, now, charge, scan).Ok?
    ensures KeepsGrants(s.book, Terminate(s, rid, lines, delivery, reason, key, now, charge, scan).value.0.book)
  {
    hide Core, Started, Close, LedgerCheck, ReservationCoherent, SameLines, TerminalReceiptOf, KeepsGrants, Closed, Charges, SumOf;
    SelfKeeps(s.book);
    if FindTerminal(s.reservations, key).None? {
      CloseTotal(s, rid, lines, delivery, reason, key, now, charge);
      CloseEffect(s, rid, lines, delivery, reason, key, now, charge);
      var closing := Closing(lines, s.reservations[rid].items, delivery, reason, key, now, charge);
      ClosedKeepsGrants(s, rid, closing, SumOf(closing.records, ChargedOf), now, charge);
    }
  }

  lemma StepKeepsGrants(s: State, c: Call)
    requires Inv(s) && Allowed(c)
    ensures KeepsGrants(s.book, Step(s, c).book)
  {
    hide Core, Started, EnsureCycle, ChangePlan, GrantBonus, Administer, Reserve, Terminate, ValidLines, KeepsGrants;
    SelfKeeps(s.book);
    match c
    case CallEnsure(now, tag) =>
      if EnsureCycle(s, now, tag).Ok? { EnsureKeepsGrants(s, now, tag); }
    case CallChangePlan(target, key, now, tag) =>
      if ChangePlan(s, target, key, now, tag).Ok? { ChangePlanKeepsGrants(s, target, key, now, tag); }
    case CallGrantBonus(amount, expiresAt, reason, key, now, tag, bonusTag) =>
      if GrantBonus(s, amount, expiresAt, reason, key, now, tag, bonusTag).Ok? {
        GrantBonusKeepsGrants(s, amount, expiresAt, reason, key, now, tag, bonusTag);
      }
    case CallAdminister(request, actor, action, reason, now, tag) =>
      if Administer(s, request, actor, action, reason, now, tag).Ok? { AdministerKeepsGrants(s, request, actor, action, reason, now, tag); }
    case CallSetStatus(status) =>
    case CallReserve(key, estimates, now, tag, scan) =>
      if Reserve(s, key, estimates, now, tag, scan).Ok? { ReserveKeepsGrants(s, key, estimates, now, tag, scan); }
    case CallSettle(rid, usage, delivery, key, now, scan) =>
      if Settle(s, rid, usage, delivery, key, now, scan).Ok? {
        SortedLines(usage, false);
        LinesWeaken(usage);
        TerminateKeepsGrants(s, rid, Sort(usage, LineLeq), delivery, UsageSettled, key, now, true, scan);
      }
    case CallRelease(rid, usage, reason, key, now, scan) =>
      if Release(s, rid, usage, reason, key, now, scan).Ok? {
        SortedLines(usage, true);
        TerminateKeepsGrants(s, rid, Sort(usage, LineLeq), NoDeliverable, reason, key, now, false, scan);
      }
  }

  /** No run drops a grant or changes its terms, and no run adds to or takes from what a bonus granted. */
  lemma {:induction false} RunKeepsGrants(s: State, cs: seq<Call>)
    requires Inv(s) && forall c | c in cs :: Allowed(c)
    ensures KeepsGrants(s.book, Run(s, cs).book)
  {
    if cs == [] {
      SelfKeeps(s.book);
    } else {
      var init := cs[..|cs| - 1];
      hide Inv, Step, Allowed, KeepsGrants;
      RunKeepsGrants(s, init);
      RunKeeps(s, init);
      StepKeepsGrants(Run(s, init), cs[|cs| - 1]);
      KeepsTransitive(s.book, Run(s, init).book, Run(s, cs).book);
    }
  }

  // ---------------------------------------------------------------- a bonus from grant to expiry

  /** `t` is `s` with one more grant: a bonus of this amount and expiry, all of it available. */
  ghost predicate BonusOpened(s: State, t: State, amount: int, expiresAt: Option<int>, now: int) {
    && Available(t) == Available(s) + amount && 0 < amount
    && |t.book.grants| == |s.book.grants| + 1 && t.book.grants[..|s.book.grants|] == s.book.grants
    && var g := t.book.grants[|s.book.grants|];
    && g.kind.Bonus? && g.expiresAt == expiresAt && g.createdAt == now && g.counters == Counters(amount, 0, 0, 0)
    && !g.ExpiredAt(now)
  }

  /** A fresh bonus adds one grant with the command's amount and expiry, and raises the available credit by its amount. */
  lemma BonusRaises(s: State, amount: int, expiresAt: Option<int>, reason: nat, key: Key, now: int, tag: nat, bonusTag: nat)
    requires key !in s.operations && GrantBonus(s, amount, expiresAt, reason, key, now, tag, bonusTag).Ok?
    ensures EnsureCycle(s, now, tag).Ok?
    ensures BonusOpened(EnsureCycle(s, now, tag).value.state, GrantBonus(s, amount, expiresAt, reason, key, now, tag, bonusTag).value.0,
                        amount, expiresAt, now)
  {
    hide EnsureCycle, BonusAdded, Available;
    BonusOpens(EnsureCycle(s, now, tag).value, amount, expiresAt, reason, key, now, bonusTag);
  }

  lemma BonusOpens(e: Current, amount: int, expiresAt: Option<int>, reason: nat, key: Key, now: int, tag: nat)
    requires BonusAdded(e, amount, expiresAt, reason, key, now, tag).Ok?
    ensures var s, t := e.state, BonusAdded(e, amount, expiresAt, reason, key, now, tag).value.0;
            && Available(t) == Available(s) + amount
            && t.book.grants == s.book.grants + [Grant(Bonus, tag, now, expiresAt, Counters(amount, 0, 0, 0))]
  {
    hide Capacity, SumOf;
    SumOfAppend(e.state.book.grants, Grant(Bonus, tag, now, expiresAt, Counters(amount, 0, 0, 0)), AvailableOf);
  }

  /**
   * The whole life of a bonus: after any later run its grant still has the
   * command's amount and expiry, every microcredit of it is available, held,
   * consumed or expired, and once the account's clock has reached the expiry
   * nothing of it is available, whatever is released or settled then.
   */
  lemma BonusOverRuns(s: State, amount: int, expiresAt: Option<int>, reason: nat, key: Key, now: int, tag: nat, bonusTag: nat, cs: seq<Call>)
    requires Inv(s) && key !in s.operations && !key.MasterCommand? && GrantBonus(s, amount, expiresAt, reason, key, now, tag, bonusTag).Ok?
    requires forall c | c in cs :: Allowed(c)
    ensures EnsureCycle(s, now, tag).Ok?
    ensures var row := |EnsureCycle(s, now, tag).value.state.book.grants|;
            var u := Run(GrantBonus(s, amount, expiresAt, reason, key, now, tag, bonusTag).value.0, cs);
            && row < |u.book.grants|
            && var g := u.book.grants[row];
            && g.kind.Bonus? && g.expiresAt == expiresAt && g.createdAt == now
            && 0 <= g.counters.reserved && 0 <= g.counters.consumed && 0 <= g.counters.expired && 0 <= g.counters.Available()
            && g.counters.Available() + g.counters.reserved + g.counters.consumed + g.counters.expired == amount
            && (expiresAt.Some? && expiresAt.value <= AsOf(u) ==> g.counters.Available() == 0)
  {
    hide Core, Started, EnsureCycle, GrantBonus, Run, SumOf;
    BonusRaises(s, amount, expiresAt, reason, key, now, tag, bonusTag);
    var t := GrantBonus(s, amount, expiresAt, reason, key, now, tag, bonusTag).value.0;
    StepKeeps(s, CallGrantBonus(amount, expiresAt, reason, key, now, tag, bonusTag));
    assert Step(s, CallGrantBonus(amount, expiresAt, reason, key, now, tag, bonusTag)) == t;
    RunKeeps(t, cs);
    RunKeepsGrants(t, cs);
    var row := |EnsureCycle(s, now, tag).value.state.book.grants|;
    var u := Run(t, cs);
    assert SameGrant(t.book.grants[row], u.book.grants[row]);
    GrantFacts(u, row);
  }

  lemma GrantFacts(s: State, row: nat)
    requires Inv(s) && row < |s.book.grants|
    ensures s.book.grants[row].counters.Balanced()
    ensures s.book.grants[row].ExpiredAt(AsOf(s)) ==> s.book.grants[row].counters.Available() == 0
  {
    hide CyclesOk, LedgerOk, ReservationsOk, HoldsOk, OperationsOk, AccountOk, Bases;
    assert GrantOk(s, s.book.grants[row]);
  }
}
