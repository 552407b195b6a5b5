/** What a plan change answers and does, told from the rows before it, and when a scheduled downgrade takes effect. */
module PlanChanges {
  import opened Prelude
  import opened Sorting
  import opened CreditPolicy
  import opened CreditRecords
  import opened CreditLifecycle
  import opened CreditAccounting
  import opened CreditInvariant
  import opened LifecycleInvariant
  import opened AccountingInvariant
  import opened TerminalCalls
  import opened MasterAdmin
  import opened CreditHistory
  import opened CreditReplay
  import opened LazyRenewal
  import opened HoldTotals
  import opened WorkedRuns
  import opened UsageViews
  import opened GrantHistory

  /** The downgrade waiting at an instant with bounds `b`: none once a due renewal has applied it. */
  function PendingInForce(s: State, b: CycleBounds): Option<Plan>
    requires s.account.Some? ==> s.cycles != []
  {
    if NeedsCycle(s, b) then None else s.account.value.pending
  }

  /** How a change from `plan` with `pending` waiting to `target` is answered, and what it leaves. */
  ghost predicate PlanMoved(e: State, t: State, plan: Plan, pending: Option<Plan>, target: Plan, outcome: Outcome) {
    && t.account.Some? && e.account.Some?
    && (outcome.Upgraded? <==> Rank(plan) < Rank(target))
    && (outcome.Scheduled? <==> Rank(target) < Rank(plan) && pending != Some(target))
    && (outcome.Cancelled? <==> target == plan && pending.Some?)
    && (outcome.Unchanged? <==> (target == plan && pending.None?) || (Rank(target) < Rank(plan) && pending == Some(target)))
    && t.account.value.plan == (if Rank(plan) < Rank(target) then target else plan)
    && t.account.value.pending == (if Rank(target) < Rank(plan) then Some(target) else None)
    && Available(t) == Available(e) + (if Rank(plan) < Rank(target) then PolicyOf(target).allowance - PolicyOf(plan).allowance else 0)
    && (Rank(target) <= Rank(plan) ==> t.book == e.book && t.cycles == e.cycles)
    && |t.cycles| == |e.cycles| && t.reservations == e.reservations
  }

  lemma RaisedAvailable(b: Book, e: Event)
    requires e.grant < |b.grants| && e.delta.reserved == e.delta.consumed == e.delta.expired == 0
    ensures SumOf(Post(b, e).grants, AvailableOf) == SumOf(b.grants, AvailableOf) + e.delta.granted
  {
    SumOfUpdate(b.grants, e.grant, b.grants[e.grant].Add(e.delta), AvailableOf);
  }

  lemma SameRank(p: Plan, q: Plan)
    ensures Rank(p) == Rank(q) <==> p == q
  {
  }

  lemma PlanChangedMoves(e: Current, target: Plan, key: Key, now: int)
    requires Ready(e) && PlanChanged(e, target, key, now).Ok?
    requires e.state.cycles[e.cycle].allowance == PolicyOf(e.state.account.value.plan).allowance
    ensures var (t, receipt) := PlanChanged(e, target, key, now).value;
            var a := e.state.account.value;
            && PlanMoved(e.state, t, a.plan, a.pending, target, receipt.operation.outcome)
            && receipt.operation.payload == PlanChange(target) && !receipt.replayed
            && receipt.operation.effectiveAt == now && receipt.operation.cycle == e.cycle
  {
    hide SumOf, PolicyOf, Capacity, Rank;
    var a := e.state.account.value;
    SameRank(a.plan, target);
    if Rank(a.plan) < Rank(target) {
      var delta := PolicyOf(target).allowance - e.state.cycles[e.cycle].allowance;
      RaisedAvailable(e.state.book, Event(e.base, AdjustEvent, Command(key), now, Counters(delta, 0, 0, 0)));
    }
  }

  /** Plan and pending plan of rows that were just brought up to date, told from the rows before. */
  lemma InForceNow(s: State, now: int, tag: nat)
    requires Core(s) && Started(s) && EnsureCycle(s, now, tag).Ok?
    ensures s.account.Some? ==> s.cycles != []
    ensures BoundsAt(s.user.signedUpAt, now).Ok?
    ensures var b := BoundsAt(s.user.signedUpAt, now).value;
            var e := EnsureCycle(s, now, tag).value;
            && e.state.account.value.plan == PlanInForce(s, b) && e.state.account.value.pending == PendingInForce(s, b)
            && e.state.cycles[e.cycle].allowance == PolicyOf(PlanInForce(s, b)).allowance
  {
    hide Core, EnsureCycle, BoundsAt, PolicyOf;
    EnsureTotal(s, now, tag);
    EnsureSpelledOut(s, now, tag);
  }

  /**
   * A fresh plan change is answered from the plan and the pending plan in force:
   * an upgrade takes effect at once and adds the difference of the allowances,
   * a downgrade waits, asking for the current plan withdraws what waits, and
   * what is already so stays so.
   */
  lemma ChangePlanMeans(s: State, target: Plan, key: Key, now: int, tag: nat)
    requires Inv(s) && key !in s.operations && ChangePlan(s, target, key, now, tag).Ok?
    ensures EnsureCycle(s, now, tag).Ok? && BoundsAt(s.user.signedUpAt, now).Ok? && (s.account.Some? ==> s.cycles != [])
    ensures var (t, receipt) := ChangePlan(s, target, key, now, tag).value;
            var b := BoundsAt(s.user.signedUpAt, now).value;
            && PlanMoved(EnsureCycle(s, now, tag).value.state, t, PlanInForce(s, b), PendingInForce(s, b), target, receipt.operation.outcome)
            && receipt.operation.effectiveAt == now && receipt.operation.cycle == |t.cycles| - 1
  {
    hide Core, Started, EnsureCycle, PlanChanged, BoundsAt, PolicyOf, PlanInForce, PendingInForce, SumOf, Rank;
    InForceNow(s, now, tag);
    EnsureKeeps(s, now, tag);
    PlanChangedMoves(EnsureCycle(s, now, tag).value, target, key, now);
  }

  /** A fresh plan change goes through exactly when the user is active, a master stays on the top plan, the rows can be brought up to date and an upgrade's difference still fits. */
  lemma ChangePlanTotal(s: State, target: Plan, key: Key, now: int, tag: nat)
    requires Inv(s) && key !in s.operations
    ensures s.account.Some? ==> s.cycles != []
    ensures ChangePlan(s, target, key, now, tag).Ok?
            <==> && s.user.signedUpAt <= now && s.user.status.Active? && (s.user.role.Master? ==> target == Max)
                 && EnsureCycle(s, now, tag).Ok? && BoundsAt(s.user.signedUpAt, now).Ok?
                 && var plan := PlanInForce(s, BoundsAt(s.user.signedUpAt, now).value);
                 (Rank(plan) < Rank(target) ==>
                    Outstanding(EnsureCycle(s, now, tag).value.state) + PolicyOf(target).allowance - PolicyOf(plan).allowance <= MAX_BIGINT)
  {
    hide Core, EnsureCycle, BoundsAt, PolicyOf, PlanInForce, PendingInForce, SumOf, Rank;
    if EnsureCycle(s, now, tag).Ok? {
      InForceNow(s, now, tag);
      EnsureKeeps(s, now, tag);
      OutstandingThere(EnsureCycle(s, now, tag).value.state);
      PlansRise(PlanInForce(s, BoundsAt(s.user.signedUpAt, now).value), target);
    }
  }

  function Outstanding(s: State): int {
    SumOf(s.book.grants, OutstandingOf)
  }

  lemma OutstandingThere(s: State)
    requires Core(s)
    ensures 0 <= Outstanding(s)
  {
    hide Core, SumOf;
    BalancesBounded(s);
    OutstandingSplits(s.book.grants);
  }

  lemma PlansRise(p: Plan, q: Plan)
    ensures Rank(p) < Rank(q) ==> PolicyOf(p).allowance <= PolicyOf(q).allowance
  {
    PlansGrow(p, q);
  }

  /** A fresh bonus goes through exactly when its amount is one, it expires later if at all, the user is active, the rows can be brought up to date and it still fits. */
  lemma GrantBonusTotal(s: State, amount: int, expiresAt: Option<int>, reason: nat, key: Key, now: int, tag: nat, bonusTag: nat)
    requires Inv(s) && key !in s.operations
    ensures GrantBonus(s, amount, expiresAt, reason, key, now, tag, bonusTag).Ok?
            <==> && 0 < amount <= MAX_BIGINT && s.user.signedUpAt <= now && s.user.status.Active?
                 && (expiresAt.Some? ==> now < expiresAt.value)
                 && EnsureCycle(s, now, tag).Ok? && Outstanding(EnsureCycle(s, now, tag).value.state) + amount <= MAX_BIGINT
  {
    hide Core, EnsureCycle, SumOf;
    if EnsureCycle(s, now, tag).Ok? {
      EnsureKeeps(s, now, tag);
      OutstandingThere(EnsureCycle(s, now, tag).value.state);
    }
  }

  // ---------------------------------------------------------------- administration

  /** What an administrator's command does to the target account, besides bringing it up to date and leaving its audit. */
  ghost predicate Administered(s: State, t: State, action: AdminAction, now: int, tag: nat) {
    && EnsureCycle(s, now, tag).Ok? && BoundsAt(s.user.signedUpAt, now).Ok? && (s.account.Some? ==> s.cycles != [])
    && var e := EnsureCycle(s, now, tag).value.state;
    var b := BoundsAt(s.user.signedUpAt, now).value;
    match action
    case Promote =>
      && t.user == s.user.(role := Master)
      && exists outcome :: PlanMoved(e, t, PlanInForce(s, b), PendingInForce(s, b), Max, outcome)
    case AdminPlan(target) =>
      && t.user == s.user
      && exists outcome :: PlanMoved(e, t, PlanInForce(s, b), PendingInForce(s, b), target, outcome)
    case AdminBonus(amount, expiresAt) => t.user == s.user && t.account == e.account && BonusOpened(e, t, amount, expiresAt, now)
  }

  /** An audited command that is not a repetition does what its action says, once, and records who did it and why. */
  lemma AdministerMeans(s: State, request: nat, actor: nat, action: AdminAction, reason: nat, now: int, tag: nat)
    requires Inv(s) && request !in s.audits && Administer(s, request, actor, action, reason, now, tag).Ok?
    ensures var t := Administer(s, request, actor, action, reason, now, tag).value;
            && Administered(s, t, action, now, tag)
            && t.audits == s.audits[request := Audit(actor, action, reason)]
  {
    hide Core, Started, EnsureCycle, BoundsAt, ChangePlan, GrantBonus, PlanMoved, BonusOpened, PlanInForce, PendingInForce, PolicyOf;
    InForceNow(s, now, tag);
    EnsureKeeps(s, now, tag);
    EnsureBringsUpToDate(s, now, tag);
    var e := EnsureCycle(s, now, tag).value.state;
    EnsureIdle(e, now, tag);
    assert MasterCommand(request) !in e.operations;
    var t := Act(e, request, action, reason, now, tag).value.0;
    var u := Administer(s, request, actor, action, reason, now, tag).value;
    var b := BoundsAt(s.user.signedUpAt, now).value;
    match action {
      case Promote =>
        ActedPlan(s, e, Max, MasterCommand(request), now, tag);
        MovedFrame(e, t, u, PlanInForce(s, b), PendingInForce(s, b), Max);
      case AdminPlan(target) =>
        ActedPlan(s, e, target, MasterCommand(request), now, tag);
        MovedFrame(e, t, u, PlanInForce(s, b), PendingInForce(s, b), target);
      case AdminBonus(amount, expiresAt) =>
        ActedBonus(e, amount, expiresAt, reason, MasterCommand(request), now, tag);
        OpenedFrame(e, t, u, amount, expiresAt, now);
    }
  }

  /** Role and audit do not matter to what a plan change or a bonus does. */
  lemma MovedFrame(e: State, t: State, u: State, plan: Plan, pending: Option<Plan>, target: Plan)
    requires exists outcome :: PlanMoved(e, t, plan, pending, target, outcome)
    requires u == t.(user := u.user, audits := u.audits)
    ensures exists outcome :: PlanMoved(e, u, plan, pending, target, outcome)
  {
    var outcome :| PlanMoved(e, t, plan, pending, target, outcome);
    assert PlanMoved(e, u, plan, pending, target, outcome);
  }

  lemma OpenedFrame(e: State, t: State, u: State, amount: int, expiresAt: Option<int>, now: int)
    requires BonusOpened(e, t, amount, expiresAt, now) && u.book == t.book
    ensures BonusOpened(e, u, amount, expiresAt, now)
  {
  }

  lemma ActedBonus(e: State, amount: int, expiresAt: Option<int>, reason: nat, key: Key, now: int, tag: nat)
    requires key !in e.operations && EnsureCycle(e, now, tag).Ok? && EnsureCycle(e, now, tag).value.state == e
    requires GrantBonus(e, amount, expiresAt, reason, key, now, tag, tag).Ok?
    ensures var t := GrantBonus(e, amount, expiresAt, reason, key, now, tag, tag).value.0;
            && BonusOpened(e, t, amount, expiresAt, now)
            && t.user == e.user && t.account == e.account && t.audits == e.audits
  {
    hide EnsureCycle, Capacity, SumOf, BonusOpened;
    BonusRaises(e, amount, expiresAt, reason, key, now, tag, tag);
  }

  lemma ActedPlan(s: State, e: State, target: Plan, key: Key, now: int, tag: nat)
    requires Core(s) && Started(s) && EnsureCycle(s, now, tag).Ok? && e == EnsureCycle(s, now, tag).value.state
    requires Core(e) && Started(e)
    requires key !in e.operations && EnsureCycle(e, now, tag).Ok? && EnsureCycle(e, now, tag).value.state == e
    requires ChangePlan(e, target, key, now, tag).Ok?
    ensures s.account.Some? ==> s.cycles != []
    ensures BoundsAt(s.user.signedUpAt, now).Ok?
    ensures var (t, receipt) := ChangePlan(e, target, key, now, tag).value;
            var b := BoundsAt(s.user.signedUpAt, now).value;
            && PlanMoved(e, t, PlanInForce(s, b), PendingInForce(s, b), target, receipt.operation.outcome)
            && t.user == e.user && t.audits == e.audits
  {
    hide Core, Started, EnsureCycle, PlanChanged, PlanMoved, BoundsAt, PolicyOf, PlanInForce, PendingInForce;
    InForceNow(s, now, tag);
    InForceNow(e, now, tag);
    PlanChangedMoves(EnsureCycle(e, now, tag).value, target, key, now);
    ChangePlanExtends(e, target, key, now, tag);
  }

  // ---------------------------------------------------------------- a downgrade over runs

  /** Calls that ask for no plan. */
  predicate LeavesPlan(c: Call) {
    !c.CallChangePlan? && !c.CallAdminister?
  }

  function Newest(s: State): int
    requires s.cycles != []
  {
    s.cycles[|s.cycles| - 1].index
  }

  /** Until a cycle after `cycle` is opened the old plan holds and the new one waits; from then on the new one holds. */
  ghost predicate OnTheWay(s: State, cycle: int, former: Plan, target: Plan) {
    && s.account.Some? && s.cycles != []
    && cycle <= Newest(s)
    && s.account.value.plan == (if Newest(s) == cycle then former else target)
    && s.account.value.pending == (if Newest(s) == cycle then Some(target) else None)
  }

  lemma EnsureOnTheWay(s: State, now: int, tag: nat, cycle: int, former: Plan, target: Plan)
    requires Core(s) && Started(s) && EnsureCycle(s, now, tag).Ok? && OnTheWay(s, cycle, former, target)
    ensures OnTheWay(EnsureCycle(s, now, tag).value.state, cycle, former, target)
  {
    hide Core, EnsureCycle, BoundsAt, PolicyOf, Coherent, BaseRow;
    InForceNow(s, now, tag);
    EnsureKeeps(s, now, tag);
    EnsureSpelledOut(s, now, tag);
    InvCoherent(s);
    ClockGuardUnreachable(s, now);
  }

  /** A call that asks for no plan leaves account and cycles alone but for bringing them up to date. */
  lemma StepOnTheWay(s: State, c: Call, cycle: int, former: Plan, target: Plan)
    requires Inv(s) && Allowed(c) && LeavesPlan(c) && OnTheWay(s, cycle, former, target)
    ensures OnTheWay(Step(s, c), cycle, former, target)
  {
    hide Core, Started, EnsureCycle, Admit, Terminate, ValidLines, Sort, OnTheWay, BonusAdded;
    match c
    case CallEnsure(now, tag) =>
      if EnsureCycle(s, now, tag).Ok? { EnsureOnTheWay(s, now, tag, cycle, former, target); }
    case CallGrantBonus(amount, expiresAt, reason, key, now, tag, bonusTag) =>
      if GrantBonus(s, amount, expiresAt, reason, key, now, tag, bonusTag).Ok? && key !in s.operations {
        EnsureOnTheWay(s, now, tag, cycle, former, target);
        var e := EnsureCycle(s, now, tag).value;
        SameAccount(e.state, BonusAdded(e, amount, expiresAt, reason, key, now, bonusTag).value.0, cycle, former, target)
          by { BonusLeavesAccount(e, amount, expiresAt, reason, key, now, bonusTag); }
      }
    case CallSetStatus(status) => SameAccount(s, Step(s, c), cycle, former, target);
    case CallReserve(key, estimates, now, tag, scan) =>
      if Reserve(s, key, estimates, now, tag, scan).Ok? && FindReserved(s.reservations, key).None? {
        EnsureOnTheWay(s, now, tag, cycle, former, target);
        var e := EnsureCycle(s, now, tag).value.state;
        AdmitEffect(e, key, Sort(estimates, EstimateLeq), now, scan);
        SameAccount(e, Admit(e, key, Sort(estimates, EstimateLeq), now, scan).value.0, cycle, former, target);
      }
    case CallSettle(rid, usage, delivery, key, now, scan) =>
      if Settle(s, rid, usage, delivery, key, now, scan).Ok? {
        SortedLines(usage, false);
        LinesWeaken(usage);
        TerminateKeeps(s, rid, Sort(usage, LineLeq), delivery, UsageSettled, key, now, true, scan);
        SameAccount(s, Step(s, c), cycle, former, target);
      }
    case CallRelease(rid, usage, reason, key, now, scan) =>
      if Release(s, rid, usage, reason, key, now, scan).Ok? {
        SortedLines(usage, true);
        TerminateKeeps(s, rid, Sort(usage, LineLeq), NoDeliverable, reason, key, now, false, scan);
        SameAccount(s, Step(s, c), cycle, former, target);
      }
  }

  lemma SameAccount(s: State, t: State, cycle: int, former: Plan, target: Plan)
    requires OnTheWay(s, cycle, former, target) && t.account == s.account && t.cycles == s.cycles
    ensures OnTheWay(t, cycle, former, target)
  {
  }

  lemma BonusLeavesAccount(e: Current, amount: int, expiresAt: Option<int>, reason: nat, key: Key, now: int, tag: nat)
    requires BonusAdded(e, amount, expiresAt, reason, key, now, tag).Ok?
    ensures var t := BonusAdded(e, amount, expiresAt, reason, key, now, tag).value.0; t.account == e.state.account && t.cycles == e.state.cycles
  {
    hide Capacity;
  }

  lemma {:induction false} RunOnTheWay(s: State, cs: seq<Call>, cycle: int, former: Plan, target: Plan)
    requires Inv(s) && OnTheWay(s, cycle, former, target) && forall c | c in cs :: Allowed(c) && LeavesPlan(c)
    ensures OnTheWay(Run(s, cs), cycle, former, target)
  {
    if cs != [] {
      var init := cs[..|cs| - 1];
      hide Inv, Step, Allowed, OnTheWay, LeavesPlan;
      RunOnTheWay(s, init, cycle, former, target);
      RunKeeps(s, init);
      StepOnTheWay(Run(s, init), cs[|cs| - 1], cycle, former, target);
    }
  }

  /**
   * A downgrade that was answered as scheduled: whatever else the user does,
   * the plan in force at every later instant is the old one within the cycle in
   * which it was asked for, and the new one in every later cycle.
   */
  lemma DowngradeTakesEffect(s: State, target: Plan, key: Key, now: int, tag: nat, cs: seq<Call>, later: int)
    requires Inv(s) && key !in s.operations && !key.MasterCommand? && ChangePlan(s, target, key, now, tag).Ok?
    requires ChangePlan(s, target, key, now, tag).value.1.operation.outcome.Scheduled?
    requires forall c | c in cs :: Allowed(c) && LeavesPlan(c)
    requires var u := Run(ChangePlan(s, target, key, now, tag).value.0, cs);
             AsOf(u) <= later && BoundsAt(u.user.signedUpAt, later).Ok?
    ensures BoundsAt(s.user.signedUpAt, now).Ok? && (s.account.Some? ==> s.cycles != [])
    ensures var u := Run(ChangePlan(s, target, key, now, tag).value.0, cs);
            var asked, b := BoundsAt(s.user.signedUpAt, now).value, BoundsAt(u.user.signedUpAt, later).value;
            && u.account.Some? && u.cycles != [] && asked.index <= b.index
            && PlanInForce(u, b) == if b.index == asked.index then PlanInForce(s, asked) else target
  {
    hide Core, EnsureCycle, BoundsAt, ChangePlan, Run, PolicyOf, Coherent, BaseRow, OnTheWay, PlanInForce;
    ChangePlanMeans(s, target, key, now, tag);
    var t := ChangePlan(s, target, key, now, tag).value.0;
    StepKeeps(s, CallChangePlan(target, key, now, tag)) by { assert Allowed(CallChangePlan(target, key, now, tag)); }
    assert Step(s, CallChangePlan(target, key, now, tag)) == t;
    var asked := BoundsAt(s.user.signedUpAt, now).value;
    ScheduledSetsOut(s, target, key, now, tag);
    RunOnTheWay(t, cs, asked.index, PlanInForce(s, asked), target);
    RunKeeps(t, cs);
    WhereItIs(Run(t, cs), later, asked.index, PlanInForce(s, asked), target);
  }

  lemma ScheduledSetsOut(s: State, target: Plan, key: Key, now: int, tag: nat)
    requires Inv(s) && key !in s.operations && ChangePlan(s, target, key, now, tag).Ok?
    requires ChangePlan(s, target, key, now, tag).value.1.operation.outcome.Scheduled?
    ensures BoundsAt(s.user.signedUpAt, now).Ok? && (s.account.Some? ==> s.cycles != [])
    ensures var asked := BoundsAt(s.user.signedUpAt, now).value;
            OnTheWay(ChangePlan(s, target, key, now, tag).value.0, asked.index, PlanInForce(s, asked), target)
  {
    hide Core, EnsureCycle, BoundsAt, ChangePlan, PolicyOf, PlanInForce, PendingInForce;
    ChangePlanMeans(s, target, key, now, tag);
    EnsureKeeps(s, now, tag);
    EnsureSpelledOut(s, now, tag);
  }

  lemma WhereItIs(u: State, later: int, cycle: int, former: Plan, target: Plan)
    requires Inv(u) && OnTheWay(u, cycle, former, target) && AsOf(u) <= later && BoundsAt(u.user.signedUpAt, later).Ok?
    ensures var b := BoundsAt(u.user.signedUpAt, later).value;
            u.account.Some? && u.cycles != [] && cycle <= b.index && PlanInForce(u, b) == if b.index == cycle then former else target
  {
    hide Core, BoundsAt, Coherent, BaseRow;
    InvCoherent(u);
    ClockGuardUnreachable(u, later);
  }
}
