/**
 * What each lifecycle call does to one user's rows: lazy renewal, expiry, plan
 * changes and bonus grants. A call either yields the new state or an error, in
 * which case its savepoint is rolled back and the state is the old one.
 */
module CreditLifecycle {
  import opened Prelude
  import opened CreditPolicy
  import opened CreditRecords

  /** Row of the cycle with the highest index. */
  function Latest(cycles: seq<Cycle>): (row: nat)
    requires cycles != []
    ensures row < |cycles|
  {
    var n := |cycles| - 1;
    if n == 0 then 0
    else
      var p := Latest(cycles[..n]);
      if cycles[p].index < cycles[n].index then n else p
  }

  function LatestCycle(s: State): Cycle
    requires s.cycles != []
  {
    s.cycles[Latest(s.cycles)]
  }

  /** Rows of the base grants of cycle `c`. */
  function Bases(grants: seq<Grant>, c: nat): (rows: seq<nat>)
    ensures forall i | 0 <= i < |rows| :: rows[i] < |grants| && grants[rows[i]].kind == Base(c)
  {
    if grants == [] then []
    else
      var n := |grants| - 1;
      Bases(grants[..n], c) + if grants[n].kind == Base(c) then [n] else []
  }

  predicate Capacity(grants: seq<Grant>, increment: int) {
    var outstanding := SumOf(grants, OutstandingOf);
    0 <= outstanding && 0 <= increment && outstanding + increment <= MAX_BIGINT
  }

  /** The account, its latest cycle and that cycle's base grant agree. */
  predicate Coherent(s: State)
    requires s.account.Some?
  {
    var a := s.account.value;
    && a.anchor == s.user.signedUpAt
    && (a.pending.Some? ==> Rank(a.pending.value) < Rank(a.plan))
    && (s.user.role.Master? ==> a.plan == Max && a.pending.None?)
    && s.cycles != []
    && var c := LatestCycle(s);
    && BoundsAt(s.user.signedUpAt, c.startsAt) == Ok(CycleBounds(c.index, c.startsAt, c.endsAt))
    && c.plan == a.plan
    && c.allowance == PolicyOf(a.plan).allowance
    && var bases := Bases(s.book.grants, Latest(s.cycles));
    && |bases| == 1
    && s.book.grants[bases[0]].expiresAt == Some(c.endsAt)
    && s.book.grants[bases[0]].counters.granted == c.allowance
  }

  function BaseRow(s: State): nat
    requires s.account.Some? && Coherent(s)
  {
    Bases(s.book.grants, Latest(s.cycles))[0]
  }

  predicate Due(g: Grant, now: int) {
    g.ExpiredAt(now) && g.counters.Available() != 0
  }

  function ExpireEventOf(row: nat, g: Grant, now: int): Event {
    Event(row, ExpireEvent, ExpireOf(row), now, Counters(0, 0, 0, g.counters.Available()))
  }

  /** The expiry events of the first `n` grants. */
  function ExpireEvents(grants: seq<Grant>, now: int, n: nat): (es: seq<Event>)
    requires n <= |grants|
    ensures forall e | e in es :: e.grant < n
  {
    if n == 0 then []
    else
      ExpireEvents(grants, now, n - 1)
      + if Due(grants[n - 1], now) then [ExpireEventOf(n - 1, grants[n - 1], now)] else []
  }

  /** Time moves to `now`: what is due expires. */
  ghost function Aged(s: State, now: int): State
    requires s.account.Some?
  {
    s.(account := Some(s.account.value.(updatedAt := now)),
       book := PostAll(s.book, ExpireEvents(s.book.grants, now, |s.book.grants|)))
  }

  function Opened(s: State, now: int): State {
    s.(account := Some(Account(s.user.signedUpAt, if s.user.role.Master? then Max else Free, None, now, now)))
  }

  /** The plan of the next cycle. */
  function NextPlan(a: Account): Plan {
    a.pending.GetOr(a.plan)
  }

  function NewCycle(plan: Plan, b: CycleBounds, now: int): Cycle {
    Cycle(b.index, b.startsAt, b.endsAt, plan, PolicyOf(plan).allowance, now)
  }

  function NewBase(cycle: nat, plan: Plan, b: CycleBounds, now: int, tag: nat): Grant {
    Grant(Base(cycle), tag, now, Some(b.endsAt), Counters(PolicyOf(plan).allowance, 0, 0, 0))
  }

  /** The state after a call that brings the rows up to date, with the rows of the current cycle and its base grant. */
  datatype Current = Current(state: State, cycle: nat, base: nat)

  predicate Ready(e: Current) {
    && e.state.account.Some?
    && e.cycle < |e.state.cycles|
    && e.base < |e.state.book.grants|
  }

  /** A new cycle with its base grant; a pending downgrade takes effect. */
  function Renewed(s: State, b: CycleBounds, now: int, tag: nat): (r: Result<Current, CreditError>)
    requires s.account.Some?
    ensures r.Ok? ==> Ready(r.value)
  {
    var a := s.account.value;
    var plan := NextPlan(a);
    :- Need(Capacity(s.book.grants, PolicyOf(plan).allowance), AmountOverflow);
    Ok(Current(
         s.(account := Some(a.(plan := plan, pending := None)),
            cycles := s.cycles + [NewCycle(plan, b, now)],
            book := OpenGrant(s.book, NewBase(|s.cycles|, plan, b, now, tag), CycleBase(b.index), now)),
         |s.cycles|, |s.book.grants|))
  }

  function Checked(e: Current): Result<Current, CreditError> {
    var fits := Capacity(e.state.book.grants, 0);
    :- Need(fits, AmountOverflow);
    Ok(e)
  }

  /** The refusals before any row is touched. */
  function EnsureGuard(s: State, b: CycleBounds, now: int): (r: Check<CreditError>)
    ensures r.Pass? && s.account.Some? ==> Coherent(s)
  {
    if s.account.None? then
      Need(s.cycles == [] && s.book.grants == [], AccountInconsistent)
    else if now < s.account.value.updatedAt then
      Fail(ClockRegressed)
    else if !Coherent(s) then
      Fail(AccountInconsistent)
    else if b.index < LatestCycle(s).index then
      Fail(ClockRegressed)
    else
      Need(forall g | g in s.book.grants :: 0 <= g.counters.Available(), AccountInconsistent)
  }

  predicate NeedsCycle(s: State, b: CycleBounds)
    requires s.account.Some? ==> s.cycles != []
  {
    s.account.None? || LatestCycle(s).index < b.index
  }

  ghost function Prepared(s: State, now: int): (t: State)
    ensures t.account.Some?
  {
    if s.account.None? then Opened(s, now) else Aged(s, now)
  }

  ghost function EnsureCycle(s: State, now: int, tag: nat): (r: Result<Current, CreditError>)
    ensures r.Ok? ==> Ready(r.value)
  {
    var signedUp := s.user.signedUpAt <= now;
    :- Need(signedUp, InputInvalid);
    if BoundsAt(s.user.signedUpAt, now).Err? then Err(InputInvalid)
    else
      var b := BoundsAt(s.user.signedUpAt, now).value;
      :- EnsureGuard(s, b, now);
      if NeedsCycle(s, b) then
        var r :- Renewed(Prepared(s, now), b, now, tag);
        Checked(r)
      else
        Checked(Current(Prepared(s, now), Latest(s.cycles), BaseRow(s)))
  }

  // ---------------------------------------------------------------- commands

  datatype MutationReceipt = MutationReceipt(key: Key, operation: Operation, replayed: bool)

  /** A stored command answers its own repetition and refuses any other use of its key. */
  function Replay(s: State, key: Key, payload: Payload): Result<MutationReceipt, CreditError>
    requires key in s.operations
  {
    var same := s.operations[key].payload == payload;
    :- Need(same, IdempotencyConflict);
    Ok(MutationReceipt(key, s.operations[key], true))
  }

  function Recorded(s: State, key: Key, operation: Operation): (State, MutationReceipt) {
    (s.(operations := s.operations[key := operation]), MutationReceipt(key, operation, false))
  }

  function Upgrade(e: Current, target: Plan, key: Key, now: int): Result<State, CreditError>
    requires Ready(e)
  {
    var s := e.state;
    var allowance := PolicyOf(target).allowance;
    var delta := allowance - s.cycles[e.cycle].allowance;
    :- Need(Capacity(s.book.grants, delta), AmountOverflow);
    Ok(s.(account := Some(s.account.value.(plan := target, pending := None)),
          cycles := s.cycles[e.cycle := s.cycles[e.cycle].(plan := target, allowance := allowance)],
          book := Post(s.book, Event(e.base, AdjustEvent, Command(key), now, Counters(delta, 0, 0, 0)))))
  }

  function WithPending(s: State, pending: Option<Plan>): State
    requires s.account.Some?
  {
    s.(account := Some(s.account.value.(pending := pending)))
  }

  /** The plan change proper, on rows just brought up to date. */
  function PlanChanged(e: Current, target: Plan, key: Key, now: int): Result<(State, MutationReceipt), CreditError>
    requires Ready(e)
  {
    var a := e.state.account.value;
    var payload := PlanChange(target);
    if Rank(a.plan) < Rank(target) then
      var up :- Upgrade(e, target, key, now);
      Ok(Recorded(up, key, Operation(payload, now, e.cycle, Some(e.base), Upgraded)))
    else if Rank(target) < Rank(a.plan) then
      var outcome := if a.pending == Some(target) then Unchanged else Scheduled;
      Ok(Recorded(WithPending(e.state, Some(target)), key, Operation(payload, now, e.cycle, None, outcome)))
    else
      var outcome := if a.pending.Some? then Cancelled else Unchanged;
      Ok(Recorded(WithPending(e.state, None), key, Operation(payload, now, e.cycle, None, outcome)))
  }

  ghost function ChangePlan(s: State, target: Plan, key: Key, now: int, tag: nat)
    : Result<(State, MutationReceipt), CreditError>
  {
    var signedUp := s.user.signedUpAt <= now;
    :- Need(signedUp, InputInvalid);
    if key in s.operations then
      var receipt :- Replay(s, key, PlanChange(target));
      Ok((s, receipt))
    else
      :- Need(s.user.status.Active? && (s.user.role.Master? ==> target == Max), PlanRefused);
      var e :- EnsureCycle(s, now, tag);
      PlanChanged(e, target, key, now)
  }

  function BonusAdded(e: Current, amount: int, expiresAt: Option<int>, reason: nat, key: Key, now: int, tag: nat)
    : Result<(State, MutationReceipt), CreditError>
  {
    var s := e.state;
    :- Need(Capacity(s.book.grants, amount), AmountOverflow);
    var g := Grant(Bonus, tag, now, expiresAt, Counters(amount, 0, 0, 0));
    Ok(Recorded(s.(book := OpenGrant(s.book, g, Command(key), now)), key,
                Operation(BonusGrant(amount, expiresAt, reason), now, e.cycle, Some(|s.book.grants|), Granted)))
  }

  ghost function GrantBonus(s: State, amount: int, expiresAt: Option<int>, reason: nat, key: Key, now: int, tag: nat, bonusTag: nat)
    : Result<(State, MutationReceipt), CreditError>
  {
    var payable := 0 < amount <= MAX_BIGINT;
    :- Need(payable, InputInvalid);
    :- Need(s.user.signedUpAt <= now, InputInvalid);
    if key in s.operations then
      var receipt :- Replay(s, key, BonusGrant(amount, expiresAt, reason));
      Ok((s, receipt))
    else
      :- Need(s.user.status.Active?, PlanRefused);
      :- Need(expiresAt.Some? ==> now < expiresAt.value, InputInvalid);
      var e :- EnsureCycle(s, now, tag);
      BonusAdded(e, amount, expiresAt, reason, key, now, bonusTag)
  }
}
