/** Runs: every sequence of calls on one user's rows, and what every such run keeps. */
module CreditHistory {
  import opened Prelude
  import opened Sorting
  import opened CreditPolicy
  import opened CreditRecords
  import opened CreditLifecycle
  import opened CreditAccounting
  import opened CreditInvariant
  import opened LifecycleInvariant
  import opened AccountingInvariant
  import opened TerminalCalls
  import opened MasterAdmin

  datatype Call =
    | CallEnsure(now: int, tag: nat)
    | CallChangePlan(target: Plan, key: Key, now: int, tag: nat)
    | CallGrantBonus(amount: int, expiresAt: Option<int>, note: nat, key: Key, now: int, tag: nat, bonusTag: nat)
    | CallAdminister(request: nat, actor: nat, action: AdminAction, note: nat, now: int, tag: nat)
    | CallSetStatus(status: Status)
    | CallReserve(key: Key, estimates: seq<Estimate>, now: int, tag: nat, scan: Scan)
    | CallSettle(rid: nat, usage: seq<UsageLine>, delivery: Delivery, key: Key, now: int, scan: Scan)
    | CallRelease(rid: nat, usage: seq<UsageLine>, reason: Reason, key: Key, now: int, scan: Scan)

  /** Only administration uses its own key prefix. */
  ghost predicate Allowed(c: Call) {
    (c.CallChangePlan? || c.CallGrantBonus?) ==> !c.key.MasterCommand?
  }

  /** An error rolls the savepoint back: the state is the old one. */
  function Committed<R, E>(s: State, r: Result<(State, R), E>): State {
    if r.Ok? then r.value.0 else s
  }

  ghost function Step(s: State, c: Call): State {
    match c
    case CallEnsure(now, tag) =>
      var r := EnsureCycle(s, now, tag);
      if r.Ok? then r.value.state else s
    case CallChangePlan(target, key, now, tag) => Committed(s, ChangePlan(s, target, key, now, tag))
    case CallGrantBonus(amount, expiresAt, reason, key, now, tag, bonusTag) =>
      Committed(s, GrantBonus(s, amount, expiresAt, reason, key, now, tag, bonusTag))
    case CallAdminister(request, actor, action, reason, now, tag) =>
      var r := Administer(s, request, actor, action, reason, now, tag);
      if r.Ok? then r.value else s
    case CallSetStatus(status) => s.(user := s.user.(status := status))
    case CallReserve(key, estimates, now, tag, scan) => Committed(s, Reserve(s, key, estimates, now, tag, scan))
    case CallSettle(rid, usage, delivery, key, now, scan) => Committed(s, Settle(s, rid, usage, delivery, key, now, scan))
    case CallRelease(rid, usage, reason, key, now, scan) => Committed(s, Release(s, rid, usage, reason, key, now, scan))
  }

  ghost function Run(s: State, cs: seq<Call>): State {
    if cs == [] then s else Step(Run(s, cs[..|cs| - 1]), cs[|cs| - 1])
  }

  /** A user who has just signed up. */
  function SignedUp(user: User): State {
    State(user, None, [], Book([], []), [], map[], map[])
  }

  lemma SignedUpInv(user: User)
    ensures Inv(SignedUp(user))
  {
  }

  lemma StatusKeeps(s: State, status: Status)
    requires Inv(s)
    ensures Inv(s.(user := s.user.(status := status)))
  {
    if s.account.Some? {
      CoreFrame(s, s.(user := s.user.(status := status)));
    }
  }

  lemma StepKeeps(s: State, c: Call)
    requires Inv(s) && Allowed(c)
    ensures Inv(Step(s, c))
  {
    hide Core, Started, EnsureCycle, ChangePlan, GrantBonus, Administer, Reserve, Terminate, ValidLines;
    match c
    case CallEnsure(now, tag) =>
      if EnsureCycle(s, now, tag).Ok? { EnsureKeeps(s, now, tag); }
    case CallChangePlan(target, key, now, tag) =>
      if ChangePlan(s, target, key, now, tag).Ok? {
        ChangePlanKeeps(s, target, key, now, tag);
        PlainKeyKeepsAudits(s, Step(s, c), key);
      }
    case CallGrantBonus(amount, expiresAt, reason, key, now, tag, bonusTag) =>
      if GrantBonus(s, amount, expiresAt, reason, key, now, tag, bonusTag).Ok? {
        GrantBonusKeeps(s, amount, expiresAt, reason, key, now, tag, bonusTag);
        PlainKeyKeepsAudits(s, Step(s, c), key);
      }
    case CallAdminister(request, actor, action, reason, now, tag) =>
      if Administer(s, request, actor, action, reason, now, tag).Ok? { AdministerKeeps(s, request, actor, action, reason, now, tag); }
    case CallSetStatus(status) => StatusKeeps(s, status);
    case CallReserve(key, estimates, now, tag, scan) =>
      if Reserve(s, key, estimates, now, tag, scan).Ok? { ReserveKeeps(s, key, estimates, now, tag, scan); }
    case CallSettle(rid, usage, delivery, key, now, scan) =>
      if Settle(s, rid, usage, delivery, key, now, scan).Ok? {
        SettleKeeps(s, rid, usage, delivery, key, now, scan);
      }
    case CallRelease(rid, usage, reason, key, now, scan) =>
      if Release(s, rid, usage, reason, key, now, scan).Ok? {
        ReleaseKeeps(s, rid, usage, reason, key, now, scan);
      }
  }

  lemma PlainKeyKeepsAudits(s: State, t: State, key: Key)
    requires AuditsOk(s) && t.audits == s.audits && t.operations.Keys == s.operations.Keys + {key} && !key.MasterCommand?
    ensures AuditsOk(t)
  {
    forall r | MasterCommand(r) in t.operations
      ensures r in t.audits
    {
      assert MasterCommand(r) in t.operations.Keys;
      assert MasterCommand(r) in s.operations.Keys;
    }
  }

  lemma SettleKeeps(s: State, rid: nat, usage: seq<UsageLine>, delivery: Delivery, key: Key, now: int, scan: Scan)
    requires Core(s) && Started(s) && Settle(s, rid, usage, delivery, key, now, scan).Ok?
    ensures var t := Settle(s, rid, usage, delivery, key, now, scan).value.0;
            Core(t) && Started(t) && t == s.(reservations := t.reservations, book := t.book)
  {
    hide Core, Started, Terminate;
    SortedLines(usage, false);
    TerminateKeeps(s, rid, Sort(usage, LineLeq), delivery, UsageSettled, key, now, true, scan);
  }

  lemma ReleaseKeeps(s: State, rid: nat, usage: seq<UsageLine>, reason: Reason, key: Key, now: int, scan: Scan)
    requires Core(s) && Started(s) && Release(s, rid, usage, reason, key, now, scan).Ok?
    ensures var t := Release(s, rid, usage, reason, key, now, scan).value.0;
            Core(t) && Started(t) && t == s.(reservations := t.reservations, book := t.book)
  {
    hide Core, Started, Terminate;
    SortedLines(usage, true);
    TerminateKeeps(s, rid, Sort(usage, LineLeq), NoDeliverable, reason, key, now, false, scan);
  }

  /** The invariant holds after every run of calls from sign-up. */
  lemma {:induction false} RunKeeps(s: State, cs: seq<Call>)
    requires Inv(s) && forall c | c in cs :: Allowed(c)
    ensures Inv(Run(s, cs))
  {
    if cs != [] {
      hide Inv, Step, Allowed;
      RunKeeps(s, cs[..|cs| - 1]);
      StepKeeps(Run(s, cs[..|cs| - 1]), cs[|cs| - 1]);
    }
  }

  ghost predicate Reachable(s: State) {
    exists user, cs :: (forall c | c in cs :: Allowed(c)) && s == Run(SignedUp(user), cs)
  }

  lemma ReachableInv(s: State)
    requires Reachable(s)
    ensures Inv(s)
  {
    var user, cs :| (forall c | c in cs :: Allowed(c)) && s == Run(SignedUp(user), cs);
    SignedUpInv(user);
    RunKeeps(SignedUp(user), cs);
  }
}
