/** Audited administration of one target account: promotion, plan change, bonus. */
module MasterAdmin {
  import opened Prelude
  import opened CreditPolicy
  import opened CreditRecords
  import opened CreditLifecycle
  import opened CreditInvariant
  import opened LifecycleInvariant

  datatype AdminError = MasterInputInvalid | MasterConflict | MasterUnavailable

  /** The largest bonus an administrator may grant in one command. */
  const MAX_ADMIN_BONUS: int := 9_000_000_000_000_000

  function Mapped(e: CreditError): AdminError {
    match e
    case InputInvalid => MasterInputInvalid
    case PlanRefused => MasterConflict
    case IdempotencyConflict => MasterConflict
    case _ => MasterUnavailable
  }

  predicate ValidAction(action: AdminAction) {
    action.AdminBonus? ==> 0 < action.amount <= MAX_ADMIN_BONUS
  }

  /** The lifecycle call an action makes on rows already brought up to date. */
  ghost function Act(s: State, request: nat, action: AdminAction, reason: nat, now: int, tag: nat)
    : Result<(State, MutationReceipt), CreditError>
  {
    match action
    case Promote => ChangePlan(s, Max, MasterCommand(request), now, tag)
    case AdminPlan(target) => ChangePlan(s, target, MasterCommand(request), now, tag)
    case AdminBonus(amount, expiresAt) => GrantBonus(s, amount, expiresAt, reason, MasterCommand(request), now, tag, tag)
  }

  function Promoted(s: State): State {
    s.(user := s.user.(role := Master))
  }

  /** `reason` stands for the audited reason code, which is also the bonus's reason. */
  ghost function Administer(s: State, request: nat, actor: nat, action: AdminAction, reason: nat, now: int, tag: nat)
    : Result<State, AdminError>
  {
    var valid := ValidAction(action);
    :- Need(valid, MasterInputInvalid);
    if request in s.audits then
      :- Need(s.audits[request] == Audit(actor, action, reason), MasterConflict);
      Ok(s)
    else
      :- Need(s.user.status.Active? && s.user.signedUpAt <= now, MasterConflict);
      match EnsureCycle(s, now, tag)
      case Err(error) => Err(Mapped(error))
      case Ok(e) =>
        match Act(e.state, request, action, reason, now, tag)
        case Err(error) => Err(Mapped(error))
        case Ok((t, _)) =>
          var u := if action.Promote? then Promoted(t) else t;
          Ok(u.(audits := u.audits[request := Audit(actor, action, reason)]))
  }

  /** Upgrading before the role change is what keeps a master on the top plan with nothing pending. */
  lemma AdministerKeeps(s: State, request: nat, actor: nat, action: AdminAction, reason: nat, now: int, tag: nat)
    requires Inv(s) && Administer(s, request, actor, action, reason, now, tag).Ok?
    ensures Inv(Administer(s, request, actor, action, reason, now, tag).value)
  {
    hide Core, Started, EnsureCycle, ChangePlan, GrantBonus, Act;
    if request !in s.audits {
      EnsureKeeps(s, now, tag);
      var e := EnsureCycle(s, now, tag).value.state;
      assert MasterCommand(request) !in e.operations;
      ActKeeps(e, request, action, reason, now, tag);
      AuditedKeeps(s, Act(e, request, action, reason, now, tag).value.0, request, Audit(actor, action, reason));
    }
  }

  lemma ActKeeps(s: State, request: nat, action: AdminAction, reason: nat, now: int, tag: nat)
    requires Core(s) && Started(s) && MasterCommand(request) !in s.operations
    requires Act(s, request, action, reason, now, tag).Ok?
    ensures var t := Act(s, request, action, reason, now, tag).value.0;
            && Core(t) && Started(t) && t.audits == s.audits
            && t.operations.Keys == s.operations.Keys + {MasterCommand(request)}
            && (action.Promote? ==> t.account.Some? && t.account.value.plan == Max && t.account.value.pending.None?)
  {
    hide Core, Started, EnsureCycle, ChangePlan, GrantBonus;
    var key := MasterCommand(request);
    match action {
      case Promote => ChangePlanKeeps(s, Max, key, now, tag);
      case AdminPlan(target) => ChangePlanKeeps(s, target, key, now, tag);
      case AdminBonus(amount, expiresAt) => GrantBonusKeeps(s, amount, expiresAt, reason, key, now, tag, tag);
    }
  }

  lemma AuditedKeeps(s: State, t: State, request: nat, audit: Audit)
    requires AuditsOk(s) && Core(t) && Started(t)
    requires t.audits == s.audits && t.operations.Keys == s.operations.Keys + {MasterCommand(request)}
    requires audit.action.Promote? ==> t.account.Some? && t.account.value.plan == Max && t.account.value.pending.None?
    ensures var u := if audit.action.Promote? then Promoted(t) else t; Inv(u.(audits := u.audits[request := audit]))
  {
    var u := if audit.action.Promote? then Promoted(t) else t;
    var v := u.(audits := u.audits[request := audit]);
    if t.account.Some? {
      CoreFrame(t, v);
    }
    assert t.account.None? ==> t.operations == map[];
    hide Core;
    forall r | MasterCommand(r) in v.operations
      ensures r in v.audits
    {
      assert MasterCommand(r) in t.operations.Keys;
      assert MasterCommand(r) in s.operations.Keys || r == request;
    }
  }

  /**
   * Changing the role first would not do: promoting a user who is not on the
   * top plan breaks the account's coherence, and the next renewal refuses.
   */
  lemma RoleBeforePlanFails(s: State, now: int, tag: nat)
    requires Inv(s) && s.account.Some? && s.account.value.plan != Max
    ensures EnsureCycle(Promoted(s), now, tag).Err?
  {
  }
}
