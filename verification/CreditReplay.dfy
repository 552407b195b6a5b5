/** Idempotency: what is recorded stays recorded, so repeating a call answers with the original receipt and changes nothing. */
module CreditReplay {
  import opened Prelude
  import opened Sorting
  import opened CreditPolicy
  import opened CreditRecords
  import opened CreditLifecycle
  import opened CreditAccounting
  import opened CreditInvariant
  import opened LifecycleInvariant
  import opened AccountingInvariant
  import opened SettlementInvariant
  import opened TerminalCalls
  import opened MasterAdmin
  import opened CreditHistory

  /** A reservation row after more history: same terms, and closed at most once. */
  predicate SameReservation(r: Reservation, q: Reservation) {
    && q == r.(terminal := q.terminal)
    && (r.terminal.Some? ==> q.terminal == r.terminal)
  }

  /** `t` is a later state of the same user: nothing recorded has been changed or lost. */
  ghost predicate Extends(s: State, t: State) {
    && t.user.signedUpAt == s.user.signedUpAt
    && |s.reservations| <= |t.reservations|
    && (forall r | 0 <= r < |s.reservations| :: SameReservation(s.reservations[r], t.reservations[r]))
    && (forall k | k in s.operations :: k in t.operations && t.operations[k] == s.operations[k])
    && (forall a | a in s.audits :: a in t.audits && t.audits[a] == s.audits[a])
  }

  lemma ExtendsTransitive(s: State, t: State, u: State)
    requires Extends(s, t) && Extends(t, u)
    ensures Extends(s, u)
  {
    forall r | 0 <= r < |s.reservations|
      ensures SameReservation(s.reservations[r], u.reservations[r])
    {
      assert SameReservation(s.reservations[r], t.reservations[r]);
      assert SameReservation(t.reservations[r], u.reservations[r]);
    }
  }

  lemma SelfExtends(s: State)
    ensures Extends(s, s)
  {
    assert forall r | 0 <= r < |s.reservations| :: SameReservation(s.reservations[r], s.reservations[r]);
  }

  lemma EnsureExtends(s: State, now: int, tag: nat)
    requires EnsureCycle(s, now, tag).Ok?
    ensures Extends(s, EnsureCycle(s, now, tag).value.state)
    ensures EnsureCycle(s, now, tag).value.state.user == s.user
    ensures EnsureCycle(s, now, tag).value.state.operations == s.operations
    ensures EnsureCycle(s, now, tag).value.state.reservations == s.reservations
    ensures EnsureCycle(s, now, tag).value.state.audits == s.audits
  {
    hide PostAll, ExpireEvents, Bases, Latest, SumOf, BoundsAt, EnsureGuard, Coherent, BaseRow, OpenGrant, PolicyOf;
  }

  lemma ChangePlanExtends(s: State, target: Plan, key: Key, now: int, tag: nat)
    requires ChangePlan(s, target, key, now, tag).Ok?
    ensures var (t, receipt) := ChangePlan(s, target, key, now, tag).value;
            && Extends(s, t) && t.user == s.user && t.audits == s.audits
            && key in t.operations && t.operations[key] == receipt.operation
            && receipt.key == key && receipt.operation.payload == PlanChange(target)
            && s.user.signedUpAt <= now
  {
    hide EnsureCycle, Capacity, PolicyOf, Post;
    if key !in s.operations {
      EnsureExtends(s, now, tag);
    }
  }

  lemma GrantBonusExtends(s: State, amount: int, expiresAt: Option<int>, reason: nat, key: Key, now: int, tag: nat, bonusTag: nat)
    requires GrantBonus(s, amount, expiresAt, reason, key, now, tag, bonusTag).Ok?
    ensures var (t, receipt) := GrantBonus(s, amount, expiresAt, reason, key, now, tag, bonusTag).value;
            && Extends(s, t) && t.user == s.user && t.audits == s.audits
            && key in t.operations && t.operations[key] == receipt.operation
            && receipt.key == key && receipt.operation.payload == BonusGrant(amount, expiresAt, reason)
            && 0 < amount <= MAX_BIGINT
  {
    hide EnsureCycle, Capacity, OpenGrant;
    if key !in s.operations {
      EnsureExtends(s, now, tag);
    }
  }

  lemma AdministerExtends(s: State, request: nat, actor: nat, action: AdminAction, reason: nat, now: int, tag: nat)
    requires Administer(s, request, actor, action, reason, now, tag).Ok?
    ensures var t := Administer(s, request, actor, action, reason, now, tag).value;
            && Extends(s, t) && request in t.audits && t.audits[request] == Audit(actor, action, reason)
  {
    hide EnsureCycle, ChangePlan, GrantBonus;
    if request !in s.audits {
      EnsureExtends(s, now, tag);
      var e := EnsureCycle(s, now, tag).value.state;
      match action {
        case Promote => ChangePlanExtends(e, Max, MasterCommand(request), now, tag);
        case AdminPlan(target) => ChangePlanExtends(e, target, MasterCommand(request), now, tag);
        case AdminBonus(amount, expiresAt) => GrantBonusExtends(e, amount, expiresAt, reason, MasterCommand(request), now, tag, tag);
      }
      ExtendsTransitive(s, e, Act(e, request, action, reason, now, tag).value.0);
    }
  }

  lemma ReserveExtends(s: State, key: Key, raw: seq<Estimate>, now: int, tag: nat, scan: Scan)
    requires Core(s) && Started(s) && Reserve(s, key, raw, now, tag, scan).Ok?
    ensures var (t, receipt) := Reserve(s, key, raw, now, tag, scan).value;
            && Extends(s, t) && ValidEstimates(raw)
            && receipt.reservation < |t.reservations|
            && var r := t.reservations[receipt.reservation];
            && r.key == key == receipt.key && r.total == receipt.total
            && SameEstimates(r.items, Sort(raw, EstimateLeq))
            && (receipt.replayed <==> FindReserved(s.reservations, key).Some?)
            && (receipt.replayed ==> t == s)
            && (!receipt.replayed ==> r.Held() && receipt.reservation == |s.reservations| == |t.reservations| - 1)
  {
    hide Core, Started, EnsureCycle;
    if FindReserved(s.reservations, key).None? {
      SortedEstimates(raw);
      EnsureKeeps(s, now, tag);
      EnsureExtends(s, now, tag);
      AdmitKeeps(EnsureCycle(s, now, tag).value.state, key, Sort(raw, EstimateLeq), now, scan);
      AdmitReceipt(EnsureCycle(s, now, tag).value.state, key, Sort(raw, EstimateLeq), now, scan);
      hide Admit;
      var e := EnsureCycle(s, now, tag).value.state;
      var t := Reserve(s, key, raw, now, tag, scan).value.0;
      assert forall r | 0 <= r < |s.reservations| :: t.reservations[r] == t.reservations[..|s.reservations|][r];
    }
  }

  lemma AdmitReceipt(s: State, key: Key, es: seq<Estimate>, now: int, scan: Scan)
    requires s.account.Some? && Admit(s, key, es, now, scan).Ok?
    ensures var (t, receipt) := Admit(s, key, es, now, scan).value;
            && receipt.reservation == |s.reservations| < |t.reservations|
            && receipt.key == key && !receipt.replayed
            && t.reservations[receipt.reservation].total == receipt.total
  {
    hide SumOf, Quotes, Allocate, Priority, PostAll, ScanFault;
  }

  lemma TerminateExtends(s: State, rid: nat, lines: seq<UsageLine>, delivery: Delivery, reason: Reason, key: Key, now: int, charge: bool, scan: Scan)
    requires Core(s) && Started(s) && ValidLines(lines, true)
    requires (charge <==> !delivery.NoDeliverable?) && (charge <==> reason.UsageSettled?)
    requires Terminate(s, rid, lines, delivery, reason, key, now, charge, scan).Ok?
    ensures var (t, receipt) := Terminate(s, rid, lines, delivery, reason, key, now, charge, scan).value;
            && Extends(s, t)
            && rid < |t.reservations| && t.reservations[rid].terminal.Some?
            && var terminal := t.reservations[rid].terminal.value;
            && terminal.key == key && terminal.settled == charge && terminal.delivery == delivery && terminal.reason == reason
            && SameLines(terminal.records, lines)
            && TerminalReceiptOf(t.reservations[rid], rid, receipt.replayed) == Ok(receipt)
            && (receipt.replayed ==> t == s)
            && (!receipt.replayed ==> s.reservations[rid].Held())
  {
    hide Core, Started, Close, LedgerCheck, SameReservation, SameLines, TerminalReceiptOf, ReservationCoherent;
    if FindTerminal(s.reservations, key).None? {
      CloseExtends(s, rid, lines, delivery, reason, key, now, charge);
    } else {
      SelfExtends(s);
      ReceiptSays(s.reservations[FindTerminal(s.reservations, key).value], rid);
    }
  }

  lemma ReceiptSays(r: Reservation, rid: nat)
    requires r.terminal.Some?
    ensures TerminalReceiptOf(r, rid, true).Ok? ==> TerminalReceiptOf(r, rid, true).value.replayed
  {
  }

  lemma CloseExtends(s: State, rid: nat, lines: seq<UsageLine>, delivery: Delivery, reason: Reason, key: Key, now: int, charge: bool)
    requires Core(s) && Started(s) && s.account.Some? && ValidLines(lines, true)
    requires (charge <==> !delivery.NoDeliverable?) && (charge <==> reason.UsageSettled?)
    requires FindTerminal(s.reservations, key).None?
    requires Close(s, rid, lines, delivery, reason, key, now, charge).Ok?
    ensures var (t, receipt) := Close(s, rid, lines, delivery, reason, key, now, charge).value;
            && Extends(s, t)
            && rid < |s.reservations| == |t.reservations| && s.reservations[rid].Held()
            && !receipt.replayed
            && t.reservations[rid].terminal.Some?
            && var terminal := t.reservations[rid].terminal.value;
            && terminal.key == key && terminal.settled == charge && terminal.delivery == delivery && terminal.reason == reason
            && SameLines(terminal.records, lines)
            && TerminalReceiptOf(t.reservations[rid], rid, receipt.replayed) == Ok(receipt)
  {
    hide Core, Started, Close, Charges, SumOf, PostAll, TerminalEvents, FindTerminal, TerminalReceiptOf, QuotedItems, SameReservation;
    CloseTotal(s, rid, lines, delivery, reason, key, now, charge);
    CloseEffect(s, rid, lines, delivery, reason, key, now, charge);
    RowQuoted(s, rid);
    RecordMeters(lines, s.reservations[rid].items, charge);
    ClosedExtends(s, Close(s, rid, lines, delivery, reason, key, now, charge).value.0, rid);
  }

  lemma RowQuoted(s: State, rid: nat)
    requires Core(s) && rid < |s.reservations|
    ensures QuotedItems(s.reservations[rid].items)
  {
    hide Core;
    RowOk(s, rid);
  }

  lemma ClosedExtends(s: State, t: State, rid: nat)
    requires rid < |s.reservations| == |t.reservations| && s.reservations[rid].Held()
    requires t == s.(reservations := t.reservations, book := t.book)
    requires t.reservations == s.reservations[rid := s.reservations[rid].(terminal := t.reservations[rid].terminal)]
    ensures Extends(s, t)
  {
  }

  /** One call only ever extends the history. */
  lemma StepExtends(s: State, c: Call)
    requires Inv(s) && Allowed(c)
    ensures Extends(s, Step(s, c))
  {
    hide Core, Started, EnsureCycle, ChangePlan, GrantBonus, Administer, Reserve, Terminate, ValidLines;
    match c
    case CallEnsure(now, tag) =>
      if EnsureCycle(s, now, tag).Ok? { EnsureExtends(s, now, tag); }
    case CallChangePlan(target, key, now, tag) =>
      if ChangePlan(s, target, key, now, tag).Ok? { ChangePlanExtends(s, target, key, now, tag); }
    case CallGrantBonus(amount, expiresAt, reason, key, now, tag, bonusTag) =>
      if GrantBonus(s, amount, expiresAt, reason, key, now, tag, bonusTag).Ok? {
        GrantBonusExtends(s, amount, expiresAt, reason, key, now, tag, bonusTag);
      }
    case CallAdminister(request, actor, action, reason, now, tag) =>
      if Administer(s, request, actor, action, reason, now, tag).Ok? { AdministerExtends(s, request, actor, action, reason, now, tag); }
    case CallSetStatus(status) =>
    case CallReserve(key, estimates, now, tag, scan) =>
      if Reserve(s, key, estimates, now, tag, scan).Ok? { ReserveExtends(s, key, estimates, now, tag, scan); }
    case CallSettle(rid, usage, delivery, key, now, scan) =>
      if Settle(s, rid, usage, delivery, key, now, scan).Ok? {
        SortedLines(usage, false);
        LinesWeaken(usage);
        TerminateExtends(s, rid, Sort(usage, LineLeq), delivery, UsageSettled, key, now, true, scan);
      }
    case CallRelease(rid, usage, reason, key, now, scan) =>
      if Release(s, rid, usage, reason, key, now, scan).Ok? {
        SortedLines(usage, true);
        TerminateExtends(s, rid, Sort(usage, LineLeq), NoDeliverable, reason, key, now, false, scan);
      }
  }

  lemma LinesWeaken(usage: seq<UsageLine>)
    requires ValidLines(Sort(usage, LineLeq), false)
    ensures ValidLines(Sort(usage, LineLeq), true)
  {
    hide Sort;
  }

  lemma {:induction false} RunExtends(s: State, cs: seq<Call>)
    requires Inv(s) && forall c | c in cs :: Allowed(c)
    ensures Extends(s, Run(s, cs))
  {
    if cs != [] {
      var init := cs[..|cs| - 1];
      hide Inv, Step, Allowed, SameReservation;
      RunExtends(s, init);
      RunKeeps(s, init);
      StepExtends(Run(s, init), cs[|cs| - 1]);
      ExtendsTransitive(s, Run(s, init), Run(s, cs));
    } else {
      SelfExtends(s);
    }
  }

  // ---------------------------------------------------------------- replay after any history

  /** Repeating a plan change after any history: the original receipt, nothing changed; any other use of the key, for a plan or a bonus, is refused. */
  lemma ChangePlanReplay(s: State, target: Plan, key: Key, now: int, tag: nat, cs: seq<Call>, later: int, tag': nat,
                         target': Plan, amount: int, expiresAt: Option<int>, reason: nat)
    requires Inv(s) && !key.MasterCommand? && (forall c | c in cs :: Allowed(c))
    requires ChangePlan(s, target, key, now, tag).Ok?
    requires s.user.signedUpAt <= later && 0 < amount <= MAX_BIGINT
    ensures var (t, receipt) := ChangePlan(s, target, key, now, tag).value;
            var u := Run(t, cs);
            && ChangePlan(u, target', key, later, tag')
               == (if target' == target then Ok((u, receipt.(replayed := true))) else Err(IdempotencyConflict))
            && GrantBonus(u, amount, expiresAt, reason, key, later, tag', tag') == Err(IdempotencyConflict)
  {
    hide Core, Started, EnsureCycle;
    var t := ChangePlan(s, target, key, now, tag).value.0;
    ChangePlanExtends(s, target, key, now, tag);
    assert Inv(t) by {
      StepKeeps(s, CallChangePlan(target, key, now, tag));
    }
    RunExtends(t, cs);
  }

  /** The same for a bonus: any other amount, expiry or reason under its key is refused, and so is a plan change. */
  lemma GrantBonusReplay(s: State, amount: int, expiresAt: Option<int>, reason: nat, key: Key, now: int, tag: nat, bonusTag: nat,
                         cs: seq<Call>, later: int, tag': nat, amount': int, expiresAt': Option<int>, reason': nat, target: Plan)
    requires Inv(s) && !key.MasterCommand? && (forall c | c in cs :: Allowed(c))
    requires GrantBonus(s, amount, expiresAt, reason, key, now, tag, bonusTag).Ok?
    requires s.user.signedUpAt <= later && 0 < amount' <= MAX_BIGINT
    ensures var (t, receipt) := GrantBonus(s, amount, expiresAt, reason, key, now, tag, bonusTag).value;
            var u := Run(t, cs);
            && GrantBonus(u, amount', expiresAt', reason', key, later, tag', tag')
               == (if amount' == amount && expiresAt' == expiresAt && reason' == reason then Ok((u, receipt.(replayed := true)))
                   else Err(IdempotencyConflict))
            && ChangePlan(u, target, key, later, tag') == Err(IdempotencyConflict)
  {
    hide Core, Started, EnsureCycle;
    var t := GrantBonus(s, amount, expiresAt, reason, key, now, tag, bonusTag).value.0;
    GrantBonusExtends(s, amount, expiresAt, reason, key, now, tag, bonusTag);
    assert Inv(t) by {
      StepKeeps(s, CallGrantBonus(amount, expiresAt, reason, key, now, tag, bonusTag));
    }
    RunExtends(t, cs);
  }

  /** An audited command answers its repetition and refuses a different actor, action or reason under the same request. */
  lemma AdministerReplay(s: State, request: nat, actor: nat, action: AdminAction, reason: nat, now: int, tag: nat,
                         cs: seq<Call>, actor': nat, action': AdminAction, reason': nat, later: int, tag': nat)
    requires Inv(s) && (forall c | c in cs :: Allowed(c)) && ValidAction(action')
    requires Administer(s, request, actor, action, reason, now, tag).Ok?
    ensures var u := Run(Administer(s, request, actor, action, reason, now, tag).value, cs);
            Administer(u, request, actor', action', reason', later, tag')
            == if Audit(actor', action', reason') == Audit(actor, action, reason) then Ok(u) else Err(MasterConflict)
  {
    hide Core, Started, EnsureCycle;
    var t := Administer(s, request, actor, action, reason, now, tag).value;
    AdministerExtends(s, request, actor, action, reason, now, tag);
    AdministerKeeps(s, request, actor, action, reason, now, tag);
    RunExtends(t, cs);
  }

  /** A repeated reserve finds the row it made, whatever happened since. */
  lemma ReserveReplay(s: State, key: Key, raw: seq<Estimate>, now: int, tag: nat, scan: Scan,
                      cs: seq<Call>, raw': seq<Estimate>, later: int, tag': nat, scan': Scan)
    requires Inv(s) && (forall c | c in cs :: Allowed(c)) && ValidEstimates(raw')
    requires Reserve(s, key, raw, now, tag, scan).Ok?
    ensures var (t, receipt) := Reserve(s, key, raw, now, tag, scan).value;
            var u := Run(t, cs);
            && (multiset(raw') == multiset(raw) ==> Reserve(u, key, raw', later, tag', scan') == Ok((u, receipt.(replayed := true))))
            && (multiset(raw') != multiset(raw) ==> Reserve(u, key, raw', later, tag', scan') == Err(IdempotencyConflict))
  {
    hide Started, Reserve, Sort, ValidEstimates, LedgerOk, GrantsOk, Run;
    var (t, receipt) := Reserve(s, key, raw, now, tag, scan).value;
    ReserveExtends(s, key, raw, now, tag, scan);
    assert Inv(t) by {
      StepKeeps(s, CallReserve(key, raw, now, tag, scan));
    }
    RunExtends(t, cs);
    RunKeeps(t, cs);
    var u := Run(t, cs);
    assert SameReservation(t.reservations[receipt.reservation], u.reservations[receipt.reservation]);
    ReserveAgain(u, receipt.reservation, raw, raw', later, tag', scan');
  }

  lemma ReserveAgain(u: State, r: nat, raw: seq<Estimate>, raw': seq<Estimate>, later: int, tag': nat, scan': Scan)
    requires ReservationsOk(u) && r < |u.reservations| && ValidEstimates(raw')
    requires SameEstimates(u.reservations[r].items, Sort(raw, EstimateLeq))
    ensures var q := u.reservations[r];
            Reserve(u, q.key, raw', later, tag', scan')
            == if multiset(raw') == multiset(raw) then Ok((u, ReservationReceipt(r, q.key, q.total, true))) else Err(IdempotencyConflict)
  {
    hide EnsureCycle, Sort, ValidEstimates;
    ReservedRowUnique(u, u.reservations[r].key, r);
    SameSorted(raw, raw', u.reservations[r].items);
  }

  lemma ReservedRowUnique(s: State, key: Key, r: nat)
    requires ReservationsOk(s) && r < |s.reservations| && s.reservations[r].key == key
    ensures FindReserved(s.reservations, key) == Some(r)
  {
    var found := FindReserved(s.reservations, key);
    assert found.Some? && s.reservations[found.value].key == s.reservations[r].key;
  }

  lemma EstimateOrder()
    ensures TotalOrder(EstimateLeq)
  {
  }

  /** Two valid requests match the same stored items exactly when they ask for the same lines, in any order. */
  lemma SameSorted(raw: seq<Estimate>, raw': seq<Estimate>, items: seq<Item>)
    requires SameEstimates(items, Sort(raw, EstimateLeq))
    ensures SameEstimates(items, Sort(raw', EstimateLeq)) <==> multiset(raw') == multiset(raw)
  {
    if multiset(raw') == multiset(raw) {
      EstimateOrder();
      SortOrderIndependent(raw, raw', EstimateLeq);
    } else if SameEstimates(items, Sort(raw', EstimateLeq)) {
      var a, b := Sort(raw, EstimateLeq), Sort(raw', EstimateLeq);
      assert |a| == |b| && forall i | 0 <= i < |a| :: a[i] == b[i];
      assert a == b;
      SortPermutes(raw, EstimateLeq);
      SortPermutes(raw', EstimateLeq);
    }
  }

  lemma TerminalRowUnique(s: State, key: Key, r: nat)
    requires ReservationsOk(s) && r < |s.reservations|
    requires s.reservations[r].terminal.Some? && s.reservations[r].terminal.value.key == key
    ensures FindTerminal(s.reservations, key) == Some(r)
  {
    var found := FindTerminal(s.reservations, key);
    assert found.Some? && s.reservations[found.value].terminal.value.key == s.reservations[r].terminal.value.key;
  }

  /**
   * A repeated settle or release answers with the original receipt; the same
   * key with anything else (another reservation, outcome, reason or usage) is
   * refused. Either way nothing changes. Before either answer the ledger
   * comparison may refuse.
   */
  lemma TerminateReplay(s: State, rid: nat, lines: seq<UsageLine>, delivery: Delivery, reason: Reason, key: Key, now: int, charge: bool, scan: Scan,
                        cs: seq<Call>, rid': nat, lines': seq<UsageLine>, delivery': Delivery, reason': Reason, charge': bool, later: int, scan': Scan)
    requires Inv(s) && (forall c | c in cs :: Allowed(c)) && ValidLines(lines, true)
    requires (charge <==> !delivery.NoDeliverable?) && (charge <==> reason.UsageSettled?)
    requires Terminate(s, rid, lines, delivery, reason, key, now, charge, scan).Ok?
    ensures var (t, receipt) := Terminate(s, rid, lines, delivery, reason, key, now, charge, scan).value;
            var u := Run(t, cs);
            var check := LedgerCheck(scan'(u.book.ledger), u.book.grants);
            Terminate(u, rid', lines', delivery', reason', key, later, charge', scan')
            == if check.Fail? then Err(check.error)
               else if rid' == rid && lines' == lines && delivery' == delivery && reason' == reason && charge' == charge
               then Ok((u, receipt.(replayed := true)))
               else Err(IdempotencyConflict)
  {
    hide Core, Started, Terminate, SameLines, TerminalReceiptOf, Run, SumOf, LedgerCheck;
    var (t, receipt) := Terminate(s, rid, lines, delivery, reason, key, now, charge, scan).value;
    TerminateExtends(s, rid, lines, delivery, reason, key, now, charge, scan);
    TerminateKeeps(s, rid, lines, delivery, reason, key, now, charge, scan);
    RunExtends(t, cs);
    RunKeeps(t, cs);
    var u := Run(t, cs);
    assert SameReservation(t.reservations[rid], u.reservations[rid]);
    ReceiptReplayed(u.reservations[rid], rid, receipt);
    TerminateAgain(u, rid, lines, rid', lines', delivery', reason', later, charge', scan');
  }

  lemma ReceiptReplayed(r: Reservation, rid: nat, receipt: TerminalReceipt)
    requires r.terminal.Some? && TerminalReceiptOf(r, rid, receipt.replayed) == Ok(receipt)
    ensures TerminalReceiptOf(r, rid, true) == Ok(receipt.(replayed := true))
  {
    hide SumOf;
  }

  /** What a terminal call under an already used key does. */
  lemma TerminateAgain(u: State, rid: nat, lines: seq<UsageLine>,
                       rid': nat, lines': seq<UsageLine>, delivery': Delivery, reason': Reason, later: int, charge': bool, scan': Scan)
    requires Core(u) && Started(u) && rid < |u.reservations| && u.reservations[rid].terminal.Some?
    requires SameLines(u.reservations[rid].terminal.value.records, lines)
    requires TerminalReceiptOf(u.reservations[rid], rid, true).Ok?
    ensures var q := u.reservations[rid].terminal.value;
            var check := LedgerCheck(scan'(u.book.ledger), u.book.grants);
            Terminate(u, rid', lines', delivery', reason', q.key, later, charge', scan')
            == if check.Fail? then Err(check.error)
               else if rid' == rid && lines' == lines && delivery' == q.delivery && reason' == q.reason && charge' == q.settled
               then Ok((u, TerminalReceiptOf(u.reservations[rid], rid, true).value))
               else Err(IdempotencyConflict)
  {
    var q := u.reservations[rid].terminal.value;
    TerminalRowUnique(u, q.key, rid);
    ReservationOkCoherent(u, rid);
    SomeRowMeansOpen(u);
    SameLinesUnique(q.records, lines, lines');
    hide Core, Started, LedgerCheck, FindTerminal, ReservationCoherent, SameLines, Close, SumOf, TerminalReceiptOf;
  }

  lemma SameLinesUnique(records: seq<UsageRecord>, lines: seq<UsageLine>, lines': seq<UsageLine>)
    requires SameLines(records, lines)
    ensures SameLines(records, lines') <==> lines' == lines
  {
    if SameLines(records, lines') {
      assert forall i | 0 <= i < |lines| :: lines[i] == lines'[i];
    }
  }

  /** A reservation leaves `held` once: after that, no call changes its row. */
  lemma ClosedForGood(s: State, rid: nat, cs: seq<Call>)
    requires Inv(s) && (forall c | c in cs :: Allowed(c))
    requires rid < |s.reservations| && !s.reservations[rid].Held()
    ensures rid < |Run(s, cs).reservations| && Run(s, cs).reservations[rid] == s.reservations[rid]
  {
    RunExtends(s, cs);
    assert SameReservation(s.reservations[rid], Run(s, cs).reservations[rid]);
  }
}
