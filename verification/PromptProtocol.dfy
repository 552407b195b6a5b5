/**
 * Credit-admitted prompt enhancement: one transaction reserves, the provider
 * is called outside any transaction, a second transaction stores the answer
 * and settles. Any number of tasks interleave, retry and crash, and a commit
 * may be reported as failed although it took effect.
 */
module PromptProtocol {
  import opened Prelude
  import opened Sorting
  import opened CreditPolicy
  import opened CreditRecords
  import opened CreditLifecycle
  import opened CreditAccounting
  import opened CreditInvariant
  import opened LifecycleInvariant
  import opened AccountingInvariant
  import opened TerminalCalls
  import opened MasterAdmin
  import opened CreditHistory
  import opened CreditReplay

  // ---------------------------------------------------------------- what one bank call does to the reservations

  predicate Opens(rs: seq<Reservation>, ts: seq<Reservation>, key: Key) {
    |ts| == |rs| + 1 && ts[..|rs|] == rs && ts[|rs|].key == key && ts[|rs|].Held()
  }

  predicate Closes(rs: seq<Reservation>, ts: seq<Reservation>, rid: nat, key: Key, settled: bool) {
    && rid < |rs| == |ts| && rs[rid].Held() && ts[rid].terminal.Some?
    && ts == rs[rid := rs[rid].(terminal := ts[rid].terminal)]
    && ts[rid].terminal.value.key == key && ts[rid].terminal.value.settled == settled
  }

  /** A call leaves the reservations alone, opens one, or closes the one it names. */
  predicate Moves(rs: seq<Reservation>, ts: seq<Reservation>, c: Call) {
    || ts == rs
    || (c.CallReserve? && Opens(rs, ts, c.key))
    || (c.CallSettle? && Closes(rs, ts, c.rid, c.key, true))
    || (c.CallRelease? && Closes(rs, ts, c.rid, c.key, false))
  }

  lemma StepMoves(s: State, c: Call)
    requires Inv(s) && Allowed(c)
    ensures Moves(s.reservations, Step(s, c).reservations, c)
  {
    hide Core, Started, EnsureCycle, ChangePlan, GrantBonus, Administer, Reserve, Settle, Release, ValidLines, ReservationsOk;
    match c
    case CallEnsure(now, tag) =>
      if EnsureCycle(s, now, tag).Ok? { EnsureExtends(s, now, tag); }
    case CallChangePlan(target, key, now, tag) =>
      if ChangePlan(s, target, key, now, tag).Ok? { ChangePlanRows(s, target, key, now, tag); }
    case CallGrantBonus(amount, expiresAt, reason, key, now, tag, bonusTag) =>
      if GrantBonus(s, amount, expiresAt, reason, key, now, tag, bonusTag).Ok? {
        GrantBonusRows(s, amount, expiresAt, reason, key, now, tag, bonusTag);
      }
    case CallAdminister(request, actor, action, reason, now, tag) =>
      if Administer(s, request, actor, action, reason, now, tag).Ok? { AdministerRows(s, request, actor, action, reason, now, tag); }
    case CallSetStatus(status) =>
    case CallReserve(key, estimates, now, tag, scan) =>
      if Reserve(s, key, estimates, now, tag, scan).Ok? { ReserveMoves(s, key, estimates, now, tag, scan); }
    case CallSettle(rid, usage, delivery, key, now, scan) =>
      if Settle(s, rid, usage, delivery, key, now, scan).Ok? {
        SettleMoves(s, rid, usage, delivery, key, now, scan);
      }
    case CallRelease(rid, usage, reason, key, now, scan) =>
      if Release(s, rid, usage, reason, key, now, scan).Ok? {
        ReleaseMoves(s, rid, usage, reason, key, now, scan);
      }
  }

  lemma ChangePlanRows(s: State, target: Plan, key: Key, now: int, tag: nat)
    requires ChangePlan(s, target, key, now, tag).Ok?
    ensures ChangePlan(s, target, key, now, tag).value.0.reservations == s.reservations
  {
    hide EnsureCycle, Capacity, PolicyOf, Post;
    if key !in s.operations {
      EnsureExtends(s, now, tag);
    }
  }

  lemma GrantBonusRows(s: State, amount: int, expiresAt: Option<int>, reason: nat, key: Key, now: int, tag: nat, bonusTag: nat)
    requires GrantBonus(s, amount, expiresAt, reason, key, now, tag, bonusTag).Ok?
    ensures GrantBonus(s, amount, expiresAt, reason, key, now, tag, bonusTag).value.0.reservations == s.reservations
  {
    hide EnsureCycle, Capacity, OpenGrant;
    if key !in s.operations {
      EnsureExtends(s, now, tag);
    }
  }

  lemma AdministerRows(s: State, request: nat, actor: nat, action: AdminAction, reason: nat, now: int, tag: nat)
    requires Administer(s, request, actor, action, reason, now, tag).Ok?
    ensures Administer(s, request, actor, action, reason, now, tag).value.reservations == s.reservations
  {
    hide EnsureCycle, ChangePlan, GrantBonus;
    if request !in s.audits {
      EnsureExtends(s, now, tag);
      var e := EnsureCycle(s, now, tag).value.state;
      match action {
        case Promote => ChangePlanRows(e, Max, MasterCommand(request), now, tag);
        case AdminPlan(target) => ChangePlanRows(e, target, MasterCommand(request), now, tag);
        case AdminBonus(amount, expiresAt) => GrantBonusRows(e, amount, expiresAt, reason, MasterCommand(request), now, tag, tag);
      }
    }
  }

  lemma ReserveMoves(s: State, key: Key, raw: seq<Estimate>, now: int, tag: nat, scan: Scan)
    requires Core(s) && Started(s) && Reserve(s, key, raw, now, tag, scan).Ok?
    ensures var (t, receipt) := Reserve(s, key, raw, now, tag, scan).value;
            && (receipt.replayed <==> FindReserved(s.reservations, key).Some?)
            && (if receipt.replayed then t == s else Opens(s.reservations, t.reservations, key) && receipt.reservation == |s.reservations|)
  {
    hide Core, Started, EnsureCycle, Admit;
    if FindReserved(s.reservations, key).None? {
      SortedEstimates(raw);
      EnsureKeeps(s, now, tag);
      EnsureExtends(s, now, tag);
      AdmitKeeps(EnsureCycle(s, now, tag).value.state, key, Sort(raw, EstimateLeq), now, scan);
      AdmitReceipt(EnsureCycle(s, now, tag).value.state, key, Sort(raw, EstimateLeq), now, scan);
    }
  }

  lemma TerminateMoves(s: State, rid: nat, lines: seq<UsageLine>, delivery: Delivery, reason: Reason, key: Key, now: int, charge: bool, scan: Scan)
    requires Core(s) && Started(s) && ValidLines(lines, true)
    requires (charge <==> !delivery.NoDeliverable?) && (charge <==> reason.UsageSettled?)
    requires Terminate(s, rid, lines, delivery, reason, key, now, charge, scan).Ok?
    ensures var t := Terminate(s, rid, lines, delivery, reason, key, now, charge, scan).value.0;
            && (t == s || Closes(s.reservations, t.reservations, rid, key, charge))
            && rid < |t.reservations| && t.reservations[rid].terminal.Some?
            && t.reservations[rid].terminal.value.key == key && t.reservations[rid].terminal.value.settled == charge
  {
    hide Core, Started, Close, LedgerCheck, ReservationCoherent, SameLines, TerminalReceiptOf;
    if FindTerminal(s.reservations, key).None? {
      CloseKeeps(s, rid, lines, delivery, reason, key, now, charge);
    }
  }

  lemma SettleMoves(s: State, rid: nat, usage: seq<UsageLine>, delivery: Delivery, key: Key, now: int, scan: Scan)
    requires Core(s) && Started(s) && Settle(s, rid, usage, delivery, key, now, scan).Ok?
    ensures var t := Settle(s, rid, usage, delivery, key, now, scan).value.0;
            && (t == s || Closes(s.reservations, t.reservations, rid, key, true))
            && rid < |t.reservations| && t.reservations[rid].terminal.Some?
            && t.reservations[rid].terminal.value.key == key && t.reservations[rid].terminal.value.settled
  {
    hide Core, Started, Terminate, Closes;
    SortedLines(usage, false);
    TerminateMoves(s, rid, Sort(usage, LineLeq), delivery, UsageSettled, key, now, true, scan);
  }

  lemma ReleaseMoves(s: State, rid: nat, usage: seq<UsageLine>, reason: Reason, key: Key, now: int, scan: Scan)
    requires Core(s) && Started(s) && Release(s, rid, usage, reason, key, now, scan).Ok?
    ensures var t := Release(s, rid, usage, reason, key, now, scan).value.0;
            && (t == s || Closes(s.reservations, t.reservations, rid, key, false))
            && rid < |t.reservations| && t.reservations[rid].terminal.Some?
            && t.reservations[rid].terminal.value.key == key && !t.reservations[rid].terminal.value.settled
  {
    hide Core, Started, Terminate, Closes;
    SortedLines(usage, true);
    TerminateMoves(s, rid, Sort(usage, LineLeq), NoDeliverable, reason, key, now, false, scan);
  }

  // ---------------------------------------------------------------- the protocol

  datatype Enhancement = Enhancement(owner: nat, payload: nat)

  /** What the provider call came to. */
  datatype Answer = Failure(reason: Reason) | BadUsage | Usable(tokensIn: int, tokensOut: int, source: Source)

  datatype Outcome = Answered(replayed: bool) | Refused

  datatype Pc =
    | Fresh
    | Reserved(rid: nat)
    | Delivering(rid: nat, usage: seq<UsageLine>)
    | Compensating(rid: nat, usage: seq<UsageLine>, reason: Reason)
    | Done(outcome: Outcome)

  datatype Task = Task(user: nat, request: nat, payload: nat, pc: Pc)

  /** One bank per user; enhancement rows by request id; the provider calls made so far. */
  datatype System = System(banks: map<nat, State>, rows: map<nat, Enhancement>, tasks: map<nat, Task>, calls: seq<(nat, nat)>)

  /** How a commit ended, and what its caller was told. */
  datatype Report = Acknowledged | TookEffectButReportedFailed | Failed

  datatype Action =
    | Arrive(task: nat, user: nat, request: nat, payload: nat)
    | AdmitTask(task: nat, maximumIn: int, maximumOut: int, now: int, tag: nat, scan: Scan, report: Report)
    | CallProvider(task: nat, answer: Answer)
    | Deliver(task: nat, now: int, scan: Scan, report: Report)
    | Compensate(task: nat, now: int, scan: Scan, report: Report)
    | Crash(task: nat)
    | Elsewhere(user: nat, call: Call)

  function Estimates(a: Action): seq<Estimate>
    requires a.AdmitTask?
  {
    [Estimate(GeminiInputToken, a.maximumIn), Estimate(GeminiOutputToken, a.maximumOut)]
  }

  function Lines(answer: Answer): seq<UsageLine>
    requires answer.Usable?
  {
    [UsageLine(GeminiInputToken, answer.tokensIn, answer.source), UsageLine(GeminiOutputToken, answer.tokensOut, answer.source)]
  }

  function At(y: System, task: nat, pc: Pc): System
    requires task in y.tasks
  {
    y.(tasks := y.tasks[task := y.tasks[task].(pc := pc)])
  }

  ghost function Reserving(y: System, a: Action): Call
    requires a.AdmitTask? && a.task in y.tasks
  {
    CallReserve(PromptReserve(y.tasks[a.task].request), Estimates(a), a.now, a.tag, a.scan)
  }

  ghost function Settling(y: System, a: Action): Call
    requires a.Deliver? && a.task in y.tasks && y.tasks[a.task].pc.Delivering?
  {
    var t := y.tasks[a.task];
    CallSettle(t.pc.rid, t.pc.usage, Delivered, PromptTerminal(t.request), a.now, a.scan)
  }

  ghost function Releasing(y: System, a: Action): Call
    requires a.Compensate? && a.task in y.tasks && y.tasks[a.task].pc.Compensating?
  {
    var t := y.tasks[a.task];
    CallRelease(t.pc.rid, t.pc.usage, t.pc.reason, PromptTerminal(t.request), a.now, a.scan)
  }

  /** First transaction: answer from the stored row, or reserve. */
  ghost function AdmitStep(y: System, a: Action): System
    requires a.AdmitTask? && a.task in y.tasks && y.tasks[a.task].user in y.banks
  {
    var t := y.tasks[a.task];
    if t.request in y.rows then
      At(y, a.task, Done(if y.rows[t.request] == Enhancement(t.user, t.payload) then Answered(true) else Refused))
    else
      var s := y.banks[t.user];
      match Reserve(s, PromptReserve(t.request), Estimates(a), a.now, a.tag, a.scan)
      case Err(_) => At(y, a.task, Done(Refused))
      case Ok((_, receipt)) =>
        if receipt.replayed || a.report.Failed? then At(y, a.task, Done(Refused))
        else
          At(y.(banks := y.banks[t.user := Step(s, Reserving(y, a))]), a.task,
             if a.report.Acknowledged? then Reserved(receipt.reservation) else Done(Refused))
  }

  function AfterCall(rid: nat, answer: Answer): Pc {
    match answer
    case Failure(reason) => Compensating(rid, [], reason)
    case BadUsage => Compensating(rid, [], DeliveryFailed)
    case Usable(_, _, _) => Delivering(rid, Lines(answer))
  }

  /** Second transaction: store the row and settle; on any failure, compensate. */
  ghost function DeliverStep(y: System, a: Action): System
    requires a.Deliver? && a.task in y.tasks && y.tasks[a.task].user in y.banks && y.tasks[a.task].pc.Delivering?
  {
    var t := y.tasks[a.task];
    var s := y.banks[t.user];
    var failed := Compensating(t.pc.rid, t.pc.usage, DeliveryFailed);
    if t.request in y.rows || a.report.Failed?
       || Settle(s, t.pc.rid, t.pc.usage, Delivered, PromptTerminal(t.request), a.now, a.scan).Err?
    then At(y, a.task, failed)
    else
      At(y.(banks := y.banks[t.user := Step(s, Settling(y, a))], rows := y.rows[t.request := Enhancement(t.user, t.payload)]),
         a.task, if a.report.Acknowledged? then Done(Answered(false)) else failed)
  }

  /** The compensating release; its own failure is only logged. */
  ghost function CompensateStep(y: System, a: Action): System
    requires a.Compensate? && a.task in y.tasks && y.tasks[a.task].user in y.banks && y.tasks[a.task].pc.Compensating?
  {
    var t := y.tasks[a.task];
    var s := y.banks[t.user];
    At(y.(banks := y.banks[t.user := if a.report.Failed? then s else Step(s, Releasing(y, a))]), a.task, Done(Refused))
  }

  /** Calls made elsewhere in the program leave prompt keys and prompt reservations alone. */
  ghost predicate Foreign(s: State, c: Call) {
    && Allowed(c)
    && (c.CallReserve? ==> !c.key.PromptReserve?)
    && (c.CallSettle? || c.CallRelease? ==>
          !c.key.PromptTerminal? && (c.rid < |s.reservations| ==> !s.reservations[c.rid].key.PromptReserve?))
  }

  ghost predicate Enabled(y: System, a: Action) {
    match a
    case Arrive(task, user, _, _) => task !in y.tasks && user in y.banks
    case AdmitTask(task, _, _, _, _, _, _) => task in y.tasks && y.tasks[task].pc.Fresh? && y.tasks[task].user in y.banks
    case CallProvider(task, answer) =>
      && task in y.tasks && y.tasks[task].pc.Reserved?
      && (answer.Failure? ==> answer.reason in {ProviderFailed, ProviderTimeout, ProviderRateLimited})
    case Deliver(task, _, _, _) => task in y.tasks && y.tasks[task].pc.Delivering? && y.tasks[task].user in y.banks
    case Compensate(task, _, _, _) => task in y.tasks && y.tasks[task].pc.Compensating? && y.tasks[task].user in y.banks
    case Crash(task) => task in y.tasks && !y.tasks[task].pc.Done?
    case Elsewhere(user, c) => user in y.banks && Foreign(y.banks[user], c)
  }

  ghost function Next(y: System, a: Action): System {
    if !Enabled(y, a) then y
    else
      match a
      case Arrive(task, user, request, payload) => y.(tasks := y.tasks[task := Task(user, request, payload, Fresh)])
      case AdmitTask(_, _, _, _, _, _, _) => AdmitStep(y, a)
      case CallProvider(task, answer) =>
        var t := y.tasks[task];
        At(y.(calls := y.calls + [(t.user, t.request)]), task, AfterCall(t.pc.rid, answer))
      case Deliver(_, _, _, _) => DeliverStep(y, a)
      case Compensate(_, _, _, _) => CompensateStep(y, a)
      case Crash(task) => At(y, task, Done(Refused))
      case Elsewhere(user, c) => y.(banks := y.banks[user := Step(y.banks[user], c)])
  }

  ghost function Execute(y: System, actions: seq<Action>): System {
    if actions == [] then y else Next(Execute(y, actions[..|actions| - 1]), actions[|actions| - 1])
  }

  // ---------------------------------------------------------------- the invariant

  ghost predicate ReservedFor(rs: seq<Reservation>, q: nat) {
    exists i | 0 <= i < |rs| :: rs[i].key == PromptReserve(q)
  }

  predicate Settled(r: Reservation) {
    r.terminal.Some? && r.terminal.value.settled
  }

  ghost predicate SettledFor(rs: seq<Reservation>, q: nat) {
    exists i | 0 <= i < |rs| :: rs[i].key == PromptReserve(q) && Settled(rs[i])
  }

  /** A prompt reservation is closed only under its own terminal key, and that key closes nothing else. */
  ghost predicate OwnKeys(rs: seq<Reservation>) {
    forall i, q: nat | 0 <= i < |rs| && rs[i].terminal.Some? ::
      rs[i].terminal.value.key == PromptTerminal(q) <==> rs[i].key == PromptReserve(q)
  }

  ghost predicate BanksOk(y: System) {
    forall u | u in y.banks :: Inv(y.banks[u]) && OwnKeys(y.banks[u].reservations)
  }

  function RidOf(pc: Pc): Option<nat> {
    match pc
    case Fresh => None
    case Reserved(rid) => Some(rid)
    case Delivering(rid, _) => Some(rid)
    case Compensating(rid, _, _) => Some(rid)
    case Done(_) => None
  }

  ghost predicate TaskOk(y: System, t: Task) {
    && t.user in y.banks
    && (RidOf(t.pc).Some? ==>
          var rs := y.banks[t.user].reservations;
          RidOf(t.pc).value < |rs| && rs[RidOf(t.pc).value].key == PromptReserve(t.request))
    && (t.pc.Compensating? ==> !t.pc.reason.UsageSettled?)
    && (t.pc.Reserved? ==> (t.user, t.request) !in y.calls)
    && (t.pc.Done? && t.pc.outcome.Answered? ==> t.request in y.rows && y.rows[t.request] == Enhancement(t.user, t.payload))
  }

  ghost predicate TasksOk(y: System) {
    && (forall k | k in y.tasks :: TaskOk(y, y.tasks[k]))
    && (forall j, k | j in y.tasks && k in y.tasks && j != k && y.tasks[j].pc.Reserved? && y.tasks[k].pc.Reserved? ::
          (y.tasks[j].user, y.tasks[j].request) != (y.tasks[k].user, y.tasks[k].request))
  }

  ghost predicate CallsOk(y: System) {
    && (forall i, j | 0 <= i < j < |y.calls| :: y.calls[i] != y.calls[j])
    && (forall c | c in y.calls :: c.0 in y.banks && ReservedFor(y.banks[c.0].reservations, c.1))
  }

  ghost predicate RowsOk(y: System) {
    && (forall q | q in y.rows :: y.rows[q].owner in y.banks)
    && (forall u, q: nat | u in y.banks :: SettledFor(y.banks[u].reservations, q) <==> q in y.rows && y.rows[q].owner == u)
  }

  ghost predicate SystemOk(y: System) {
    BanksOk(y) && TasksOk(y) && CallsOk(y) && RowsOk(y)
  }

  // ---------------------------------------------------------------- what a move keeps

  /** A terminal call uses the prompt terminal key exactly on the prompt reservation of the same request. */
  ghost predicate KeysMatch(rs: seq<Reservation>, c: Call) {
    (c.CallSettle? || c.CallRelease?) && c.rid < |rs| ==>
      forall q: nat :: c.key == PromptTerminal(q) <==> rs[c.rid].key == PromptReserve(q)
  }

  lemma MovesKeepKeys(rs: seq<Reservation>, ts: seq<Reservation>, c: Call)
    requires Moves(rs, ts, c)
    ensures |rs| <= |ts| && forall i | 0 <= i < |rs| :: ts[i].key == rs[i].key
    ensures forall q: nat :: ReservedFor(rs, q) ==> ReservedFor(ts, q)
  {
    assert forall i | 0 <= i < |rs| && i < |ts| :: ts[..|rs|] == rs ==> ts[i] == ts[..|rs|][i];
    forall q: nat | ReservedFor(rs, q)
      ensures ReservedFor(ts, q)
    {
      var i :| 0 <= i < |rs| && rs[i].key == PromptReserve(q);
      assert ts[i].key == PromptReserve(q);
    }
  }

  lemma MovesKeepSettled(rs: seq<Reservation>, ts: seq<Reservation>, c: Call, q: nat)
    requires Moves(rs, ts, c)
    requires c.CallSettle? && c.rid < |rs| ==> rs[c.rid].key != PromptReserve(q)
    ensures SettledFor(ts, q) <==> SettledFor(rs, q)
  {
    MovesKeepKeys(rs, ts, c);
    forall i | 0 <= i < |rs| && rs[i].key == PromptReserve(q)
      ensures Settled(ts[i]) <==> Settled(rs[i])
    {
      assert ts[..|rs|] == rs ==> ts[i] == ts[..|rs|][i];
    }
    if SettledFor(rs, q) {
      var i :| 0 <= i < |rs| && rs[i].key == PromptReserve(q) && Settled(rs[i]);
      assert ts[i].key == PromptReserve(q) && Settled(ts[i]);
    }
    if SettledFor(ts, q) {
      var i :| 0 <= i < |ts| && ts[i].key == PromptReserve(q) && Settled(ts[i]);
      assert i < |rs|;
      assert rs[i].key == PromptReserve(q) && Settled(rs[i]);
    }
  }

  lemma MovesOwnKeys(rs: seq<Reservation>, ts: seq<Reservation>, c: Call)
    requires Moves(rs, ts, c) && OwnKeys(rs) && KeysMatch(rs, c)
    ensures OwnKeys(ts)
  {
    forall i, q: nat | 0 <= i < |ts| && ts[i].terminal.Some?
      ensures ts[i].terminal.value.key == PromptTerminal(q) <==> ts[i].key == PromptReserve(q)
    {
      assert i < |rs| && ts[..|rs|] == rs ==> ts[i] == ts[..|rs|][i];
    }
  }

  /** A bank call that settles no prompt reservation, seen from the protocol. */
  lemma BankStepKeeps(y: System, u: nat, c: Call)
    requires SystemOk(y) && u in y.banks && Allowed(c)
    requires KeysMatch(y.banks[u].reservations, c)
    requires c.CallSettle? && c.rid < |y.banks[u].reservations| ==> !y.banks[u].reservations[c.rid].key.PromptReserve?
    ensures SystemOk(y.(banks := y.banks[u := Step(y.banks[u], c)]))
  {
    hide Inv, Step, Allowed, Moves, KeysMatch, OwnKeys, ReservedFor, SettledFor, TaskOk;
    var s := y.banks[u];
    StepMoves(s, c);
    StepKeeps(s, c);
    var rs, ts := s.reservations, Step(s, c).reservations;
    MovesKeepKeys(rs, ts, c);
    MovesOwnKeys(rs, ts, c);
    forall q: nat
      ensures SettledFor(ts, q) <==> SettledFor(rs, q)
    {
      MovesKeepSettled(rs, ts, c, q);
    }
    var z := y.(banks := y.banks[u := Step(s, c)]);
    TasksFrame(y, z);
    CallsFrame(y, z);
    RowsFrame(y, z);
  }

  lemma RowsFrame(y: System, z: System)
    requires RowsOk(y) && z.rows == y.rows && z.banks.Keys == y.banks.Keys
    requires forall u, q: nat | u in y.banks :: SettledFor(z.banks[u].reservations, q) <==> SettledFor(y.banks[u].reservations, q)
    ensures RowsOk(z)
  {
    hide SettledFor;
    assert forall u :: u in z.banks <==> u in y.banks.Keys;
  }

  /** Tasks stay well formed when reservations keep their keys and nothing else changes. */
  lemma TasksFrame(y: System, z: System)
    requires TasksOk(y) && z.tasks == y.tasks && z.calls == y.calls
    requires forall u | u in y.banks ::
               && u in z.banks
               && |y.banks[u].reservations| <= |z.banks[u].reservations|
               && forall i | 0 <= i < |y.banks[u].reservations| :: z.banks[u].reservations[i].key == y.banks[u].reservations[i].key
    requires forall q | q in y.rows :: q in z.rows && z.rows[q] == y.rows[q]
    ensures TasksOk(z)
  {
    forall k | k in z.tasks
      ensures TaskOk(z, z.tasks[k])
    {
      assert TaskOk(y, y.tasks[k]);
    }
  }

  /** Moving one task on. */
  lemma AtKeeps(y: System, k: nat, pc: Pc)
    requires SystemOk(y) && k in y.tasks
    requires TaskOk(y, y.tasks[k].(pc := pc))
    requires pc.Reserved? ==> !ReservedTaskFor(y, y.tasks[k].user, y.tasks[k].request)
    ensures SystemOk(At(y, k, pc))
  {
    hide Inv, OwnKeys, ReservedFor, SettledFor;
    var z := At(y, k, pc);
    forall j | j in z.tasks
      ensures TaskOk(z, z.tasks[j])
    {
      if j != k {
        assert TaskOk(y, y.tasks[j]);
      }
    }
  }

  ghost predicate ReservedTaskFor(y: System, u: nat, q: nat) {
    exists j :: j in y.tasks && y.tasks[j].pc.Reserved? && y.tasks[j].user == u && y.tasks[j].request == q
  }

  lemma NoCallWithoutReservation(y: System, u: nat, q: nat)
    requires SystemOk(y) && u in y.banks && FindReserved(y.banks[u].reservations, PromptReserve(q)).None?
    ensures (u, q) !in y.calls && !ReservedTaskFor(y, u, q)
  {
    hide Inv, OwnKeys, SettledFor, FindReserved;
    assert !ReservedFor(y.banks[u].reservations, q);
    forall c | c in y.calls && c.0 == u
      ensures c.1 != q
    {
      assert ReservedFor(y.banks[c.0].reservations, c.1);
    }
    forall j | j in y.tasks && y.tasks[j].pc.Reserved? && y.tasks[j].user == u
      ensures y.tasks[j].request != q
    {
      assert TaskOk(y, y.tasks[j]);
    }
  }

  lemma AdmitKeepsSystem(y: System, a: Action)
    requires SystemOk(y) && a.AdmitTask? && Enabled(y, a)
    ensures SystemOk(AdmitStep(y, a))
  {
    hide Inv, OwnKeys, ReservedFor, SettledFor, Step, Reserve, Settle;
    var t := y.tasks[a.task];
    assert TaskOk(y, t) && Inv(y.banks[t.user]);
    var s := y.banks[t.user];
    hide SystemOk, BanksOk, TasksOk, CallsOk, RowsOk, Inv, Reserve, Step, Allowed;
    if t.request in y.rows {
      AtKeeps(y, a.task, Done(if y.rows[t.request] == Enhancement(t.user, t.payload) then Answered(true) else Refused));
    } else {
      var key := PromptReserve(t.request);
      var r := Reserve(s, key, Estimates(a), a.now, a.tag, a.scan);
      if r.Err? || r.value.1.replayed || a.report.Failed? {
        AtKeeps(y, a.task, Done(Refused));
      } else {
        ReservedFresh(s, key, Estimates(a), a.now, a.tag, a.scan);
        var rid := r.value.1.reservation;
        var z := y.(banks := y.banks[t.user := Step(s, Reserving(y, a))]);
        BankStepKeeps(y, t.user, Reserving(y, a));
        assert ReservedTaskFor(z, t.user, t.request) ==> ReservedTaskFor(y, t.user, t.request);
        NoCallWithoutReservation(y, t.user, t.request);
        AtKeeps(z, a.task, if a.report.Acknowledged? then Reserved(rid) else Done(Refused));
      }
    }
  }

  lemma ReservedFresh(s: State, key: Key, raw: seq<Estimate>, now: int, tag: nat, scan: Scan)
    requires Inv(s) && Reserve(s, key, raw, now, tag, scan).Ok? && !Reserve(s, key, raw, now, tag, scan).value.1.replayed
    ensures var (t, receipt) := Reserve(s, key, raw, now, tag, scan).value;
            && t == Step(s, CallReserve(key, raw, now, tag, scan)) && Allowed(CallReserve(key, raw, now, tag, scan))
            && FindReserved(s.reservations, key).None?
            && receipt.reservation < |t.reservations| && t.reservations[receipt.reservation].key == key
  {
    hide Core, Started, Reserve;
    ReserveMoves(s, key, raw, now, tag, scan);
  }

  lemma CallKeeps(y: System, k: nat, answer: Answer)
    requires SystemOk(y) && k in y.tasks && y.tasks[k].pc.Reserved?
    requires answer.Failure? ==> !answer.reason.UsageSettled?
    ensures SystemOk(Next(y, CallProvider(k, answer)))
  {
    hide Inv, OwnKeys, SettledFor, Step, Reserve, Settle;
    var t := y.tasks[k];
    assert TaskOk(y, t);
    AfterCallShape(t.pc.rid, answer);
    var z := At(y, k, AfterCall(t.pc.rid, answer));
    assert ReservedFor(y.banks[t.user].reservations, t.request);
    assert !ReservedTaskFor(z, t.user, t.request) by {
      hide Inv, OwnKeys, ReservedFor, SettledFor, AfterCall, TaskOk;
    }
    AtKeepsPc(y, k, AfterCall(t.pc.rid, answer));
    hide AfterCall, SystemOk;
    AddCall(z, t.user, t.request);
  }

  lemma AtKeepsPc(y: System, k: nat, pc: Pc)
    requires SystemOk(y) && k in y.tasks && TaskOk(y, y.tasks[k]) && RidOf(pc) == RidOf(y.tasks[k].pc)
    requires !pc.Reserved? && !pc.Done? && (pc.Compensating? ==> !pc.reason.UsageSettled?)
    ensures SystemOk(At(y, k, pc))
  {
    hide SystemOk;
    AtKeeps(y, k, pc);
  }

  lemma AddCall(y: System, u: nat, q: nat)
    requires SystemOk(y) && u in y.banks && ReservedFor(y.banks[u].reservations, q)
    requires (u, q) !in y.calls && !ReservedTaskFor(y, u, q)
    ensures SystemOk(y.(calls := y.calls + [(u, q)]))
  {
    hide Inv, OwnKeys, SettledFor, ReservedFor;
    var w := y.(calls := y.calls + [(u, q)]);
    forall j | j in w.tasks
      ensures TaskOk(w, w.tasks[j])
    {
      assert TaskOk(y, y.tasks[j]);
    }
  }

  lemma AfterCallShape(rid: nat, answer: Answer)
    ensures var pc := AfterCall(rid, answer);
            && (pc.Delivering? || pc.Compensating?) && RidOf(pc) == Some(rid)
            && (pc.Compensating? && (answer.Failure? ==> !answer.reason.UsageSettled?) ==> !pc.reason.UsageSettled?)
  {
  }

  lemma CompensateKeepsSystem(y: System, a: Action)
    requires SystemOk(y) && a.Compensate? && Enabled(y, a)
    ensures SystemOk(CompensateStep(y, a))
  {
    hide Inv, OwnKeys, ReservedFor, SettledFor, Step, Reserve, Settle;
    var t := y.tasks[a.task];
    assert TaskOk(y, t);
    hide SystemOk, BanksOk, TasksOk, CallsOk, RowsOk, Inv, Step;
    if a.report.Failed? {
      assert y.banks[t.user := y.banks[t.user]] == y.banks;
      AtKeeps(y, a.task, Done(Refused));
    } else {
      BankStepKeeps(y, t.user, Releasing(y, a));
      AtKeeps(y.(banks := y.banks[t.user := Step(y.banks[t.user], Releasing(y, a))]), a.task, Done(Refused));
    }
  }

  lemma DeliverKeepsSystem(y: System, a: Action)
    requires SystemOk(y) && a.Deliver? && Enabled(y, a)
    ensures SystemOk(DeliverStep(y, a))
  {
    hide Inv, OwnKeys, ReservedFor, SettledFor, Step, Reserve, Settle;
    var t := y.tasks[a.task];
    assert TaskOk(y, t);
    var s := y.banks[t.user];
    var failed := Compensating(t.pc.rid, t.pc.usage, DeliveryFailed);
    hide SystemOk, BanksOk, TasksOk, CallsOk, RowsOk, Inv, Step, Settle;
    if t.request in y.rows || a.report.Failed?
       || Settle(s, t.pc.rid, t.pc.usage, Delivered, PromptTerminal(t.request), a.now, a.scan).Err? {
      AtKeeps(y, a.task, failed);
    } else {
      DeliveredKeeps(y, a);
      var z := y.(banks := y.banks[t.user := Step(s, Settling(y, a))], rows := y.rows[t.request := Enhancement(t.user, t.payload)]);
      assert TaskOk(z, z.tasks[a.task]) by {
        assert TasksOk(z) by {
          SystemParts(z);
        }
        TaskOf(z, a.task);
      }
      AtKeeps(z, a.task, if a.report.Acknowledged? then Done(Answered(false)) else failed);
    }
  }

  /** Row and settlement appear together. */
  lemma DeliveredKeeps(y: System, a: Action)
    requires SystemOk(y) && a.Deliver? && Enabled(y, a)
    requires var t := y.tasks[a.task];
             && t.request !in y.rows
             && Settle(y.banks[t.user], t.pc.rid, t.pc.usage, Delivered, PromptTerminal(t.request), a.now, a.scan).Ok?
    ensures var t := y.tasks[a.task];
            SystemOk(y.(banks := y.banks[t.user := Step(y.banks[t.user], Settling(y, a))],
                        rows := y.rows[t.request := Enhancement(t.user, t.payload)]))
  {
    hide Inv, OwnKeys, ReservedFor, SettledFor, Step, Reserve, Settle, TaskOk, Moves;
    var t := y.tasks[a.task];
    FlightRow(y, a.task);
    var s := y.banks[t.user];
    var c := Settling(y, a);
    SettledNow(s, t.pc.rid, t.pc.usage, t.request, a.now, a.scan);
    StepMoves(s, c);
    StepKeeps(s, c);
    var z := y.(banks := y.banks[t.user := Step(s, c)], rows := y.rows[t.request := Enhancement(t.user, t.payload)]);
    var rs, ts := s.reservations, Step(s, c).reservations;
    MovesKeepKeys(rs, ts, c);
    MovesOwnKeys(rs, ts, c);
    forall q: nat | q != t.request
      ensures SettledFor(ts, q) <==> SettledFor(rs, q)
    {
      MovesKeepSettled(rs, ts, c, q);
    }
    RowsGrow(y, z, t.user, t.request);
    TasksFrame(y, z);
    CallsFrame(y, z);
  }

  /** A task in flight holds the row reserved for its request. */
  lemma FlightRow(y: System, k: nat)
    requires TasksOk(y) && k in y.tasks && RidOf(y.tasks[k].pc).Some?
    ensures var t := y.tasks[k];
            && t.user in y.banks
            && RidOf(t.pc).value < |y.banks[t.user].reservations|
            && y.banks[t.user].reservations[RidOf(t.pc).value].key == PromptReserve(t.request)
  {
    assert TaskOk(y, y.tasks[k]);
  }

  lemma RowsGrow(y: System, z: System, u: nat, q: nat)
    requires RowsOk(y) && u in y.banks && q !in y.rows && z.banks.Keys == y.banks.Keys
    requires forall v | v in y.banks && v != u :: z.banks[v] == y.banks[v]
    requires forall p: nat | p != q :: SettledFor(z.banks[u].reservations, p) <==> SettledFor(y.banks[u].reservations, p)
    requires SettledFor(z.banks[u].reservations, q)
    requires z.rows.Keys == y.rows.Keys + {q} && z.rows[q].owner == u && forall p | p in y.rows :: z.rows[p] == y.rows[p]
    ensures RowsOk(z)
  {
    hide SettledFor;
    forall v, p: nat | v in z.banks
      ensures SettledFor(z.banks[v].reservations, p) <==> p in z.rows && z.rows[p].owner == v
    {
      assert SettledFor(y.banks[v].reservations, p) <==> p in y.rows && y.rows[p].owner == v;
      assert p in z.rows <==> p in y.rows || p == q;
    }
    forall p | p in z.rows
      ensures z.rows[p].owner in z.banks
    {
      assert p in y.rows || p == q;
      assert z.rows[p].owner in z.banks.Keys;
    }
  }

  lemma CallsFrame(y: System, z: System)
    requires CallsOk(y) && z.calls == y.calls
    requires forall u | u in y.banks ::
               u in z.banks && forall q: nat :: ReservedFor(y.banks[u].reservations, q) ==> ReservedFor(z.banks[u].reservations, q)
    ensures CallsOk(z)
  {
    hide ReservedFor;
  }

  lemma SystemParts(y: System)
    requires SystemOk(y)
    ensures BanksOk(y) && TasksOk(y) && CallsOk(y) && RowsOk(y)
  {
  }

  lemma TaskOf(y: System, k: nat)
    requires TasksOk(y) && k in y.tasks
    ensures TaskOk(y, y.tasks[k])
  {
  }

  lemma SettledNow(s: State, rid: nat, usage: seq<UsageLine>, q: nat, now: int, scan: Scan)
    requires Inv(s) && rid < |s.reservations| && s.reservations[rid].key == PromptReserve(q)
    requires Settle(s, rid, usage, Delivered, PromptTerminal(q), now, scan).Ok?
    ensures var t := Settle(s, rid, usage, Delivered, PromptTerminal(q), now, scan).value.0;
            && t == Step(s, CallSettle(rid, usage, Delivered, PromptTerminal(q), now, scan))
            && SettledFor(t.reservations, q)
  {
    hide Core, Started, Settle;
    SettleMoves(s, rid, usage, Delivered, PromptTerminal(q), now, scan);
    var t := Settle(s, rid, usage, Delivered, PromptTerminal(q), now, scan).value.0;
    assert t.reservations[rid].key == PromptReserve(q) && Settled(t.reservations[rid]);
  }

  // ---------------------------------------------------------------- every run

  lemma NextKeeps(y: System, a: Action)
    requires SystemOk(y)
    ensures SystemOk(Next(y, a))
  {
    hide SystemOk, Foreign, Step, AdmitStep, DeliverStep, CompensateStep;
    if Enabled(y, a) {
      match a
      case Arrive(task, user, request, payload) => ArriveKeeps(y, task, user, request, payload);
      case AdmitTask(_, _, _, _, _, _, _) => AdmitKeepsSystem(y, a);
      case CallProvider(task, answer) => CallKeeps(y, task, answer);
      case Deliver(_, _, _, _) => DeliverKeepsSystem(y, a);
      case Compensate(_, _, _, _) => CompensateKeepsSystem(y, a);
      case Crash(task) => CrashKeeps(y, task);
      case Elsewhere(user, c) => ForeignKeeps(y, user, c);
    }
  }

  lemma CrashKeeps(y: System, task: nat)
    requires SystemOk(y) && task in y.tasks
    ensures SystemOk(At(y, task, Done(Refused)))
  {
    hide BanksOk, CallsOk, RowsOk;
    TaskOf(y, task);
    AtKeeps(y, task, Done(Refused));
  }

  lemma ArriveKeeps(y: System, task: nat, user: nat, request: nat, payload: nat)
    requires SystemOk(y) && task !in y.tasks && user in y.banks
    ensures SystemOk(y.(tasks := y.tasks[task := Task(user, request, payload, Fresh)]))
  {
    hide Inv, OwnKeys, ReservedFor, SettledFor;
    var z := y.(tasks := y.tasks[task := Task(user, request, payload, Fresh)]);
    forall j | j in z.tasks
      ensures TaskOk(z, z.tasks[j])
    {
      if j != task {
        assert TaskOk(y, y.tasks[j]);
      }
    }
  }

  lemma ForeignKeeps(y: System, user: nat, c: Call)
    requires SystemOk(y) && user in y.banks && Foreign(y.banks[user], c)
    ensures SystemOk(y.(banks := y.banks[user := Step(y.banks[user], c)]))
  {
    hide SystemOk, Inv, Step, Allowed;
    BankStepKeeps(y, user, c);
  }

  lemma {:induction false} ExecuteKeeps(y: System, actions: seq<Action>)
    requires SystemOk(y)
    ensures SystemOk(Execute(y, actions))
  {
    if actions != [] {
      hide SystemOk, Next;
      ExecuteKeeps(y, actions[..|actions| - 1]);
      NextKeeps(Execute(y, actions[..|actions| - 1]), actions[|actions| - 1]);
    }
  }

  /** No task yet, and banks in any state a run can reach that holds no prompt reservation. */
  ghost predicate Beginning(y: System) {
    && y.rows == map[] && y.tasks == map[] && y.calls == []
    && forall u | u in y.banks ::
         && Reachable(y.banks[u])
         && forall i | 0 <= i < |y.banks[u].reservations| ::
              var r := y.banks[u].reservations[i];
              !r.key.PromptReserve? && (r.terminal.Some? ==> !r.terminal.value.key.PromptTerminal?)
  }

  ghost predicate ReachableSystem(y: System) {
    exists start, actions :: Beginning(start) && y == Execute(start, actions)
  }

  lemma ReachableSystemOk(y: System)
    requires ReachableSystem(y)
    ensures SystemOk(y)
  {
    hide Beginning, SystemOk, Execute;
    var start, actions :| Beginning(start) && y == Execute(start, actions);
    BeginningOk(start);
    ExecuteKeeps(start, actions);
  }

  lemma BeginningOk(y: System)
    requires Beginning(y)
    ensures SystemOk(y)
  {
    hide Inv, Reachable;
    forall u | u in y.banks
      ensures Inv(y.banks[u]) && OwnKeys(y.banks[u].reservations)
    {
      ReachableInv(y.banks[u]);
    }
  }

  /** Each (user, request) reaches the provider at most once, however tasks interleave, retry or crash. */
  lemma AtMostOneCall(y: System, i: nat, j: nat)
    requires ReachableSystem(y) && i < |y.calls| && j < |y.calls| && y.calls[i] == y.calls[j]
    ensures i == j
  {
    hide ReachableSystem, Inv;
    ReachableSystemOk(y);
  }

  /** A user's enhancement row exists exactly when that user's reservation for the request is settled. */
  lemma RowIffSettled(y: System, u: nat, q: nat)
    requires ReachableSystem(y) && u in y.banks
    ensures (q in y.rows && y.rows[q].owner == u) <==> SettledFor(y.banks[u].reservations, q)
  {
    hide ReachableSystem, Inv;
    ReachableSystemOk(y);
    hide SettledFor, OwnKeys, TaskOk, CallsOk;
  }

  /** A task that answers its caller does so from a stored row of that caller and that payload. */
  lemma AnswersAreStored(y: System, k: nat)
    requires ReachableSystem(y) && k in y.tasks && y.tasks[k].pc.Done? && y.tasks[k].pc.outcome.Answered?
    ensures var t := y.tasks[k]; t.request in y.rows && y.rows[t.request] == Enhancement(t.user, t.payload)
  {
    hide ReachableSystem, Inv;
    ReachableSystemOk(y);
    assert TaskOk(y, y.tasks[k]);
  }

  /** Rows are never changed or removed. */
  lemma {:induction false} RowsPersist(y: System, actions: seq<Action>, q: nat)
    requires q in y.rows
    ensures q in Execute(y, actions).rows && Execute(y, actions).rows[q] == y.rows[q]
  {
    if actions != [] {
      hide Step, Reserve, Settle, Foreign;
      RowsPersist(y, actions[..|actions| - 1], q);
    }
  }

  /**
   * Once the second transaction took effect, even if its commit was reported
   * as failed, the row stays and the reservation stays settled, whatever runs
   * afterwards.
   */
  lemma LostCommitStands(y: System, q: nat, actions: seq<Action>)
    requires ReachableSystem(y) && q in y.rows
    ensures var z := Execute(y, actions);
            && q in z.rows && z.rows[q] == y.rows[q]
            && y.rows[q].owner in z.banks && SettledFor(z.banks[y.rows[q].owner].reservations, q)
  {
    hide ReachableSystem, Inv;
    ReachableSystemOk(y);
    ExecuteKeeps(y, actions);
    RowsPersist(y, actions, q);
    hide BanksOk, TasksOk, CallsOk, Execute, SettledFor;
  }

  /** The compensating release shares the terminal key, so after a lost commit it changes nothing but that attempt's own progress. */
  lemma CompensationInert(y: System, a: Action)
    requires ReachableSystem(y) && a.Compensate? && Enabled(y, a)
    requires var t := y.tasks[a.task]; t.request in y.rows && y.rows[t.request].owner == t.user
    ensures Next(y, a) == At(y, a.task, Done(Refused))
  {
    hide ReachableSystem, SystemOk, Inv, Step, Release, Settled, SettledFor;
    ReachableSystemOk(y);
    var t := y.tasks[a.task];
    var s := y.banks[t.user];
    var i := SettledRow(y, t.user, t.request);
    UnderTerminalKey(y, t.user, i, t.request);
    ReleaseRefused(s, i, t.pc.rid, t.pc.usage, t.pc.reason, PromptTerminal(t.request), a.now, a.scan);
    assert y.banks[t.user := s] == y.banks;
  }

  /** Behind a stored row stands a settled reservation. */
  lemma SettledRow(y: System, u: nat, q: nat) returns (i: nat)
    requires SystemOk(y) && u in y.banks && q in y.rows && y.rows[q].owner == u
    ensures Inv(y.banks[u]) && i < |y.banks[u].reservations|
    ensures y.banks[u].reservations[i].key == PromptReserve(q) && Settled(y.banks[u].reservations[i])
  {
    hide Inv, OwnKeys, TasksOk, CallsOk;
    assert SettledFor(y.banks[u].reservations, q);
    i :| 0 <= i < |y.banks[u].reservations| && y.banks[u].reservations[i].key == PromptReserve(q) && Settled(y.banks[u].reservations[i]);
  }

  lemma UnderTerminalKey(y: System, u: nat, i: nat, q: nat)
    requires SystemOk(y) && u in y.banks && i < |y.banks[u].reservations|
    requires y.banks[u].reservations[i].key == PromptReserve(q) && Settled(y.banks[u].reservations[i])
    ensures y.banks[u].reservations[i].terminal.value.key == PromptTerminal(q)
  {
    hide Inv;
  }

  lemma TerminateRefused(s: State, i: nat, rid: nat, lines: seq<UsageLine>, reason: Reason, key: Key, now: int, scan: Scan)
    requires FindTerminal(s.reservations, key) == Some(i) && Settled(s.reservations[i])
    ensures Terminate(s, rid, lines, NoDeliverable, reason, key, now, false, scan).Err?
  {
    hide Close, LedgerCheck, ReservationCoherent, SameLines, TerminalReceiptOf, FindTerminal;
  }

  lemma InvReservations(s: State)
    requires Inv(s)
    ensures ReservationsOk(s)
  {
  }

  lemma ReleaseRefused(s: State, i: nat, rid: nat, usage: seq<UsageLine>, reason: Reason, key: Key, now: int, scan: Scan)
    requires Inv(s) && i < |s.reservations| && Settled(s.reservations[i]) && s.reservations[i].terminal.value.key == key
    ensures Release(s, rid, usage, reason, key, now, scan).Err?
    ensures Step(s, CallRelease(rid, usage, reason, key, now, scan)) == s
  {
    hide Inv, ReservationsOk, Terminate, Sort, ValidLines, FindTerminal;
    InvReservations(s);
    TerminalRowUnique(s, key, i);
    TerminateRefused(s, i, rid, Sort(usage, LineLeq), reason, key, now, scan);
  }

  /** A retry of a request that was ever reserved reserves nothing and never reaches the provider. */
  lemma RetryInert(y: System, a: Action)
    requires ReachableSystem(y) && a.AdmitTask? && Enabled(y, a)
    requires var t := y.tasks[a.task]; ReservedFor(y.banks[t.user].reservations, t.request)
    ensures Next(y, a).banks == y.banks && Next(y, a).rows == y.rows && Next(y, a).calls == y.calls
    ensures Next(y, a).tasks[a.task].pc.Done?
  {
    hide ReachableSystem, Inv;
    ReachableSystemOk(y);
    var t := y.tasks[a.task];
    var s := y.banks[t.user];
    assert Inv(s);
    hide SystemOk, Reserve, Step;
    NeverReservedTwice(s, t.request, Estimates(a), a.now, a.tag, a.scan);
    hide ReservedFor;
  }

  lemma NeverReservedTwice(s: State, q: nat, raw: seq<Estimate>, now: int, tag: nat, scan: Scan)
    requires ReservedFor(s.reservations, q)
    ensures var r := Reserve(s, PromptReserve(q), raw, now, tag, scan); r.Ok? ==> r.value.1.replayed
  {
    hide EnsureCycle, Admit, ValidEstimates, Sort, SameEstimates;
    var i :| 0 <= i < |s.reservations| && s.reservations[i].key == PromptReserve(q);
    assert FindReserved(s.reservations, PromptReserve(q)).Some?;
    hide FindReserved;
  }
}
