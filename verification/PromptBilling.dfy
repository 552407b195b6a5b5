/** What an enhancement costs: over every run, the charge behind a stored answer is the price of the tokens the provider reported. */
module PromptBilling {
  import opened Prelude
  import opened Sorting
  import opened CreditPolicy
  import opened CreditRecords
  import opened CreditAccounting
  import opened CreditInvariant
  import opened AccountingInvariant
  import opened TerminalCalls
  import opened CreditHistory
  import opened CreditReplay
  import opened PromptProtocol
  import opened GenerationUsage
  import opened GenerationCredit
  import opened Admissions

  // ---------------------------------------------------------------- what the provider said

  /** The provider's answers so far, by user and request. */
  type Answers = map<(nat, nat), Answer>

  ghost function HeardNext(y: System, heard: Answers, a: Action): Answers {
    if a.CallProvider? && Enabled(y, a) then heard[(y.tasks[a.task].user, y.tasks[a.task].request) := a.answer] else heard
  }

  /** The answers given in a run. */
  ghost function Heard(y: System, actions: seq<Action>): Answers {
    if actions == [] then map[]
    else
      var init := actions[..|actions| - 1];
      HeardNext(Execute(y, init), Heard(y, init), actions[|actions| - 1])
  }

  // ---------------------------------------------------------------- how a prompt reservation ends

  /** These records are the tokens of the answer, each on its own meter. */
  predicate TokensRecorded(records: seq<UsageRecord>, tokensIn: int, tokensOut: int) {
    && |records| == 2
    && records[0].meter == GeminiInputToken && records[0].actualUnits == tokensIn
    && records[1].meter == GeminiOutputToken && records[1].actualUnits == tokensOut
  }

  /** Why a reservation came back: what the provider call failed with, or the delivery. */
  function Blame(answer: Answer): Reason {
    match answer
    case Failure(reason) => reason
    case BadUsage => DeliveryFailed
    case Usable(_, _, _) => DeliveryFailed
  }

  /** The reported tokens are no more than was reserved. */
  ghost predicate Covers(items: seq<Item>, answer: Answer)
    requires answer.Usable?
  {
    && (exists i :: i in items && i.meter == GeminiInputToken && answer.tokensIn <= i.maximumUnits)
    && (exists i :: i in items && i.meter == GeminiOutputToken && answer.tokensOut <= i.maximumUnits)
  }

  /** The end of a reservation fits what the provider said. */
  ghost predicate EndFits(r: Reservation, answer: Answer)
    requires r.terminal.Some?
  {
    var t := r.terminal.value;
    && (if answer.Usable? then Covers(r.items, answer) && TokensRecorded(t.records, answer.tokensIn, answer.tokensOut) else t.records == [])
    && if t.settled then
         && answer.Usable? && t.delivery.Delivered? && t.reason.UsageSettled?
         && SumOf(t.records, ChargedOf) == 1000 * answer.tokensIn + 4000 * answer.tokensOut
       else
         t.delivery.NoDeliverable? && t.reason == Blame(answer) && SumOf(t.records, ChargedOf) == 0
  }

  ghost predicate EndsFit(u: nat, rs: seq<Reservation>, heard: Answers) {
    forall i, q: nat | 0 <= i < |rs| && rs[i].key == PromptReserve(q) && rs[i].terminal.Some? ::
      (u, q) in heard && EndFits(rs[i], heard[(u, q)])
  }

  /** A task past its provider call carries what the provider said. */
  predicate PcFits(t: Task, heard: Answers) {
    match t.pc
    case Delivering(_, usage) =>
      (t.user, t.request) in heard && heard[(t.user, t.request)].Usable? && usage == Lines(heard[(t.user, t.request)])
    case Compensating(_, usage, reason) =>
      && (t.user, t.request) in heard && reason == Blame(heard[(t.user, t.request)])
      && usage == if heard[(t.user, t.request)].Usable? then Lines(heard[(t.user, t.request)]) else []
    case _ => true
  }

  ghost predicate TasksFit(y: System, heard: Answers) {
    forall k | k in y.tasks :: PcFits(y.tasks[k], heard)
  }

  ghost predicate Billed(y: System, heard: Answers) {
    && (forall c :: c in heard <==> c in y.calls)
    && TasksFit(y, heard)
    && (forall u | u in y.banks :: EndsFit(u, y.banks[u].reservations, heard))
  }

  // ---------------------------------------------------------------- one terminal call

  lemma LinesSorted(answer: Answer)
    requires answer.Usable?
    ensures Sort(Lines(answer), LineLeq) == Lines(answer)
  {
    SortedPair(Lines(answer)[0], Lines(answer)[1], LineLeq);
  }

  lemma NothingSorted()
    ensures Sort<UsageLine>([], LineLeq) == []
  {
  }

  lemma LinesPrice(answer: Answer)
    requires answer.Usable?
    ensures SumOf(Lines(answer), LinePrice) == 1000 * answer.tokensIn + 4000 * answer.tokensOut
  {
    var a, b := Lines(answer)[0], Lines(answer)[1];
    SumOfAppend([a], b, LinePrice);
    SumOfOne([a], LinePrice);
    assert [a] + [b] == Lines(answer);
  }

  /** What a receipt says was consumed is the sum of the recorded charges. */
  lemma ReceiptConsumed(r: Reservation, rid: nat, receipt: TerminalReceipt)
    requires r.terminal.Some? && TerminalReceiptOf(r, rid, receipt.replayed) == Ok(receipt)
    ensures receipt.consumed == SumOf(r.terminal.value.records, ChargedOf)
  {
  }

  lemma RecordedLines(records: seq<UsageRecord>, answer: Answer)
    requires answer.Usable? && SameLines(records, Lines(answer))
    ensures TokensRecorded(records, answer.tokensIn, answer.tokensOut)
  {
  }

  /** A terminal call that takes effect reports no more than was reserved, and leaves the estimates as they were. */
  lemma ClosedWithin(s: State, rid: nat, lines: seq<UsageLine>, delivery: Delivery, reason: Reason, key: Key, now: int, charge: bool, scan: Scan)
    requires Inv(s) && ValidLines(lines, true)
    requires (charge <==> !delivery.NoDeliverable?) && (charge <==> reason.UsageSettled?)
    requires Terminate(s, rid, lines, delivery, reason, key, now, charge, scan).Ok?
    requires !Terminate(s, rid, lines, delivery, reason, key, now, charge, scan).value.1.replayed
    ensures var t := Terminate(s, rid, lines, delivery, reason, key, now, charge, scan).value.0;
            && Closable(s, rid, lines, now, charge)
            && rid < |t.reservations| && t.reservations[rid].items == s.reservations[rid].items
  {
    hide Core, Started, Close, Closable, Terminate;
    FreshReceipt(s, rid, lines, delivery, reason, key, now, charge, scan);
    CloseTotal(s, rid, lines, delivery, reason, key, now, charge);
    CloseKeeps(s, rid, lines, delivery, reason, key, now, charge);
    ClosableRow(s, rid, lines, now, charge);
  }

  lemma ClosableRow(s: State, rid: nat, lines: seq<UsageLine>, now: int, charge: bool)
    requires Closable(s, rid, lines, now, charge)
    ensures rid < |s.reservations| && s.reservations[rid].Held()
  {
  }

  lemma CoveredLines(s: State, rid: nat, answer: Answer, now: int, charge: bool)
    requires answer.Usable? && Closable(s, rid, Lines(answer), now, charge)
    ensures rid < |s.reservations| && Covers(s.reservations[rid].items, answer)
  {
    var items := s.reservations[rid].items;
    var lines := Lines(answer);
    assert lines[0] in lines && lines[1] in lines;
    assert items[FindItem(items, GeminiInputToken).value] in items;
    assert items[FindItem(items, GeminiOutputToken).value] in items;
  }

  /** Settling a held reservation with the answer's lines charges the tokens. */
  lemma SettleFits(s: State, rid: nat, answer: Answer, key: Key, now: int, scan: Scan)
    requires Inv(s) && answer.Usable? && rid < |s.reservations| && s.reservations[rid].Held()
    requires Settle(s, rid, Lines(answer), Delivered, key, now, scan).Ok?
    ensures var t := Settle(s, rid, Lines(answer), Delivered, key, now, scan).value.0;
            && rid < |t.reservations| && t.reservations[rid].terminal.Some?
            && EndFits(t.reservations[rid], answer)
  {
    hide Core, Started, Terminate, Extends, SameLines, TerminalReceiptOf, Lines, SumOf, Covers, Closable;
    LinesSorted(answer);
    SortedLines(Lines(answer), false);
    LinesWeaken(Lines(answer));
    TerminateExtends(s, rid, Lines(answer), Delivered, UsageSettled, key, now, true, scan);
    var (t, receipt) := Settle(s, rid, Lines(answer), Delivered, key, now, scan).value;
    RecordedLines(t.reservations[rid].terminal.value.records, answer);
    assert !receipt.replayed;
    ClosedWithin(s, rid, Lines(answer), Delivered, UsageSettled, key, now, true, scan);
    CoveredLines(s, rid, answer, now, true);
    SettleCosts(s, rid, Lines(answer), Delivered, key, now, scan);
    LinesPrice(answer);
    ReceiptConsumed(t.reservations[rid], rid, receipt);
  }

  /** Giving a held reservation back charges nothing and says why. */
  lemma ReleaseFits(s: State, rid: nat, answer: Answer, key: Key, now: int, scan: Scan)
    requires Inv(s) && rid < |s.reservations| && s.reservations[rid].Held() && !Blame(answer).UsageSettled?
    requires var usage := if answer.Usable? then Lines(answer) else [];
             Release(s, rid, usage, Blame(answer), key, now, scan).Ok?
    ensures var usage := if answer.Usable? then Lines(answer) else [];
            var t := Release(s, rid, usage, Blame(answer), key, now, scan).value.0;
            && rid < |t.reservations| && t.reservations[rid].terminal.Some?
            && EndFits(t.reservations[rid], answer)
  {
    hide Core, Started, Terminate, Extends, SameLines, TerminalReceiptOf, Lines, SumOf, Blame, Covers, Closable;
    var usage := if answer.Usable? then Lines(answer) else [];
    if answer.Usable? {
      LinesSorted(answer);
    } else {
      NothingSorted();
    }
    SortedLines(usage, true);
    TerminateExtends(s, rid, usage, NoDeliverable, Blame(answer), key, now, false, scan);
    var (t, receipt) := Release(s, rid, usage, Blame(answer), key, now, scan).value;
    assert !receipt.replayed;
    ClosedWithin(s, rid, usage, NoDeliverable, Blame(answer), key, now, false, scan);
    if answer.Usable? {
      CoveredLines(s, rid, answer, now, false);
    }
    TerminateCosts(s, rid, usage, NoDeliverable, Blame(answer), key, now, false, scan);
    ReceiptConsumed(t.reservations[rid], rid, receipt);
    RecordsOfAnswer(t.reservations[rid].terminal.value.records, answer);
  }

  lemma RecordsOfAnswer(records: seq<UsageRecord>, answer: Answer)
    requires SameLines(records, if answer.Usable? then Lines(answer) else [])
    ensures if answer.Usable? then TokensRecorded(records, answer.tokensIn, answer.tokensOut) else records == []
  {
  }

  // ---------------------------------------------------------------- one bank call

  /** If the call closes a prompt reservation, its end fits the answer. */
  ghost predicate ClosesFitting(u: nat, rs: seq<Reservation>, ts: seq<Reservation>, c: Call, heard: Answers) {
    (c.CallSettle? || c.CallRelease?) && c.rid < |rs| && |ts| == |rs| && rs[c.rid].Held() && ts[c.rid].terminal.Some? ==>
      forall q: nat | rs[c.rid].key == PromptReserve(q) :: (u, q) in heard && EndFits(ts[c.rid], heard[(u, q)])
  }

  lemma MovesKeepEnds(u: nat, rs: seq<Reservation>, ts: seq<Reservation>, c: Call, heard: Answers)
    requires Moves(rs, ts, c) && EndsFit(u, rs, heard) && ClosesFitting(u, rs, ts, c, heard)
    ensures EndsFit(u, ts, heard)
  {
    hide EndFits;
    forall i, q: nat | 0 <= i < |ts| && ts[i].key == PromptReserve(q) && ts[i].terminal.Some?
      ensures (u, q) in heard && EndFits(ts[i], heard[(u, q)])
    {
      assert i < |rs| && ts[..|rs|] == rs ==> ts[i] == ts[..|rs|][i];
      if i < |rs| && rs[i].terminal.Some? {
        assert rs[i].key == PromptReserve(q) && ts[i].terminal == rs[i].terminal;
      }
    }
  }

  lemma BankStepBilled(y: System, heard: Answers, u: nat, c: Call)
    requires SystemOk(y) && Billed(y, heard) && u in y.banks && Allowed(c)
    requires ClosesFitting(u, y.banks[u].reservations, Step(y.banks[u], c).reservations, c, heard)
    ensures Billed(y.(banks := y.banks[u := Step(y.banks[u], c)]), heard)
  {
    hide Inv, Step, Allowed, Moves, EndsFit, ClosesFitting, OwnKeys, TasksOk, CallsOk, RowsOk, PcFits;
    var s := y.banks[u];
    StepMoves(s, c);
    MovesKeepEnds(u, s.reservations, Step(s, c).reservations, c, heard);
  }

  lemma AtBilled(y: System, heard: Answers, k: nat, pc: Pc)
    requires Billed(y, heard) && k in y.tasks && PcFits(y.tasks[k].(pc := pc), heard)
    ensures Billed(At(y, k, pc), heard)
  {
    hide PcFits, EndsFit;
    var z := At(y, k, pc);
    forall j | j in z.tasks
      ensures PcFits(z.tasks[j], heard)
    {
      if j != k {
        assert PcFits(y.tasks[j], heard);
      }
    }
  }

  // ---------------------------------------------------------------- the steps

  lemma AdmitBilled(y: System, heard: Answers, a: Action)
    requires SystemOk(y) && Billed(y, heard) && a.AdmitTask? && Enabled(y, a)
    ensures Billed(AdmitStep(y, a), heard)
  {
    hide SystemOk, Billed, Step, Reserve, Estimates, Allowed;
    var t := y.tasks[a.task];
    var s := y.banks[t.user];
    if t.request in y.rows {
      AtBilled(y, heard, a.task, Done(if y.rows[t.request] == Enhancement(t.user, t.payload) then Answered(true) else Refused));
    } else {
      var r := Reserve(s, PromptReserve(t.request), Estimates(a), a.now, a.tag, a.scan);
      if r.Err? || r.value.1.replayed || a.report.Failed? {
        AtBilled(y, heard, a.task, Done(Refused));
      } else {
        var z := y.(banks := y.banks[t.user := Step(s, Reserving(y, a))]);
        ReservingAllowed(y, a);
        BankStepBilled(y, heard, t.user, Reserving(y, a));
        AtBilled(z, heard, a.task, if a.report.Acknowledged? then Reserved(r.value.1.reservation) else Done(Refused));
      }
    }
  }

  lemma ReservingAllowed(y: System, a: Action)
    requires a.AdmitTask? && a.task in y.tasks
    ensures Allowed(Reserving(y, a)) && Reserving(y, a).CallReserve?
  {
  }

  lemma CallBilled(y: System, heard: Answers, a: Action)
    requires SystemOk(y) && Billed(y, heard) && a.CallProvider? && Enabled(y, a)
    ensures Billed(Next(y, a), HeardNext(y, heard, a))
  {
    hide SystemOk, PcFits, EndFits, Step;
    var t := y.tasks[a.task];
    var next := HeardNext(y, heard, a);
    var z := Next(y, a);
    assert (t.user, t.request) !in y.calls by { NotYetCalled(y, a.task); }
    assert PcFits(t.(pc := AfterCall(t.pc.rid, a.answer)), next) by { AfterCallFits(t, a.answer, next); }
    forall j | j in z.tasks
      ensures PcFits(z.tasks[j], next)
    {
      if j != a.task {
        assert PcFits(y.tasks[j], heard);
        PcKeeps(y.tasks[j], heard, next);
      }
    }
    forall u | u in z.banks
      ensures EndsFit(u, z.banks[u].reservations, next)
    {
      assert EndsFit(u, y.banks[u].reservations, heard);
    }
  }

  lemma NotYetCalled(y: System, k: nat)
    requires SystemOk(y) && k in y.tasks && y.tasks[k].pc.Reserved?
    ensures (y.tasks[k].user, y.tasks[k].request) !in y.calls
  {
    hide BanksOk, CallsOk, RowsOk;
    assert TaskOk(y, y.tasks[k]);
  }

  lemma AfterCallFits(t: Task, answer: Answer, heard: Answers)
    requires t.pc.Reserved? && (t.user, t.request) in heard && heard[(t.user, t.request)] == answer
    ensures PcFits(t.(pc := AfterCall(t.pc.rid, answer)), heard)
  {
  }

  /** Hearing more changes nothing about what was heard. */
  lemma PcKeeps(t: Task, heard: Answers, next: Answers)
    requires PcFits(t, heard) && forall c | c in heard :: c in next && next[c] == heard[c]
    ensures PcFits(t, next)
  {
  }

  lemma DeliverBilled(y: System, heard: Answers, a: Action)
    requires SystemOk(y) && Billed(y, heard) && a.Deliver? && Enabled(y, a)
    ensures Billed(DeliverStep(y, a), heard)
  {
    hide SystemOk, Billed, PcFits, Step, Settle, Allowed, ClosesFitting;
    var t := y.tasks[a.task];
    var s := y.banks[t.user];
    var failed := Compensating(t.pc.rid, t.pc.usage, DeliveryFailed);
    assert PcFits(t.(pc := failed), heard) by { DeliveringFits(y, heard, a.task); }
    if t.request in y.rows || a.report.Failed?
       || Settle(s, t.pc.rid, t.pc.usage, Delivered, PromptTerminal(t.request), a.now, a.scan).Err? {
      AtBilled(y, heard, a.task, failed);
    } else {
      SettlingFits(y, heard, a);
      BankStepBilled(y, heard, t.user, Settling(y, a));
      var z := y.(banks := y.banks[t.user := Step(s, Settling(y, a))]);
      var w := z.(rows := y.rows[t.request := Enhancement(t.user, t.payload)]);
      assert Billed(w, heard) by { RowsBilled(z, w, heard); }
      assert PcFits(t.(pc := Done(Answered(false))), heard) by { DoneFits(t, Answered(false), heard); }
      AtBilled(w, heard, a.task, if a.report.Acknowledged? then Done(Answered(false)) else failed);
    }
  }

  lemma DoneFits(t: Task, outcome: PromptProtocol.Outcome, heard: Answers)
    ensures PcFits(t.(pc := Done(outcome)), heard)
  {
  }

  lemma RowsBilled(y: System, z: System, heard: Answers)
    requires Billed(y, heard) && z == y.(rows := z.rows)
    ensures Billed(z, heard)
  {
    hide PcFits, EndsFit;
  }

  lemma DeliveringFits(y: System, heard: Answers, k: nat)
    requires Billed(y, heard) && k in y.tasks && y.tasks[k].pc.Delivering?
    ensures var t := y.tasks[k];
            && (t.user, t.request) in heard && heard[(t.user, t.request)].Usable? && t.pc.usage == Lines(heard[(t.user, t.request)])
            && PcFits(t.(pc := Compensating(t.pc.rid, t.pc.usage, DeliveryFailed)), heard)
  {
    hide EndsFit;
    assert PcFits(y.tasks[k], heard);
  }

  lemma SettlingFits(y: System, heard: Answers, a: Action)
    requires SystemOk(y) && Billed(y, heard) && a.Deliver? && Enabled(y, a)
    requires var t := y.tasks[a.task];
             Settle(y.banks[t.user], t.pc.rid, t.pc.usage, Delivered, PromptTerminal(t.request), a.now, a.scan).Ok?
    ensures var u, c := y.tasks[a.task].user, Settling(y, a);
            Allowed(c) && ClosesFitting(u, y.banks[u].reservations, Step(y.banks[u], c).reservations, c, heard)
  {
    hide Billed, Settle, EndFits, Inv, OwnKeys, TasksOk, CallsOk, RowsOk;
    var t := y.tasks[a.task];
    var s := y.banks[t.user];
    assert Inv(s);
    DeliveringFits(y, heard, a.task);
    InFlight(y, a.task);
    if s.reservations[t.pc.rid].Held() {
      SettleFits(s, t.pc.rid, heard[(t.user, t.request)], PromptTerminal(t.request), a.now, a.scan);
    }
  }

  lemma InFlight(y: System, k: nat)
    requires SystemOk(y) && k in y.tasks && RidOf(y.tasks[k].pc).Some?
    ensures var t := y.tasks[k];
            && t.user in y.banks && Inv(y.banks[t.user])
            && RidOf(t.pc).value < |y.banks[t.user].reservations|
            && y.banks[t.user].reservations[RidOf(t.pc).value].key == PromptReserve(t.request)
            && (t.pc.Compensating? ==> !t.pc.reason.UsageSettled?)
  {
    hide Inv, OwnKeys, CallsOk, RowsOk;
    assert TaskOk(y, y.tasks[k]);
  }

  lemma CompensatingFits(y: System, heard: Answers, k: nat)
    requires Billed(y, heard) && k in y.tasks && y.tasks[k].pc.Compensating?
    ensures var t := y.tasks[k];
            && (t.user, t.request) in heard && t.pc.reason == Blame(heard[(t.user, t.request)])
            && t.pc.usage == if heard[(t.user, t.request)].Usable? then Lines(heard[(t.user, t.request)]) else []
  {
    hide EndsFit;
    assert PcFits(y.tasks[k], heard);
  }

  lemma ReleasingFits(y: System, heard: Answers, a: Action)
    requires SystemOk(y) && Billed(y, heard) && a.Compensate? && Enabled(y, a)
    ensures var u, c := y.tasks[a.task].user, Releasing(y, a);
            Allowed(c) && ClosesFitting(u, y.banks[u].reservations, Step(y.banks[u], c).reservations, c, heard)
  {
    hide SystemOk, Billed, Release, EndFits, Inv;
    var t := y.tasks[a.task];
    var s := y.banks[t.user];
    CompensatingFits(y, heard, a.task);
    InFlight(y, a.task);
    if s.reservations[t.pc.rid].Held()
       && Release(s, t.pc.rid, t.pc.usage, t.pc.reason, PromptTerminal(t.request), a.now, a.scan).Ok? {
      ReleaseFits(s, t.pc.rid, heard[(t.user, t.request)], PromptTerminal(t.request), a.now, a.scan);
    }
  }

  lemma CompensateBilled(y: System, heard: Answers, a: Action)
    requires SystemOk(y) && Billed(y, heard) && a.Compensate? && Enabled(y, a)
    ensures Billed(CompensateStep(y, a), heard)
  {
    hide SystemOk, Billed, PcFits, Step, Release, Allowed, ClosesFitting;
    var t := y.tasks[a.task];
    var s := y.banks[t.user];
    assert PcFits(t.(pc := Done(Refused)), heard) by { DoneFits(t, Refused, heard); }
    if a.report.Failed? {
      assert y.banks[t.user := s] == y.banks;
      AtBilled(y, heard, a.task, Done(Refused));
    } else {
      ReleasingFits(y, heard, a);
      BankStepBilled(y, heard, t.user, Releasing(y, a));
      AtBilled(y.(banks := y.banks[t.user := Step(s, Releasing(y, a))]), heard, a.task, Done(Refused));
    }
  }

  lemma ForeignBilled(y: System, heard: Answers, u: nat, c: Call)
    requires SystemOk(y) && Billed(y, heard) && u in y.banks && Foreign(y.banks[u], c)
    ensures Billed(y.(banks := y.banks[u := Step(y.banks[u], c)]), heard)
  {
    hide SystemOk, Billed, Step, Allowed;
    BankStepBilled(y, heard, u, c);
  }

  lemma ArriveBilled(y: System, heard: Answers, task: nat, t: Task)
    requires Billed(y, heard) && task !in y.tasks && t.pc.Fresh?
    ensures Billed(y.(tasks := y.tasks[task := t]), heard)
  {
    hide EndsFit;
    var z := y.(tasks := y.tasks[task := t]);
    forall j | j in z.tasks
      ensures PcFits(z.tasks[j], heard)
    {
      if j != task {
        assert PcFits(y.tasks[j], heard);
      }
    }
  }

  /** Every step keeps charges and answers together. */
  lemma NextBilled(y: System, heard: Answers, a: Action)
    requires SystemOk(y) && Billed(y, heard)
    ensures Billed(Next(y, a), HeardNext(y, heard, a))
  {
    hide SystemOk, Billed, Foreign, Step, AdmitStep, DeliverStep, CompensateStep, AfterCall, PcFits;
    if Enabled(y, a) {
      match a
      case Arrive(task, user, request, payload) => ArriveBilled(y, heard, task, Task(user, request, payload, Fresh));
      case AdmitTask(_, _, _, _, _, _, _) => AdmitBilled(y, heard, a);
      case CallProvider(task, answer) => CallBilled(y, heard, a);
      case Deliver(_, _, _, _) => DeliverBilled(y, heard, a);
      case Compensate(_, _, _, _) => CompensateBilled(y, heard, a);
      case Crash(task) =>
        DoneFits(y.tasks[task], Refused, heard);
        AtBilled(y, heard, task, Done(Refused));
      case Elsewhere(user, c) => ForeignBilled(y, heard, user, c);
    }
  }

  lemma {:induction false} RunBilled(y: System, actions: seq<Action>)
    requires Beginning(y)
    ensures SystemOk(Execute(y, actions)) && Billed(Execute(y, actions), Heard(y, actions))
  {
    hide SystemOk, Billed, Next, HeardNext, Beginning;
    ExecuteKeeps(y, actions) by { BeginningOk(y); }
    if actions == [] {
      NothingBilled(y);
    } else {
      var init := actions[..|actions| - 1];
      RunBilled(y, init);
      NextBilled(Execute(y, init), Heard(y, init), actions[|actions| - 1]);
    }
  }

  lemma NothingBilled(y: System)
    requires Beginning(y)
    ensures Billed(y, map[])
  {
    hide Reachable;
  }

  // ---------------------------------------------------------------- what every run charges

  /**
   * Behind every stored answer, after every run, stands the reservation of its
   * request, settled for the price of the tokens the provider reported in its
   * one call, with these tokens on record.
   */
  lemma StoredAnswerIsBilled(start: System, actions: seq<Action>, q: nat)
    requires Beginning(start) && q in Execute(start, actions).rows
    ensures var y := Execute(start, actions);
            var u := y.rows[q].owner;
            && u in y.banks && (u, q) in Heard(start, actions) && Heard(start, actions)[(u, q)].Usable?
            && var answer := Heard(start, actions)[(u, q)];
            exists i | 0 <= i < |y.banks[u].reservations| ::
              var r := y.banks[u].reservations[i];
              && r.key == PromptReserve(q) && r.terminal.Some? && r.terminal.value.settled
              && TokensRecorded(r.terminal.value.records, answer.tokensIn, answer.tokensOut)
              && SumOf(r.terminal.value.records, ChargedOf) == 1000 * answer.tokensIn + 4000 * answer.tokensOut
  {
    hide Beginning, SystemOk, Billed, Execute, Heard, SumOf, Covers, TokensRecorded;
    RunBilled(start, actions);
    var y := Execute(start, actions);
    RowOwner(y, q);
    var i := SettledRow(y, y.rows[q].owner, q);
    EndIsBilled(start, actions, y.rows[q].owner, i, q);
  }

  lemma RowOwner(y: System, q: nat)
    requires SystemOk(y) && q in y.rows
    ensures y.rows[q].owner in y.banks
  {
    hide BanksOk, TasksOk, CallsOk;
  }

  /** However a prompt reservation ended, it ended as the provider's answer says: charged only for a usable answer, and otherwise given back for the reason at fault. */
  lemma EndIsBilled(start: System, actions: seq<Action>, u: nat, i: nat, q: nat)
    requires Beginning(start) && u in Execute(start, actions).banks
    requires i < |Execute(start, actions).banks[u].reservations|
    requires Execute(start, actions).banks[u].reservations[i].key == PromptReserve(q)
    requires Execute(start, actions).banks[u].reservations[i].terminal.Some?
    ensures (u, q) in Execute(start, actions).calls && (u, q) in Heard(start, actions)
    ensures EndFits(Execute(start, actions).banks[u].reservations[i], Heard(start, actions)[(u, q)])
  {
    hide Beginning, SystemOk, Execute, Heard, EndFits, TasksFit;
    RunBilled(start, actions);
    assert EndsFit(u, Execute(start, actions).banks[u].reservations, Heard(start, actions));
  }

  /**
   * When the provider reports more tokens than were reserved, neither the
   * settlement nor the compensating release is accepted: no run ever closes
   * that reservation.
   */
  lemma OverrunIsNeverClosed(start: System, actions: seq<Action>, u: nat, i: nat, q: nat)
    requires Beginning(start) && u in Execute(start, actions).banks
    requires i < |Execute(start, actions).banks[u].reservations|
    requires Execute(start, actions).banks[u].reservations[i].key == PromptReserve(q)
    requires (u, q) in Heard(start, actions) && Heard(start, actions)[(u, q)].Usable?
    requires !Covers(Execute(start, actions).banks[u].reservations[i].items, Heard(start, actions)[(u, q)])
    ensures Execute(start, actions).banks[u].reservations[i].Held()
    ensures q in Execute(start, actions).rows ==> Execute(start, actions).rows[q].owner != u
  {
    hide Beginning, SystemOk, Billed, Inv, Execute, Heard, Covers, SumOf;
    var y := Execute(start, actions);
    if y.banks[u].reservations[i].terminal.Some? {
      EndIsBilled(start, actions, u, i, q);
    }
    RunBilled(start, actions);
    if q in y.rows && y.rows[q].owner == u {
      var j := SettledRow(y, u, q);
      OneRow(y.banks[u], i, j);
    }
  }

  lemma MovesKeepItems(rs: seq<Reservation>, ts: seq<Reservation>, c: Call, i: nat)
    requires Moves(rs, ts, c) && i < |rs|
    ensures i < |ts| && ts[i].key == rs[i].key && ts[i].items == rs[i].items
  {
    assert ts[..|rs|] == rs && |rs| <= |ts| ==> ts[i] == ts[..|rs|][i];
  }

  /** Key and estimates of a reservation never change. */
  lemma RowKept(y: System, a: Action, u: nat, i: nat)
    requires SystemOk(y) && u in y.banks && i < |y.banks[u].reservations|
    ensures u in Next(y, a).banks && i < |Next(y, a).banks[u].reservations|
    ensures Next(y, a).banks[u].reservations[i].key == y.banks[u].reservations[i].key
    ensures Next(y, a).banks[u].reservations[i].items == y.banks[u].reservations[i].items
  {
    hide SystemOk, Inv, Step, Reserve, Settle, Moves, Allowed, AfterCall;
    BankInv(y, u);
    if Enabled(y, a) {
      match a
      case Arrive(_, _, _, _) =>
      case AdmitTask(task, _, _, _, _, _, _) =>
        if y.tasks[task].user == u {
          ReservingAllowed(y, a);
          StepMoves(y.banks[u], Reserving(y, a));
          MovesKeepItems(y.banks[u].reservations, Step(y.banks[u], Reserving(y, a)).reservations, Reserving(y, a), i);
        }
      case CallProvider(_, _) =>
      case Deliver(task, _, _, _) =>
        if y.tasks[task].user == u {
          TerminalAllowed(Settling(y, a));
          StepMoves(y.banks[u], Settling(y, a));
          MovesKeepItems(y.banks[u].reservations, Step(y.banks[u], Settling(y, a)).reservations, Settling(y, a), i);
        }
      case Compensate(task, _, _, _) =>
        if y.tasks[task].user == u {
          TerminalAllowed(Releasing(y, a));
          StepMoves(y.banks[u], Releasing(y, a));
          MovesKeepItems(y.banks[u].reservations, Step(y.banks[u], Releasing(y, a)).reservations, Releasing(y, a), i);
        }
      case Crash(_) =>
      case Elsewhere(user, c) =>
        if user == u {
          StepMoves(y.banks[u], c);
          MovesKeepItems(y.banks[u].reservations, Step(y.banks[u], c).reservations, c, i);
        }
    }
  }

  lemma TerminalAllowed(c: Call)
    requires c.CallSettle? || c.CallRelease?
    ensures Allowed(c)
  {
  }

  /** What was heard of a request is never replaced. */
  lemma HeardKept(y: System, heard: Answers, a: Action, c: (nat, nat))
    requires SystemOk(y) && Billed(y, heard) && c in heard
    ensures c in HeardNext(y, heard, a) && HeardNext(y, heard, a)[c] == heard[c]
  {
    hide SystemOk, TasksFit, EndsFit;
    if a.CallProvider? && Enabled(y, a) {
      NotYetCalled(y, a.task);
    }
  }

  /** And so it stays: once more tokens were reported than reserved, the reservation is held after whatever happens next. */
  lemma {:induction false} OverrunStays(start: System, actions: seq<Action>, more: seq<Action>, u: nat, i: nat, q: nat)
    requires Beginning(start) && u in Execute(start, actions).banks
    requires i < |Execute(start, actions).banks[u].reservations|
    requires Execute(start, actions).banks[u].reservations[i].key == PromptReserve(q)
    requires (u, q) in Heard(start, actions) && Heard(start, actions)[(u, q)].Usable?
    requires !Covers(Execute(start, actions).banks[u].reservations[i].items, Heard(start, actions)[(u, q)])
    ensures var y := Execute(start, actions + more);
            && u in y.banks && i < |y.banks[u].reservations| && y.banks[u].reservations[i].Held()
            && y.banks[u].reservations[i].key == PromptReserve(q)
            && y.banks[u].reservations[i].items == Execute(start, actions).banks[u].reservations[i].items
            && (u, q) in Heard(start, actions + more) && Heard(start, actions + more)[(u, q)] == Heard(start, actions)[(u, q)]
  {
    hide Beginning, SystemOk, Billed, Covers, Next, HeardNext;
    if more == [] {
      assert actions + more == actions;
    } else {
      var init := more[..|more| - 1];
      OverrunStays(start, actions, init, u, i, q);
      assert (actions + more)[..|actions + more| - 1] == actions + init;
      RunBilled(start, actions + init);
      var y, a := Execute(start, actions + init), more[|more| - 1];
      RowKept(y, a, u, i);
      HeardKept(y, Heard(start, actions + init), a, (u, q));
    }
    OverrunIsNeverClosed(start, actions + more, u, i, q);
  }

  lemma OneRow(s: State, i: nat, j: nat)
    requires Inv(s) && i < |s.reservations| && j < |s.reservations| && s.reservations[i].key == s.reservations[j].key
    ensures i == j
  {
    hide ReservationOk, CyclesOk, GrantsOk, LedgerOk, HoldsOk, NoResurrection, OperationsOk, AccountOk, Started;
  }

  /**
   * The first transaction, when it opens a reservation, reserves the stated
   * maxima of input and output tokens at their price; when its caller hears of
   * it, the task goes on with that reservation.
   */
  lemma AdmitHolds(y: System, a: Action)
    requires ReachableSystem(y) && a.AdmitTask? && Enabled(y, a)
    ensures var u := y.tasks[a.task].user;
            var rs, ts := y.banks[u].reservations, Next(y, a).banks[u].reservations;
            && (Next(y, a).tasks[a.task].pc.Reserved? ==> ts != rs && Next(y, a).tasks[a.task].pc.rid == |rs|)
            && (ts != rs ==>
                  && Opens(rs, ts, PromptReserve(y.tasks[a.task].request))
                  && ts[|rs|].total == 1000 * a.maximumIn + 4000 * a.maximumOut
                  && |ts[|rs|].items| == 2
                  && ts[|rs|].items[0].meter == GeminiInputToken && ts[|rs|].items[0].maximumUnits == a.maximumIn
                  && ts[|rs|].items[1].meter == GeminiOutputToken && ts[|rs|].items[1].maximumUnits == a.maximumOut)
  {
    hide ReachableSystem, SystemOk, Inv, Reserve, Step;
    ReachableSystemOk(y);
    var t := y.tasks[a.task];
    assert Inv(y.banks[t.user]) by { BankInv(y, t.user); }
    if t.request !in y.rows {
      var r := Reserve(y.banks[t.user], PromptReserve(t.request), Estimates(a), a.now, a.tag, a.scan);
      if r.Ok? && !r.value.1.replayed {
        OpensFor(y.banks[t.user], PromptReserve(t.request), a);
      }
    }
  }

  lemma BankInv(y: System, u: nat)
    requires SystemOk(y) && u in y.banks
    ensures Inv(y.banks[u])
  {
    hide Inv, TasksOk, CallsOk, RowsOk;
  }

  lemma OpensFor(s: State, key: Key, a: Action)
    requires Inv(s) && a.AdmitTask?
    requires Reserve(s, key, Estimates(a), a.now, a.tag, a.scan).Ok?
    requires !Reserve(s, key, Estimates(a), a.now, a.tag, a.scan).value.1.replayed
    ensures var (t, receipt) := Reserve(s, key, Estimates(a), a.now, a.tag, a.scan).value;
            var rs, ts := s.reservations, t.reservations;
            && t == Step(s, CallReserve(key, Estimates(a), a.now, a.tag, a.scan))
            && Opens(rs, ts, key) && receipt.reservation == |rs|
            && ts[|rs|].total == 1000 * a.maximumIn + 4000 * a.maximumOut
            && |ts[|rs|].items| == 2
            && ts[|rs|].items[0].meter == GeminiInputToken && ts[|rs|].items[0].maximumUnits == a.maximumIn
            && ts[|rs|].items[1].meter == GeminiOutputToken && ts[|rs|].items[1].maximumUnits == a.maximumOut
  {
    hide Core, Started, Reserve, Extends, SumOf, ValidEstimates, Sort;
    var es := Estimates(a);
    assert Step(s, CallReserve(key, es, a.now, a.tag, a.scan)) == Reserve(s, key, es, a.now, a.tag, a.scan).value.0;
    ReserveMoves(s, key, es, a.now, a.tag, a.scan);
    ReserveExtends(s, key, es, a.now, a.tag, a.scan);
    ReservePrice(s, key, es, a.now, a.tag, a.scan);
    SortedMaxima(a);
    MaximaPrice(a);
  }

  lemma SortedMaxima(a: Action)
    requires a.AdmitTask?
    ensures Sort(Estimates(a), EstimateLeq) == Estimates(a)
  {
    SortedPair(Estimates(a)[0], Estimates(a)[1], EstimateLeq);
  }

  lemma MaximaPrice(a: Action)
    requires a.AdmitTask?
    ensures SumOf(Estimates(a), EstimatePrice) == 1000 * a.maximumIn + 4000 * a.maximumOut
  {
    var x, y := Estimates(a)[0], Estimates(a)[1];
    SumOfAppend([x], y, EstimatePrice);
    SumOfOne([x], EstimatePrice);
    assert [x] + [y] == Estimates(a);
  }

  // ---------------------------------------------------------------- when an answer is stored

  /** A request that already has a stored row is answered from it, and only for its own user and payload; nothing else changes. */
  lemma RepeatIsAnswered(y: System, a: Action)
    requires a.AdmitTask? && Enabled(y, a) && y.tasks[a.task].request in y.rows
    ensures var t, row := y.tasks[a.task], y.rows[y.tasks[a.task].request];
            && Next(y, a) == At(y, a.task, Next(y, a).tasks[a.task].pc)
            && Next(y, a).tasks[a.task].pc == Done(if row.owner == t.user && row.payload == t.payload then Answered(true) else Refused)
  {
    hide Step, Reserve;
  }

  /** What must hold for the second transaction to go through, besides its commit. */
  ghost predicate Deliverable(s: State, rid: nat, answer: Answer, now: int, scan: Scan)
    requires answer.Usable?
  {
    && LedgerCheck(scan(s.book.ledger), s.book.grants).Pass?
    && AsOf(s) <= now && rid < |s.reservations| && s.reservations[rid].Held()
    && Covers(s.reservations[rid].items, answer)
    && 0 <= answer.tokensIn && 0 <= answer.tokensOut && 0 < answer.tokensIn + answer.tokensOut
  }

  lemma SettleWhen(s: State, rid: nat, answer: Answer, key: Key, now: int, scan: Scan)
    requires Inv(s) && answer.Usable? && FindTerminal(s.reservations, key).None?
    ensures Settle(s, rid, Lines(answer), Delivered, key, now, scan).Ok? <==> Deliverable(s, rid, answer, now, scan)
  {
    hide Inv, LedgerCheck, FindTerminal, Terminate, Closable, Covers, FindItem;
    if ValidLines(Lines(answer), false) {
      SettleTotal(s, rid, Lines(answer), Delivered, key, now, scan);
      hide Settle;
      ClosableWhen(s, rid, answer, now);
    } else if Deliverable(s, rid, answer, now, scan) {
      CoversFits(s, rid, answer);
      ValidPair(answer);
      assert false;
    }
  }

  lemma ValidPair(answer: Answer)
    requires answer.Usable? && 0 <= answer.tokensIn <= MAX_BIGINT && 0 <= answer.tokensOut <= MAX_BIGINT
    ensures ValidLines(Lines(answer), false)
  {
  }

  lemma CoversFits(s: State, rid: nat, answer: Answer)
    requires Inv(s) && answer.Usable? && rid < |s.reservations| && Covers(s.reservations[rid].items, answer)
    ensures answer.tokensIn <= MAX_BIGINT && answer.tokensOut <= MAX_BIGINT
  {
    hide Core;
    ItemFacts(s, rid);
  }

  lemma ClosableWhen(s: State, rid: nat, answer: Answer, now: int)
    requires Inv(s) && answer.Usable? && ValidLines(Lines(answer), false)
    ensures Closable(s, rid, Lines(answer), now, true)
            <==> && AsOf(s) <= now && rid < |s.reservations| && s.reservations[rid].Held()
                 && Covers(s.reservations[rid].items, answer) && 0 < answer.tokensIn + answer.tokensOut
  {
    hide Inv, FindItem;
    var lines := Lines(answer);
    assert lines[0] in lines && lines[1] in lines;
    if Closable(s, rid, lines, now, true) {
      CoveredLines(s, rid, answer, now, true);
    } else if rid < |s.reservations| && Covers(s.reservations[rid].items, answer) {
      ItemsFind(s, rid, answer);
    }
  }

  lemma ItemsFind(s: State, rid: nat, answer: Answer)
    requires Inv(s) && answer.Usable? && rid < |s.reservations| && Covers(s.reservations[rid].items, answer)
    ensures var items := s.reservations[rid].items;
            && FindItem(items, GeminiInputToken).Some? && answer.tokensIn <= items[FindItem(items, GeminiInputToken).value].maximumUnits
            && FindItem(items, GeminiOutputToken).Some? && answer.tokensOut <= items[FindItem(items, GeminiOutputToken).value].maximumUnits
  {
    hide Inv;
    ItemFacts(s, rid);
  }

  lemma SettleBlocked(s: State, i: nat, rid: nat, usage: seq<UsageLine>, key: Key, now: int, scan: Scan)
    requires FindTerminal(s.reservations, key) == Some(i) && !Settled(s.reservations[i])
    ensures Settle(s, rid, usage, Delivered, key, now, scan).Err?
  {
    hide Close, LedgerCheck, ReservationCoherent, SameLines, TerminalReceiptOf, FindTerminal, Sort, ValidLines;
  }

  /** The reservation of a task in flight is the one its terminal key can have closed. */
  lemma ClosedAlready(y: System, k: nat, i: nat)
    requires SystemOk(y) && k in y.tasks && y.tasks[k].pc.Delivering? && y.tasks[k].request !in y.rows
    requires y.tasks[k].user in y.banks
    requires FindTerminal(y.banks[y.tasks[k].user].reservations, PromptTerminal(y.tasks[k].request)) == Some(i)
    ensures i == y.tasks[k].pc.rid
    ensures !Settled(y.banks[y.tasks[k].user].reservations[i]) && !y.banks[y.tasks[k].user].reservations[i].Held()
  {
    hide Inv, TasksOk, CallsOk;
    var t := y.tasks[k];
    InFlight(y, k);
    var rs := y.banks[t.user].reservations;
    assert rs[i].key == PromptReserve(t.request);
    OneRow(y.banks[t.user], i, t.pc.rid);
    assert !SettledFor(rs, t.request);
  }

  /**
   * With no row yet for the request, the second transaction stores the answer
   * exactly when its commit takes effect, the ledger comparison passes, the
   * hold is open, the clock has not gone back and the tokens are some and no
   * more than reserved; a caller who hears of it is answered.
   */
  lemma StoredWhen(start: System, actions: seq<Action>, a: Action)
    requires Beginning(start) && a.Deliver? && Enabled(Execute(start, actions), a)
    requires Execute(start, actions).tasks[a.task].request !in Execute(start, actions).rows
    ensures var y := Execute(start, actions);
            var t, z := y.tasks[a.task], Next(y, a);
            && (t.user, t.request) in Heard(start, actions) && Heard(start, actions)[(t.user, t.request)].Usable?
            && (t.request in z.rows <==>
                  !a.report.Failed? && Deliverable(y.banks[t.user], t.pc.rid, Heard(start, actions)[(t.user, t.request)], a.now, a.scan))
            && (t.request in z.rows ==>
                  && z.rows == y.rows[t.request := Enhancement(t.user, t.payload)]
                  && (a.report.Acknowledged? ==> z.tasks[a.task].pc == Done(Answered(false))))
  {
    hide Beginning, SystemOk, Billed, Execute, Heard, Step, Settle, Deliverable, Inv;
    RunBilled(start, actions);
    var y := Execute(start, actions);
    var t := y.tasks[a.task];
    InFlight(y, a.task);
    DeliveringFits(y, Heard(start, actions), a.task);
    var answer := Heard(start, actions)[(t.user, t.request)];
    var s, key := y.banks[t.user], PromptTerminal(t.request);
    var found := FindTerminal(s.reservations, key);
    if found.Some? {
      ClosedAlready(y, a.task, found.value);
      SettleBlocked(s, found.value, t.pc.rid, t.pc.usage, key, a.now, a.scan);
      NotDeliverable(s, t.pc.rid, answer, a.now, a.scan);
    } else {
      SettleWhen(s, t.pc.rid, answer, key, a.now, a.scan);
    }
  }

  lemma NotDeliverable(s: State, rid: nat, answer: Answer, now: int, scan: Scan)
    requires answer.Usable? && rid < |s.reservations| && !s.reservations[rid].Held()
    ensures !Deliverable(s, rid, answer, now, scan)
  {
    hide LedgerCheck, Covers;
  }
}
