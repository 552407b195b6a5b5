/**
 * Image and video generation: admission puts one reservation behind a job, or
 * behind a pipeline's parent and child together; terminal accounting settles
 * or releases it once.
 */
module GenerationCredit {
  import opened Prelude
  import opened Sorting
  import opened CreditRecords
  import opened CreditAccounting
  import opened CreditInvariant
  import opened AccountingInvariant
  import opened SettlementInvariant
  import opened TerminalCalls
  import opened CreditHistory
  import opened CreditReplay
  import opened CreditStore
  import opened PromptProtocol
  import opened GenerationUsage

  // ---------------------------------------------------------------- metadata

  function MetadataFor(role: CreditRole, reservation: nat, top: nat, parent: Option<nat>, child: Option<nat>): Metadata {
    Metadata(1, role, reservation, GenerationReserve(top), GenerationTerminal(top), top, parent, child)
  }

  /** None when the job carries no metadata at all; metadata that does not fit its own keys is refused. */
  function Parse(parameters: Parameters): Result<Option<Metadata>, GenerationError> {
    if CREDIT_PARAMETER !in parameters then Ok(None)
    else
      match parameters[CREDIT_PARAMETER]
      case Credit(m) =>
        :- Need(m.version == 1 && !m.role.UnknownRole?, Invalid);
        :- Need(m.reserveKey == GenerationReserve(m.top) && m.terminalKey == GenerationTerminal(m.top), Invalid);
        Ok(Some(m))
      case _ => Err(Invalid)
  }

  function WithCredit(parameters: Parameters, m: Metadata): Parameters {
    parameters[CREDIT_PARAMETER := Credit(m)]
  }

  function StripCredit(parameters: Parameters): Parameters {
    parameters - {CREDIT_PARAMETER}
  }

  /** Written metadata reads back; the caller's own parameters are untouched; stripping removes it again. */
  lemma MetadataRoundTrip(parameters: Parameters, role: CreditRole, reservation: nat, top: nat, parent: Option<nat>, child: Option<nat>)
    requires !role.UnknownRole?
    ensures var m := MetadataFor(role, reservation, top, parent, child);
            && Parse(WithCredit(parameters, m)) == Ok(Some(m))
            && StripCredit(WithCredit(parameters, m)) == StripCredit(parameters)
            && Parse(StripCredit(parameters)) == Ok(None)
  {
    var m := MetadataFor(role, reservation, top, parent, child);
    assert StripCredit(WithCredit(parameters, m)) == StripCredit(parameters);
  }

  /** The shared reservation of a pipeline, as both of its jobs know it. */
  predicate Paired(parent: JobRow, child: JobRow, reservation: nat) {
    && Parse(parent.parameters) == Ok(Some(MetadataFor(PipelineParent, reservation, parent.id, Some(parent.id), Some(child.id))))
    && Parse(child.parameters) == Ok(Some(MetadataFor(PipelineChild, reservation, parent.id, Some(parent.id), Some(child.id))))
  }

  // ---------------------------------------------------------------- admission

  datatype AdmissionReceipt = AdmissionReceipt(reservation: nat, reserved: int, replayed: bool)

  class Job {
    const id: nat
    const owner: Option<nat>
    const mode: Mode
    const model: Model
    const parent: Option<nat>
    var parameters: Parameters

    constructor (id: nat, owner: Option<nat>, mode: Mode, model: Model, parent: Option<nat>, parameters: Parameters)
      ensures Row() == JobRow(id, owner, mode, model, parent, parameters)
    {
      this.id, this.owner, this.mode, this.model, this.parent, this.parameters := id, owner, mode, model, parent, parameters;
    }

    function Row(): JobRow
      reads this
    {
      JobRow(id, owner, mode, model, parent, parameters)
    }
  }

  /** What admission does to the credit rows: a reservation under the job's own key, for the job's estimate or the pair's. */
  ghost function Admission(s: State, job: JobRow, child: Option<JobRow>, now: int, tag: nat, scan: Scan)
    : Result<(State, ReservationReceipt), GenerationError>
  {
    var estimates := EstimatesOf(job, child);
    match estimates
    case Err(error) => Err(error)
    case Ok(es) =>
      match Reserve(s, GenerationReserve(job.id), es, now, tag, scan)
      case Ok(made) => Ok(made)
      case Err(error) => Err(Accounting(error))
  }

  /** The receipt names the reservation made under the job's key, which is open unless the call repeats an earlier one. */
  lemma AdmissionReserves(s: State, job: JobRow, child: Option<JobRow>, now: int, tag: nat, scan: Scan)
    requires Inv(s) && Admission(s, job, child, now, tag, scan).Ok?
    ensures var (t, receipt) := Admission(s, job, child, now, tag, scan).value;
            && Inv(t) && receipt.reservation < |t.reservations|
            && var r := t.reservations[receipt.reservation];
            && r.key == GenerationReserve(job.id) && r.total == receipt.total
            && if receipt.replayed then t == s
               else r.Held() && Opens(s.reservations, t.reservations, r.key) && receipt.reservation == |s.reservations|
  {
    hide Core, Started, Reserve, EstimatesOf;
    var es := EstimatesOf(job, child).value;
    StepKeeps(s, CallReserve(GenerationReserve(job.id), es, now, tag, scan));
    ReserveExtends(s, GenerationReserve(job.id), es, now, tag, scan);
    ReserveMoves(s, GenerationReserve(job.id), es, now, tag, scan);
  }

  /** The answer of an admission, and its reservation in the rows it leaves. */
  ghost predicate Admitted(t: State, job: nat, answer: AdmissionReceipt) {
    && answer.reservation < |t.reservations|
    && var r := t.reservations[answer.reservation];
    && r.key == GenerationReserve(job) && r.total == answer.reserved
    && (!answer.replayed ==> r.Held())
  }

  function AnswerOf(receipt: ReservationReceipt): AdmissionReceipt {
    AdmissionReceipt(receipt.reservation, receipt.total, receipt.replayed)
  }

  /** `admit_generation` for a single job: reserve, then write the metadata. */
  method AdmitJob(store: Store, job: Job, now: int, tag: nat, scan: Scan) returns (r: Result<AdmissionReceipt, GenerationError>)
    modifies store, job
    ensures match Admission(old(store.Rows()), old(job.Row()), None, now, tag, scan)
            case Ok((t, receipt)) =>
              && r == Ok(AnswerOf(receipt)) && store.Rows() == t
              && job.parameters == WithCredit(old(job.parameters), MetadataFor(Standalone, receipt.reservation, job.id, None, None))
            case Err(error) => r == Err(error) && store.Rows() == old(store.Rows()) && job.Row() == old(job.Row())
    ensures Inv(old(store.Rows())) ==> Inv(store.Rows()) && (r.Ok? ==> Admitted(store.Rows(), job.id, r.value))
  {
    hide Inv, Step, Reserve, EstimateOf;
    ghost var s, row := store.Rows(), job.Row();
    var estimates := EstimatesOf(job.Row(), None);
    if estimates.Err? {
      return Err(estimates.error);
    }
    var receipt := store.MakeReservation(GenerationReserve(job.id), estimates.value, now, tag, scan);
    if receipt.Err? {
      return Err(Accounting(receipt.error));
    }
    if Inv(s) {
      AdmissionReserves(s, row, None, now, tag, scan);
    }
    job.parameters := WithCredit(job.parameters, MetadataFor(Standalone, receipt.value.reservation, job.id, None, None));
    r := Ok(AdmissionReceipt(receipt.value.reservation, receipt.value.total, receipt.value.replayed));
  }

  /** `admit_generation` for a pipeline: one reservation behind parent and child. */
  method AdmitPipeline(store: Store, job: Job, child: Job, now: int, tag: nat, scan: Scan) returns (r: Result<AdmissionReceipt, GenerationError>)
    requires job != child
    modifies store, job, child
    ensures match Admission(old(store.Rows()), old(job.Row()), Some(old(child.Row())), now, tag, scan)
            case Ok((t, receipt)) =>
              && r == Ok(AnswerOf(receipt)) && store.Rows() == t
              && Paired(job.Row(), child.Row(), receipt.reservation)
              && StripCredit(job.parameters) == StripCredit(old(job.parameters))
              && StripCredit(child.parameters) == StripCredit(old(child.parameters))
            case Err(error) =>
              r == Err(error) && store.Rows() == old(store.Rows()) && job.Row() == old(job.Row()) && child.Row() == old(child.Row())
    ensures Inv(old(store.Rows())) ==> Inv(store.Rows()) && (r.Ok? ==> Admitted(store.Rows(), job.id, r.value))
  {
    hide Inv, Step, Reserve, EstimatesOf;
    ghost var s, row, childRow := store.Rows(), job.Row(), child.Row();
    var estimates := EstimatesOf(job.Row(), Some(child.Row()));
    if estimates.Err? {
      return Err(estimates.error);
    }
    var receipt := store.MakeReservation(GenerationReserve(job.id), estimates.value, now, tag, scan);
    if receipt.Err? {
      return Err(Accounting(receipt.error));
    }
    if Inv(s) {
      AdmissionReserves(s, row, Some(childRow), now, tag, scan);
    }
    var rid := receipt.value.reservation;
    MetadataRoundTrip(job.parameters, PipelineParent, rid, job.id, Some(job.id), Some(child.id));
    MetadataRoundTrip(child.parameters, PipelineChild, rid, job.id, Some(job.id), Some(child.id));
    job.parameters := WithCredit(job.parameters, MetadataFor(PipelineParent, rid, job.id, Some(job.id), Some(child.id)));
    child.parameters := WithCredit(child.parameters, MetadataFor(PipelineChild, rid, job.id, Some(job.id), Some(child.id)));
    r := Ok(AdmissionReceipt(rid, receipt.value.total, receipt.value.replayed));
  }

  // ---------------------------------------------------------------- terminal accounting

  datatype TerminalResult = Unmanaged | StillHeld | Finished(receipt: TerminalReceipt)

  /** The asset table in id order, and the model of every job. */
  datatype Gallery = Gallery(assets: seq<Asset>, models: map<nat, Model>)

  function AssetsOf(assets: seq<Asset>, ids: set<nat>): (r: seq<Asset>)
    ensures forall a | a in r :: a in assets && a.job in ids
  {
    if assets == [] then []
    else
      var n := |assets| - 1;
      AssetsOf(assets[..n], ids) + if assets[n].job in ids then [assets[n]] else []
  }

  /** A child accounts for its parent's assets as well as its own. */
  function AccountedJobs(j: JobRow, m: Metadata): set<nat> {
    if m.role.PipelineChild? then (if m.parent.Some? then {m.parent.value} else {}) + (if m.child.Some? then {m.child.value} else {})
    else {j.id}
  }

  function DeliveredAssets(j: JobRow, m: Metadata, g: Gallery): seq<Asset> {
    AssetsOf(g.assets, AccountedJobs(j, m))
  }

  function Ended(r: Result<(State, TerminalReceipt), CreditError>): Result<(State, TerminalResult), GenerationError> {
    match r
    case Ok((t, receipt)) => Ok((t, Finished(receipt)))
    case Err(error) => Err(Accounting(error))
  }

  function Terminalize(s: State, j: JobRow, g: Gallery, succeeded: bool, reason: Option<Reason>, now: int, scan: Scan)
    : Result<(State, TerminalResult), GenerationError>
  {
    var parsed :- Parse(j.parameters);
    if parsed.None? then Ok((s, Unmanaged))
    else
      var m := parsed.value;
      var lines :- UsageOf(DeliveredAssets(j, m, g), g.models);
      if succeeded && m.role.PipelineParent? then
        :- Need(lines != [], DeliveryMissing);
        Ok((s, StillHeld))
      else if succeeded || (m.role.PipelineChild? && lines != []) then
        :- Need(lines != [], DeliveryMissing);
        Ended(Settle(s, m.reservation, lines, if succeeded then Delivered else Partial, m.terminalKey, now, scan))
      else
        :- Need(reason.Some? && !reason.value.UsageSettled?, Invalid);
        Ended(Release(s, m.reservation, [], reason.value, m.terminalKey, now, scan))
  }

  /** `terminalize_generation` on the tables. */
  method TerminalizeJob(store: Store, job: JobRow, g: Gallery, succeeded: bool, reason: Option<Reason>, now: int, scan: Scan)
    returns (r: Result<TerminalResult, GenerationError>)
    modifies store
    ensures match Terminalize(old(store.Rows()), job, g, succeeded, reason, now, scan)
            case Ok((t, answer)) => r == Ok(answer) && store.Rows() == t
            case Err(error) => r == Err(error) && store.Rows() == old(store.Rows())
    ensures Inv(old(store.Rows())) ==> Inv(store.Rows())
  {
    hide Inv, Step, Settle, Release, UsageOf, AssetsOf, AccountedJobs, Parse;
    var parsed := Parse(job.parameters);
    if parsed.Err? {
      return Err(parsed.error);
    }
    if parsed.value.None? {
      return Ok(Unmanaged);
    }
    var m := parsed.value.value;
    var usage := CollectUsage(DeliveredAssets(job, m, g), g.models);
    if usage.Err? {
      return Err(usage.error);
    }
    var lines := usage.value;
    if succeeded && m.role.PipelineParent? {
      return if lines == [] then Err(DeliveryMissing) else Ok(StillHeld);
    }
    var receipt;
    if succeeded || (m.role.PipelineChild? && lines != []) {
      if lines == [] {
        return Err(DeliveryMissing);
      }
      receipt := store.SettleReservation(m.reservation, lines, if succeeded then Delivered else Partial, m.terminalKey, now, scan);
    } else {
      if reason.None? || reason.value.UsageSettled? {
        return Err(Invalid);
      }
      receipt := store.ReleaseReservation(m.reservation, [], reason.value, m.terminalKey, now, scan);
    }
    if receipt.Err? {
      return Err(Accounting(receipt.error));
    }
    r := Ok(Finished(receipt.value));
  }

  // ---------------------------------------------------------------- what one terminal call costs

  /** Charges are the price of the lines. */
  lemma {:induction false} ChargesPrice(lines: seq<UsageLine>, items: seq<Item>)
    requires QuotedItems(items)
    requires forall l | l in lines :: FindItem(items, l.meter).Some? && 0 <= l.actualUnits
    requires Charges(lines, items, true).Ok?
    ensures SumOf(Charges(lines, items, true).value, ChargedOf) == SumOf(lines, LinePrice)
  {
    if lines != [] {
      var n := |lines| - 1;
      assert forall l | l in lines[..n] :: l in lines;
      assert lines[n] in lines;
      ChargesStep(lines, items, true);
      ChargesPrice(lines[..n], items);
      var before := Charges(lines[..n], items, true).value;
      var last := Charges(lines, items, true).value[n];
      SumOfAppend(before, last, ChargedOf);
    }
  }

  /** A settlement that takes effect consumes exactly the price of what was reported, and returns the rest. */
  lemma SettleCosts(s: State, rid: nat, usage: seq<UsageLine>, delivery: Delivery, key: Key, now: int, scan: Scan)
    requires Inv(s) && Settle(s, rid, usage, delivery, key, now, scan).Ok?
    requires !Settle(s, rid, usage, delivery, key, now, scan).value.1.replayed
    ensures var receipt := Settle(s, rid, usage, delivery, key, now, scan).value.1;
            && rid < |s.reservations|
            && receipt.consumed == SumOf(usage, LinePrice)
            && receipt.released == s.reservations[rid].total - receipt.consumed
            && 0 < receipt.consumed <= s.reservations[rid].total
  {
    var lines := Sort(usage, LineLeq);
    SortedLines(usage, false);
    TerminateCosts(s, rid, lines, delivery, UsageSettled, key, now, true, scan);
    SortPermutes(usage, LineLeq);
    SumOfPermutation(lines, usage, LinePrice);
  }

  lemma TerminateCosts(s: State, rid: nat, lines: seq<UsageLine>, delivery: Delivery, reason: Reason, key: Key, now: int, charge: bool, scan: Scan)
    requires Inv(s) && ValidLines(lines, true)
    requires (charge <==> !delivery.NoDeliverable?) && (charge <==> reason.UsageSettled?)
    requires Terminate(s, rid, lines, delivery, reason, key, now, charge, scan).Ok?
    requires !Terminate(s, rid, lines, delivery, reason, key, now, charge, scan).value.1.replayed
    ensures var receipt := Terminate(s, rid, lines, delivery, reason, key, now, charge, scan).value.1;
            && rid < |s.reservations|
            && receipt.consumed == (if charge then SumOf(lines, LinePrice) else 0)
            && receipt.released == s.reservations[rid].total - receipt.consumed
            && 0 <= receipt.consumed <= s.reservations[rid].total
            && (charge ==> 0 < receipt.consumed)
  {
    FreshReceipt(s, rid, lines, delivery, reason, key, now, charge, scan);
    CloseTotal(s, rid, lines, delivery, reason, key, now, charge);
    CloseEffect(s, rid, lines, delivery, reason, key, now, charge);
    var r := s.reservations[rid];
    assert ReservationOk(s, r) && QuotedItems(r.items);
    var closing := Closing(lines, r.items, delivery, reason, key, now, charge);
    hide Inv, Core, Close, Closed, Terminate, TerminalReceiptOf, ReservationOk;
    RecordMeters(lines, r.items, charge);
    if charge {
      ChargesPrice(lines, r.items);
      ChargesPositive(lines, r.items);
    } else {
      ChargesWaived(lines, r.items);
    }
  }

  lemma FreshReceipt(s: State, rid: nat, lines: seq<UsageLine>, delivery: Delivery, reason: Reason, key: Key, now: int, charge: bool, scan: Scan)
    requires Terminate(s, rid, lines, delivery, reason, key, now, charge, scan).Ok?
    requires !Terminate(s, rid, lines, delivery, reason, key, now, charge, scan).value.1.replayed
    ensures s.account.Some? && FindTerminal(s.reservations, key).None?
    ensures Close(s, rid, lines, delivery, reason, key, now, charge) == Terminate(s, rid, lines, delivery, reason, key, now, charge, scan)
  {
    hide Close, LedgerCheck, ReservationCoherent, SameLines, SumOf;
  }

  lemma ReleaseCosts(s: State, rid: nat, reason: Reason, key: Key, now: int, scan: Scan)
    requires Inv(s) && Release(s, rid, [], reason, key, now, scan).Ok?
    requires !Release(s, rid, [], reason, key, now, scan).value.1.replayed
    ensures var receipt := Release(s, rid, [], reason, key, now, scan).value.1;
            rid < |s.reservations| && receipt.consumed == 0 && receipt.released == s.reservations[rid].total
  {
    hide Inv, Terminate;
    SortedLines([], true);
    TerminateCosts(s, rid, Sort([], LineLeq), NoDeliverable, reason, key, now, false, scan);
  }

  /** With a fresh key, a settlement succeeds exactly when the ledger comparison passes, the hold is open, every line is within its estimate and something is charged. */
  lemma SettleTotal(s: State, rid: nat, usage: seq<UsageLine>, delivery: Delivery, key: Key, now: int, scan: Scan)
    requires Inv(s) && ValidLines(usage, false) && !delivery.NoDeliverable?
    requires FindTerminal(s.reservations, key).None?
    ensures Settle(s, rid, usage, delivery, key, now, scan).Ok?
            <==> LedgerCheck(scan(s.book.ledger), s.book.grants).Pass? && Closable(s, rid, usage, now, true)
  {
    hide Core, Started, Closable, Close, LedgerCheck, FindTerminal, Sort;
    var lines := Sort(usage, LineLeq);
    SortedLines(usage, false);
    ClosableSorted(s, rid, usage, now);
    LinesWeaken(usage);
    if s.account.Some? {
      CloseTotal(s, rid, lines, delivery, UsageSettled, key, now, true);
      OpenedHasCycle(s);
    } else {
      NothingClosable(s, rid, usage, now);
    }
  }

  lemma ClosableSorted(s: State, rid: nat, usage: seq<UsageLine>, now: int)
    ensures Closable(s, rid, Sort(usage, LineLeq), now, true) <==> Closable(s, rid, usage, now, true)
  {
    SortPermutes(usage, LineLeq);
    hide Sort;
    assert forall l :: l in Sort(usage, LineLeq) <==> l in usage;
  }

  lemma OpenedHasCycle(s: State)
    requires Inv(s) && s.account.Some?
    ensures s.cycles != []
  {
  }

  lemma NothingClosable(s: State, rid: nat, usage: seq<UsageLine>, now: int)
    requires Inv(s) && s.account.None?
    ensures !Closable(s, rid, usage, now, true)
  {
  }

  /** Nothing reported means nothing of value delivered, and the other way round. */
  lemma NothingReported(assets: seq<Asset>, models: map<nat, Model>)
    requires UsageOf(assets, models).Ok?
    ensures UsageOf(assets, models).value == [] ==> DeliveredPrice(assets, models) == 0
  {
    ReportPrice(assets, models);
  }

  /**
   * A terminal call that takes effect charges exactly the price of what was
   * delivered when the job succeeded or is a pipeline's child, and nothing when
   * a standalone job or a pipeline's parent failed; the rest of the hold returns.
   */
  lemma TerminalCost(s: State, j: JobRow, m: Metadata, g: Gallery, succeeded: bool, reason: Option<Reason>, now: int, scan: Scan)
    requires Inv(s) && Parse(j.parameters) == Ok(Some(m))
    requires Terminalize(s, j, g, succeeded, reason, now, scan).Ok?
    requires var result := Terminalize(s, j, g, succeeded, reason, now, scan).value.1;
             result.Finished? && !result.receipt.replayed
    ensures var receipt := Terminalize(s, j, g, succeeded, reason, now, scan).value.1.receipt;
            && m.reservation < |s.reservations|
            && receipt.consumed == (if succeeded || m.role.PipelineChild? then DeliveredPrice(DeliveredAssets(j, m, g), g.models) else 0)
            && receipt.released == s.reservations[m.reservation].total - receipt.consumed
  {
    hide Inv, Settle, Release, UsageOf, DeliveredPrice, DeliveredAssets, Parse;
    var assets := DeliveredAssets(j, m, g);
    var lines := UsageOf(assets, g.models).value;
    ReportPrice(assets, g.models);
    if succeeded || (m.role.PipelineChild? && lines != []) {
      SettleCosts(s, m.reservation, lines, if succeeded then Delivered else Partial, m.terminalKey, now, scan);
    } else {
      NothingReported(assets, g.models);
      ReleaseCosts(s, m.reservation, reason.value, m.terminalKey, now, scan);
    }
  }

  /** A parent's success settles nothing: the hold stays for the child. */
  lemma ParentSuccessHolds(s: State, parent: JobRow, child: JobRow, rid: nat, g: Gallery, reason: Option<Reason>, now: int, scan: Scan)
    requires Paired(parent, child, rid)
    ensures var r := Terminalize(s, parent, g, true, reason, now, scan);
            var usage := UsageOf(AssetsOf(g.assets, {parent.id}), g.models);
            if usage.Ok? && usage.value != [] then r == Ok((s, StillHeld)) else r.Err?
  {
    hide Settle, Release, UsageOf, AssetsOf;
  }

  // ---------------------------------------------------------------- every run on a pipeline

  datatype PipelineEvent =
    | End(ofChild: bool, gallery: Gallery, succeeded: bool, reason: Option<Reason>, now: int, scan: Scan)
    | OtherCall(call: Call)

  /** Calls made for anything else neither name the shared reservation nor use its terminal key. */
  ghost predicate Outside(c: Call, rid: nat, top: nat) {
    Allowed(c) && (c.CallSettle? || c.CallRelease? ==> c.rid != rid && c.key != GenerationTerminal(top))
  }

  function EndOf(s: State, parent: JobRow, child: JobRow, e: PipelineEvent): Result<(State, TerminalResult), GenerationError>
    requires e.End?
  {
    Terminalize(s, if e.ofChild then child else parent, e.gallery, e.succeeded, e.reason, e.now, e.scan)
  }

  ghost function Happen(s: State, parent: JobRow, child: JobRow, rid: nat, e: PipelineEvent): State {
    match e
    case End(_, _, _, _, _, _) => if EndOf(s, parent, child, e).Ok? then EndOf(s, parent, child, e).value.0 else s
    case OtherCall(c) => if Outside(c, rid, parent.id) then Step(s, c) else s
  }

  ghost function RunPipeline(s: State, parent: JobRow, child: JobRow, rid: nat, es: seq<PipelineEvent>): State {
    if es == [] then s
    else Happen(RunPipeline(s, parent, child, rid, es[..|es| - 1]), parent, child, rid, es[|es| - 1])
  }

  /** Did this event bring about a terminal outcome, rather than repeat one? */
  predicate TakesEffect(s: State, parent: JobRow, child: JobRow, e: PipelineEvent) {
    e.End? && EndOf(s, parent, child, e).Ok?
    && EndOf(s, parent, child, e).value.1.Finished? && !EndOf(s, parent, child, e).value.1.receipt.replayed
  }

  ghost function Outcomes(s: State, parent: JobRow, child: JobRow, rid: nat, es: seq<PipelineEvent>): nat {
    if es == [] then 0
    else
      var init := es[..|es| - 1];
      Outcomes(s, parent, child, rid, init)
      + if TakesEffect(RunPipeline(s, parent, child, rid, init), parent, child, es[|es| - 1]) then 1 else 0
  }

  /** A terminal call either leaves everything as it was or closes the held reservation. */
  lemma EndEffect(s: State, parent: JobRow, child: JobRow, rid: nat, e: PipelineEvent)
    requires Inv(s) && Paired(parent, child, rid) && rid < |s.reservations| && e.End?
    requires EndOf(s, parent, child, e).Ok?
    ensures var t := EndOf(s, parent, child, e).value.0;
            && Inv(t) && rid < |t.reservations|
            && if TakesEffect(s, parent, child, e) then s.reservations[rid].Held() && !t.reservations[rid].Held() else t == s
  {
    var j := if e.ofChild then child else parent;
    var m := Parse(j.parameters).value.value;
    hide Inv, Settle, Release, UsageOf, DeliveredAssets, Parse;
    var usage := UsageOf(DeliveredAssets(j, m, e.gallery), e.gallery.models);
    if e.succeeded && m.role.PipelineParent? {
    } else if e.succeeded || (m.role.PipelineChild? && usage.value != []) {
      SettleOnce(s, rid, usage.value, if e.succeeded then Delivered else Partial, m.terminalKey, e.now, e.scan);
    } else {
      ReleaseOnce(s, rid, e.reason.value, m.terminalKey, e.now, e.scan);
    }
  }

  lemma SettleOnce(s: State, rid: nat, usage: seq<UsageLine>, delivery: Delivery, key: Key, now: int, scan: Scan)
    requires Inv(s) && Settle(s, rid, usage, delivery, key, now, scan).Ok?
    ensures var (t, receipt) := Settle(s, rid, usage, delivery, key, now, scan).value;
            && Inv(t) && rid < |s.reservations| == |t.reservations|
            && if receipt.replayed then t == s else s.reservations[rid].Held() && !t.reservations[rid].Held()
  {
    hide Core, Started, Terminate, Extends;
    assert Inv(Settle(s, rid, usage, delivery, key, now, scan).value.0) by {
      StepKeeps(s, CallSettle(rid, usage, delivery, key, now, scan));
    }
    SettleMoves(s, rid, usage, delivery, key, now, scan);
    SortedLines(usage, false);
    LinesWeaken(usage);
    TerminateExtends(s, rid, Sort(usage, LineLeq), delivery, UsageSettled, key, now, true, scan);
  }

  lemma ReleaseOnce(s: State, rid: nat, reason: Reason, key: Key, now: int, scan: Scan)
    requires Inv(s) && Release(s, rid, [], reason, key, now, scan).Ok?
    ensures var (t, receipt) := Release(s, rid, [], reason, key, now, scan).value;
            && Inv(t) && rid < |s.reservations| == |t.reservations|
            && if receipt.replayed then t == s else s.reservations[rid].Held() && !t.reservations[rid].Held()
  {
    hide Core, Started, Terminate, Extends;
    assert Inv(Release(s, rid, [], reason, key, now, scan).value.0) by {
      StepKeeps(s, CallRelease(rid, [], reason, key, now, scan));
    }
    ReleaseMoves(s, rid, [], reason, key, now, scan);
    SortedLines([], true);
    TerminateExtends(s, rid, Sort([], LineLeq), NoDeliverable, reason, key, now, false, scan);
  }

  lemma OtherCallEffect(s: State, rid: nat, top: nat, c: Call)
    requires Inv(s) && rid < |s.reservations| && Outside(c, rid, top)
    ensures Inv(Step(s, c)) && rid < |Step(s, c).reservations|
    ensures Step(s, c).reservations[rid].Held() <==> s.reservations[rid].Held()
  {
    hide Inv, Step;
    StepKeeps(s, c);
    StepMoves(s, c);
    var rs, ts := s.reservations, Step(s, c).reservations;
    assert ts[..|rs|] == rs && |rs| <= |ts| ==> ts[rid] == ts[..|rs|][rid];
  }

  /**
   * However the terminal calls of a pipeline's two jobs are ordered and
   * repeated, and whatever else the user does in between, exactly one outcome
   * takes effect if the hold ended, and none if it did not.
   */
  lemma {:induction false} OneOutcome(s: State, parent: JobRow, child: JobRow, rid: nat, es: seq<PipelineEvent>)
    requires Inv(s) && Paired(parent, child, rid) && rid < |s.reservations| && s.reservations[rid].Held()
    ensures var t := RunPipeline(s, parent, child, rid, es);
            && Inv(t) && rid < |t.reservations|
            && Outcomes(s, parent, child, rid, es) == if t.reservations[rid].Held() then 0 else 1
  {
    hide Inv, EndOf, Step, Outside, Paired;
    if es != [] {
      var init, e := es[..|es| - 1], es[|es| - 1];
      OneOutcome(s, parent, child, rid, init);
      var t := RunPipeline(s, parent, child, rid, init);
      match e {
        case End(_, _, _, _, _, _) =>
          if EndOf(t, parent, child, e).Ok? { EndEffect(t, parent, child, rid, e); }
        case OtherCall(c) =>
          if Outside(c, rid, parent.id) { OtherCallEffect(t, rid, parent.id, c); }
      }
    }
  }

  /** As long as only the parent's success is reported, however often and with whatever else going on, the hold stays. */
  lemma {:induction false} ParentAloneHolds(s: State, parent: JobRow, child: JobRow, rid: nat, es: seq<PipelineEvent>)
    requires Inv(s) && Paired(parent, child, rid) && rid < |s.reservations| && s.reservations[rid].Held()
    requires forall e | e in es :: e.End? ==> !e.ofChild && e.succeeded
    ensures var t := RunPipeline(s, parent, child, rid, es);
            && rid < |t.reservations| && t.reservations[rid].Held()
            && Outcomes(s, parent, child, rid, es) == 0
  {
    hide Inv, Paired, Terminalize, Step, Outside;
    if es != [] {
      var init, e := es[..|es| - 1], es[|es| - 1];
      assert forall x | x in init :: x in es;
      assert e in es;
      ParentAloneHolds(s, parent, child, rid, init);
      OneOutcome(s, parent, child, rid, init);
      var t := RunPipeline(s, parent, child, rid, init);
      match e {
        case End(_, gallery, _, reason, now, scan) => ParentSuccessHolds(t, parent, child, rid, gallery, reason, now, scan);
        case OtherCall(c) =>
          if Outside(c, rid, parent.id) { OtherCallEffect(t, rid, parent.id, c); }
      }
    }
  }

  // ---------------------------------------------------------------- from admission to the outcome

  /** The rows of parent and child as admission writes them. */
  function WithPair(row: JobRow, role: CreditRole, rid: nat, parent: nat, child: nat): JobRow {
    row.(parameters := WithCredit(row.parameters, MetadataFor(role, rid, parent, Some(parent), Some(child))))
  }

  /**
   * A pipeline admitted afresh: its two jobs name the reservation just made
   * under the parent's key, and over every later run of terminal calls on them
   * and of anything else exactly one outcome takes effect on that reservation
   * if it was closed, none if it is still held.
   */
  lemma AdmittedOnce(s: State, job: JobRow, child: JobRow, now: int, tag: nat, scan: Scan, es: seq<PipelineEvent>)
    requires Inv(s) && Admission(s, job, Some(child), now, tag, scan).Ok?
    requires !Admission(s, job, Some(child), now, tag, scan).value.1.replayed
    ensures var (t, receipt) := Admission(s, job, Some(child), now, tag, scan).value;
            var rid := receipt.reservation;
            var parent', child' := WithPair(job, PipelineParent, rid, job.id, child.id), WithPair(child, PipelineChild, rid, job.id, child.id);
            var u := RunPipeline(t, parent', child', rid, es);
            && Admitted(t, job.id, AnswerOf(receipt)) && Paired(parent', child', rid)
            && Inv(u) && rid < |u.reservations|
            && Outcomes(t, parent', child', rid, es) == if u.reservations[rid].Held() then 0 else 1
  {
    hide Inv, Admission, RunPipeline, Outcomes;
    AdmissionReserves(s, job, Some(child), now, tag, scan);
    var (t, receipt) := Admission(s, job, Some(child), now, tag, scan).value;
    var rid := receipt.reservation;
    MetadataRoundTrip(job.parameters, PipelineParent, rid, job.id, Some(job.id), Some(child.id));
    MetadataRoundTrip(child.parameters, PipelineChild, rid, job.id, Some(job.id), Some(child.id));
    OneOutcome(t, WithPair(job, PipelineParent, rid, job.id, child.id), WithPair(child, PipelineChild, rid, job.id, child.id), rid, es);
  }
}
