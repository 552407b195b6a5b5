/** What the end of a job costs, counted over the whole asset table by job id alone, at the prices of the rate card. */
module JobBills {
  import opened Prelude
  import opened Sorting
  import opened CreditPolicy
  import opened CreditRecords
  import opened CreditAccounting
  import opened CreditInvariant
  import opened AccountingInvariant
  import opened TerminalCalls
  import opened CreditReplay
  import opened Admissions
  import opened GenerationUsage
  import opened GenerationCredit

  /** The price of one asset in microcredits: an image has a fixed price, a video one per millisecond. */
  function Worth(a: Asset, models: map<nat, Model>): int {
    var model := if a.job in models then models[a.job] else OtherModel;
    var length := if a.duration.Some? then RoundHalfEven(a.duration.value * 1000.0) else 0;
    match (a.kind, model)
    case (Image, ImagenFast) => 50_000_000
    case (Image, ImagenStandard) => 100_000_000
    case (Image, ImagenUltra) => 200_000_000
    case (Video, VeoFast) => 60_000 * length
    case (Video, VeoStandard) => 120_000 * length
    case (_, _) => 0
  }

  function WorthIn(models: map<nat, Model>): Asset -> int {
    (a: Asset) => Worth(a, models)
  }

  /** `f` on the assets of these two jobs, nothing on those of others. */
  function OfJobs(first: nat, second: nat, f: Asset -> int): Asset -> int {
    (a: Asset) => if a.job == first || a.job == second then f(a) else 0
  }

  /** The bill for two jobs together; for one job alone, name it twice. */
  function Bill(g: Gallery, first: nat, second: nat): int {
    SumOf(g.assets, OfJobs(first, second, WorthIn(g.models)))
  }

  /** The units one asset counts for on each meter. */
  function UnitsIn(models: map<nat, Model>, m: Meter): Asset -> int {
    (a: Asset) =>
      var model := if a.job in models then models[a.job] else OtherModel;
      var length := if a.duration.Some? then RoundHalfEven(a.duration.value * 1000.0) else 0;
      match (a.kind, model, m)
      case (Image, ImagenFast, ImagenFastImage) => 1
      case (Image, ImagenStandard, ImagenStandardImage) => 1
      case (Image, ImagenUltra, ImagenUltraImage) => 1
      case (Video, VeoFast, VeoFastMs) => length
      case (Video, VeoStandard, VeoStandardMs) => length
      case (_, _, _) => 0
  }

  /** What the two jobs used of one meter. */
  function Used(g: Gallery, first: nat, second: nat, m: Meter): int {
    SumOf(g.assets, OfJobs(first, second, UnitsIn(g.models, m)))
  }

  /** An image from an image model, or a video of positive length from a video model. */
  predicate Measurable(a: Asset, models: map<nat, Model>) {
    && a.job in models
    && match a.kind
       case Image => models[a.job] in {ImagenFast, ImagenStandard, ImagenUltra}
       case Video => models[a.job] in {VeoFast, VeoStandard} && a.duration.Some? && 0.0 < a.duration.value
  }

  // ---------------------------------------------------------------- the bill is the delivered price

  lemma MeasuredWhen(a: Asset, models: map<nat, Model>)
    ensures Measured(a, models).Ok? <==> Measurable(a, models)
    ensures forall m :: Measured(a, models).Ok? ==> UnitsIn(models, m)(a) == UnitsOn(models, m)(a)
  {
  }

  lemma {:induction false} SameUnits(assets: seq<Asset>, models: map<nat, Model>, m: Meter)
    requires AllMeasured(assets, models)
    ensures SumOf(assets, UnitsOn(models, m)) == SumOf(assets, UnitsIn(models, m))
  {
    hide Measured;
    if assets != [] {
      var n := |assets| - 1;
      assert forall a | a in assets[..n] :: a in assets;
      SameUnits(assets[..n], models, m);
      assert assets[n] in assets;
      MeasuredWhen(assets[n], models);
    }
  }

  lemma WorthMeasured(a: Asset, models: map<nat, Model>)
    requires Measured(a, models).Ok?
    ensures Worth(a, models) == PriceIn(models)(a)
  {
  }

  lemma {:induction false} AmongJobs(assets: seq<Asset>, ids: set<nat>, first: nat, second: nat, f: Asset -> int)
    requires forall id: nat :: id in ids <==> id == first || id == second
    ensures SumOf(AssetsOf(assets, ids), f) == SumOf(assets, OfJobs(first, second, f))
    ensures forall a :: a in AssetsOf(assets, ids) <==> a in assets && (a.job == first || a.job == second)
  {
    if assets != [] {
      var n := |assets| - 1;
      var before := AssetsOf(assets[..n], ids);
      assert assets == assets[..n] + [assets[n]];
      AmongJobs(assets[..n], ids, first, second, f);
      if assets[n].job in ids {
        SumOfAppend(before, assets[n], f);
      } else {
        assert before + [] == before;
      }
    }
  }

  lemma {:induction false} PriceIsWorth(assets: seq<Asset>, models: map<nat, Model>)
    requires AllMeasured(assets, models)
    ensures DeliveredPrice(assets, models) == SumOf(assets, WorthIn(models))
  {
    hide Measured, Worth;
    if assets != [] {
      var n := |assets| - 1;
      assert forall a | a in assets[..n] :: a in assets;
      PriceIsWorth(assets[..n], models);
      assert assets[n] in assets;
      WorthMeasured(assets[n], models);
    }
  }

  lemma {:induction false} LinesWorth(meters: seq<Meter>, assets: seq<Asset>, models: map<nat, Model>)
    ensures var lines := LinesOver(meters, assets, models);
            && 0 <= SumOf(lines, LinePrice) && (lines != [] <==> 0 < SumOf(lines, LinePrice))
  {
    if meters != [] {
      var n := |meters| - 1;
      hide SumOf;
      LinesWorth(meters[..n], assets, models);
      var units := SumOf(assets, UnitsOn(models, meters[n]));
      var before := LinesOver(meters[..n], assets, models);
      assert SumOf<UsageLine>([], LinePrice) == 0 by { NothingDue(); }
      if units > 0 {
        SumOfAppend(before, UsageLine(meters[n], units, PlatformMeasured), LinePrice);
      } else {
        assert before + [] == before;
      }
    }
  }

  lemma NothingDue()
    ensures SumOf<UsageLine>([], LinePrice) == 0
  {
  }

  /** A report exists only for measured assets; it is empty exactly when nothing is due, and costs the bill. */
  lemma ReportIsBill(g: Gallery, ids: set<nat>, first: nat, second: nat)
    requires forall id: nat :: id in ids <==> id == first || id == second
    requires UsageOf(AssetsOf(g.assets, ids), g.models).Ok?
    ensures var lines := UsageOf(AssetsOf(g.assets, ids), g.models).value;
            && DeliveredPrice(AssetsOf(g.assets, ids), g.models) == Bill(g, first, second)
            && 0 <= Bill(g, first, second) && (lines != [] <==> 0 < Bill(g, first, second))
  {
    hide AssetsOf, LinesOver, DeliveredPrice;
    var assets := AssetsOf(g.assets, ids);
    AmongJobs(g.assets, ids, first, second, WorthIn(g.models));
    PriceIsWorth(assets, g.models);
    ReportPrice(assets, g.models);
    LinesWorth(METERS, assets, g.models);
  }

  // ---------------------------------------------------------------- how a reservation ends

  /** The row a terminal call leaves: what was consumed, what came back, and why it ended. */
  ghost predicate EndedWith(s: State, t: State, rid: nat, top: nat, answer: TerminalResult, bill: int, delivery: Delivery, reason: Reason) {
    && answer.Finished? && rid < |t.reservations| && t.reservations[rid].terminal.Some?
    && var terminal := t.reservations[rid].terminal.value;
    && terminal.key == GenerationTerminal(top) && terminal.delivery == delivery && terminal.reason == reason
    && (terminal.settled <==> 0 < bill)
    && (answer.receipt.replayed ==> t == s)
    && (!answer.receipt.replayed ==>
          && rid < |s.reservations| && s.reservations[rid].Held()
          && answer.receipt.consumed == bill && answer.receipt.released == s.reservations[rid].total - bill)
  }

  lemma SettledWith(s: State, rid: nat, usage: seq<UsageLine>, delivery: Delivery, key: Key, now: int, scan: Scan)
    requires Inv(s) && Settle(s, rid, usage, delivery, key, now, scan).Ok?
    ensures var (t, receipt) := Settle(s, rid, usage, delivery, key, now, scan).value;
            && rid < |t.reservations| && t.reservations[rid].terminal.Some?
            && var terminal := t.reservations[rid].terminal.value;
            && terminal.key == key && terminal.delivery == delivery && terminal.reason == UsageSettled && terminal.settled
            && (receipt.replayed ==> t == s)
            && (!receipt.replayed ==> rid < |s.reservations| && s.reservations[rid].Held())
  {
    hide Core, Started, Terminate, Extends, SameLines, TerminalReceiptOf;
    SortedLines(usage, false);
    LinesWeaken(usage);
    TerminateExtends(s, rid, Sort(usage, LineLeq), delivery, UsageSettled, key, now, true, scan);
    if !Settle(s, rid, usage, delivery, key, now, scan).value.1.replayed {
      SettleCosts(s, rid, usage, delivery, key, now, scan);
    }
  }

  lemma ReleasedWith(s: State, rid: nat, reason: Reason, key: Key, now: int, scan: Scan)
    requires Inv(s) && Release(s, rid, [], reason, key, now, scan).Ok?
    ensures var (t, receipt) := Release(s, rid, [], reason, key, now, scan).value;
            && rid < |t.reservations| && t.reservations[rid].terminal.Some?
            && var terminal := t.reservations[rid].terminal.value;
            && terminal.key == key && terminal.delivery.NoDeliverable? && terminal.reason == reason && !terminal.settled
            && (receipt.replayed ==> t == s)
            && (!receipt.replayed ==> rid < |s.reservations| && s.reservations[rid].Held())
  {
    hide Core, Started, Terminate, Extends, SameLines, TerminalReceiptOf;
    SortedLines([], true);
    TerminateExtends(s, rid, Sort([], LineLeq), NoDeliverable, reason, key, now, false, scan);
    if !Release(s, rid, [], reason, key, now, scan).value.1.replayed {
      ReleaseCosts(s, rid, reason, key, now, scan);
    }
  }

  /** The terminal call of a job whose accounted assets are those of `first` and `second`. */
  lemma EndingBill(s: State, j: JobRow, m: Metadata, first: nat, second: nat, g: Gallery, succeeded: bool, reason: Option<Reason>, now: int, scan: Scan)
    requires Inv(s) && Parse(j.parameters) == Ok(Some(m))
    requires forall id: nat :: id in AccountedJobs(j, m) <==> id == first || id == second
    requires Terminalize(s, j, g, succeeded, reason, now, scan).Ok?
    requires !(succeeded && m.role.PipelineParent?)
    ensures var (t, answer) := Terminalize(s, j, g, succeeded, reason, now, scan).value;
            var bill := if succeeded || m.role.PipelineChild? then Bill(g, first, second) else 0;
            && 0 <= bill && (succeeded ==> 0 < bill) && (bill == 0 ==> reason.Some?)
            && EndedWith(s, t, m.reservation, m.top, answer, bill,
                         if bill == 0 then NoDeliverable else if succeeded then Delivered else Partial,
                         if bill == 0 then reason.value else UsageSettled)
  {
    hide Inv, Settle, Release, UsageOf, DeliveredPrice, AssetsOf, AccountedJobs, Bill;
    var assets := DeliveredAssets(j, m, g);
    var lines := UsageOf(assets, g.models).value;
    ReportIsBill(g, AccountedJobs(j, m), first, second);
    assert m.terminalKey == GenerationTerminal(m.top);
    if !Terminalize(s, j, g, succeeded, reason, now, scan).value.1.receipt.replayed {
      TerminalCost(s, j, m, g, succeeded, reason, now, scan);
    }
    if succeeded || (m.role.PipelineChild? && lines != []) {
      SettledWith(s, m.reservation, lines, if succeeded then Delivered else Partial, m.terminalKey, now, scan);
    } else {
      ReleasedWith(s, m.reservation, reason.value, m.terminalKey, now, scan);
    }
  }

  // ---------------------------------------------------------------- the three kinds of job

  /**
   * The end of a pipeline's child settles for both jobs: the shared reservation
   * pays for every asset of the parent and of the child and for no other,
   * as delivered when the child succeeded and as partial when it failed after
   * something was delivered; otherwise the hold comes back whole, for the
   * reason given.
   */
  lemma ChildBill(s: State, parent: JobRow, child: JobRow, rid: nat, g: Gallery, succeeded: bool, reason: Option<Reason>, now: int, scan: Scan)
    requires Inv(s) && Paired(parent, child, rid)
    requires Terminalize(s, child, g, succeeded, reason, now, scan).Ok?
    ensures var (t, answer) := Terminalize(s, child, g, succeeded, reason, now, scan).value;
            var bill := Bill(g, parent.id, child.id);
            && 0 <= bill && (succeeded ==> 0 < bill) && (bill == 0 ==> reason.Some?)
            && EndedWith(s, t, rid, parent.id, answer, bill,
                         if bill == 0 then NoDeliverable else if succeeded then Delivered else Partial,
                         if bill == 0 then reason.value else UsageSettled)
  {
    hide Inv, Terminalize, EndedWith, Bill, Parse;
    var m := MetadataFor(PipelineChild, rid, parent.id, Some(parent.id), Some(child.id));
    EndingBill(s, child, m, parent.id, child.id, g, succeeded, reason, now, scan);
  }

  /** The end of a single job pays for its own assets if it succeeded, and for nothing if it failed, whatever it delivered. */
  lemma StandaloneBill(s: State, j: JobRow, rid: nat, g: Gallery, succeeded: bool, reason: Option<Reason>, now: int, scan: Scan)
    requires Inv(s) && Parse(j.parameters) == Ok(Some(MetadataFor(Standalone, rid, j.id, None, None)))
    requires Terminalize(s, j, g, succeeded, reason, now, scan).Ok?
    ensures var (t, answer) := Terminalize(s, j, g, succeeded, reason, now, scan).value;
            && (succeeded ==> 0 < Bill(g, j.id, j.id)) && (!succeeded ==> reason.Some?)
            && if succeeded then EndedWith(s, t, rid, j.id, answer, Bill(g, j.id, j.id), Delivered, UsageSettled)
               else EndedWith(s, t, rid, j.id, answer, 0, NoDeliverable, reason.value)
  {
    hide Inv, Terminalize, EndedWith, Bill, Parse;
    EndingBill(s, j, MetadataFor(Standalone, rid, j.id, None, None), j.id, j.id, g, succeeded, reason, now, scan);
  }

  /** The end of a pipeline's parent charges nothing: its success leaves the hold for the child, its failure gives everything back. */
  lemma ParentBill(s: State, parent: JobRow, child: JobRow, rid: nat, g: Gallery, succeeded: bool, reason: Option<Reason>, now: int, scan: Scan)
    requires Inv(s) && Paired(parent, child, rid)
    requires Terminalize(s, parent, g, succeeded, reason, now, scan).Ok?
    ensures var (t, answer) := Terminalize(s, parent, g, succeeded, reason, now, scan).value;
            if succeeded then t == s && answer == StillHeld && 0 < Bill(g, parent.id, parent.id)
            else reason.Some? && EndedWith(s, t, rid, parent.id, answer, 0, NoDeliverable, reason.value)
  {
    hide Inv, EndedWith, Bill, Settle, Release, UsageOf, AssetsOf, Parse;
    var m := MetadataFor(PipelineParent, rid, parent.id, Some(parent.id), Some(child.id));
    assert AccountedJobs(parent, m) == {parent.id};
    if succeeded {
      ReportIsBill(g, {parent.id}, parent.id, parent.id);
    } else {
      EndingBill(s, parent, m, parent.id, parent.id, g, succeeded, reason, now, scan);
    }
  }

  // ---------------------------------------------------------------- when the child's end goes through

  /** A report lists every used meter of `meters` once, with what was used of it, and no other. */
  ghost predicate Lists(lines: seq<UsageLine>, meters: seq<Meter>, used: Meter -> int) {
    && |lines| <= |meters|
    && (forall l | l in lines :: l.meter in meters && 0 < l.actualUnits == used(l.meter))
    && (forall m | m in meters && 0 < used(m) :: exists l :: l in lines && l.meter == m)
    && (forall i, j | 0 <= i < j < |lines| :: lines[i].meter != lines[j].meter)
  }

  lemma ListsMore(lines: seq<UsageLine>, meters: seq<Meter>, m: Meter, used: Meter -> int)
    requires Lists(lines, meters, used) && m !in meters
    ensures if 0 < used(m) then Lists(lines + [UsageLine(m, used(m), PlatformMeasured)], meters + [m], used)
            else Lists(lines, meters + [m], used)
  {
    if 0 < used(m) {
      var last := UsageLine(m, used(m), PlatformMeasured);
      forall k | k in meters + [m] && 0 < used(k)
        ensures exists l :: l in lines + [last] && l.meter == k
      {
        if k == m {
          assert last in lines + [last];
        } else {
          var l :| l in lines && l.meter == k;
          assert l in lines + [last];
        }
      }
      forall i, j | 0 <= i < j < |lines + [last]|
        ensures (lines + [last])[i].meter != (lines + [last])[j].meter
      {
        assert lines[i] in lines;
      }
    }
  }

  lemma {:induction false} LinesSay(meters: seq<Meter>, assets: seq<Asset>, models: map<nat, Model>)
    requires forall i, j | 0 <= i < j < |meters| :: meters[i] != meters[j]
    ensures Lists(LinesOver(meters, assets, models), meters, m => SumOf(assets, UnitsOn(models, m)))
  {
    hide SumOf, Lists;
    var used := m => SumOf(assets, UnitsOn(models, m));
    if meters == [] {
      NothingListed(used);
    } else {
      var n := |meters| - 1;
      LinesSay(meters[..n], assets, models);
      assert meters == meters[..n] + [meters[n]];
      var before := LinesOver(meters[..n], assets, models);
      ListsMore(before, meters[..n], meters[n], used);
      assert before + [] == before;
    }
  }

  lemma NothingListed(used: Meter -> int)
    ensures Lists([], [], used)
  {
  }

  /** What the two jobs used stays within what was reserved, meter by meter. */
  ghost predicate WithinHold(items: seq<Item>, g: Gallery, first: nat, second: nat) {
    forall m | 0 < Used(g, first, second, m) :: exists i :: i in items && i.meter == m && Used(g, first, second, m) <= i.maximumUnits
  }

  lemma ReportSays(g: Gallery, ids: set<nat>, first: nat, second: nat)
    requires forall id: nat :: id in ids <==> id == first || id == second
    requires UsageOf(AssetsOf(g.assets, ids), g.models).Ok?
    ensures var lines := UsageOf(AssetsOf(g.assets, ids), g.models).value;
            && |lines| <= METER_COUNT
            && (forall l | l in lines :: 0 < l.actualUnits == Used(g, first, second, l.meter))
            && (forall m | 0 < Used(g, first, second, m) :: exists l :: l in lines && l.meter == m)
            && (forall i, j | 0 <= i < j < |lines| :: lines[i].meter != lines[j].meter)
  {
    hide AssetsOf, LinesOver, SumOf;
    var assets := AssetsOf(g.assets, ids);
    LinesSay(METERS, assets, g.models);
    forall m: Meter
      ensures m in METERS && Used(g, first, second, m) == SumOf(assets, UnitsOn(g.models, m))
    {
      InMeters(m);
      SameUnits(assets, g.models, m);
      AmongJobs(g.assets, ids, first, second, UnitsIn(g.models, m));
    }
  }

  /** The report's lines fit the reserved items exactly when the use does. */
  lemma FitsTogether(items: seq<Item>, lines: seq<UsageLine>, g: Gallery, first: nat, second: nat)
    requires forall i, j | 0 <= i < j < |items| :: items[i].meter != items[j].meter
    requires forall l | l in lines :: 0 < l.actualUnits == Used(g, first, second, l.meter)
    requires forall m | 0 < Used(g, first, second, m) :: exists l :: l in lines && l.meter == m
    ensures WithinHold(items, g, first, second)
            <==> forall l | l in lines :: FindItem(items, l.meter).Some? && l.actualUnits <= items[FindItem(items, l.meter).value].maximumUnits
  {
    hide Used;
    if WithinHold(items, g, first, second) {
      forall l | l in lines
        ensures FindItem(items, l.meter).Some? && l.actualUnits <= items[FindItem(items, l.meter).value].maximumUnits
      {
        assert 0 < Used(g, first, second, l.meter);
        var i :| i in items && i.meter == l.meter && Used(g, first, second, l.meter) <= i.maximumUnits;
        assert items[FindItem(items, l.meter).value] == i;
      }
    }
    if forall l | l in lines :: FindItem(items, l.meter).Some? && l.actualUnits <= items[FindItem(items, l.meter).value].maximumUnits {
      forall m | 0 < Used(g, first, second, m)
        ensures exists i :: i in items && i.meter == m && Used(g, first, second, m) <= i.maximumUnits
      {
        var l :| l in lines && l.meter == m;
        var i := items[FindItem(items, m).value];
        assert i in items && i.meter == m && Used(g, first, second, m) <= i.maximumUnits;
      }
    }
  }

  /** The hold is open and the clock has not gone back. */
  ghost predicate Open(s: State, rid: nat, now: int) {
    AsOf(s) <= now && rid < |s.reservations| && s.reservations[rid].Held()
  }

  /** The report fits: every line is within the estimate of its meter. */
  ghost predicate LinesFit(items: seq<Item>, lines: seq<UsageLine>) {
    forall l | l in lines :: FindItem(items, l.meter).Some? && l.actualUnits <= items[FindItem(items, l.meter).value].maximumUnits
  }

  lemma ReportSettles(s: State, rid: nat, lines: seq<UsageLine>, delivery: Delivery, key: Key, now: int, scan: Scan)
    requires Inv(s) && !delivery.NoDeliverable? && FindTerminal(s.reservations, key).None?
    requires lines != [] && |lines| <= METER_COUNT && forall l | l in lines :: 0 < l.actualUnits
    requires forall i, j | 0 <= i < j < |lines| :: lines[i].meter != lines[j].meter
    ensures Settle(s, rid, lines, delivery, key, now, scan).Ok?
            <==> LedgerCheck(scan(s.book.ledger), s.book.grants).Pass? && Open(s, rid, now) && LinesFit(s.reservations[rid].items, lines)
  {
    hide Inv, LedgerCheck, FindTerminal, FindItem, Terminate;
    if ValidLines(lines, false) {
      hide Settle;
      SettleTotal(s, rid, lines, delivery, key, now, scan);
      assert lines[0] in lines;
    } else if Open(s, rid, now) && LinesFit(s.reservations[rid].items, lines) {
      var i :| 0 <= i < |lines| && MAX_BIGINT < lines[i].actualUnits;
      ItemFacts(s, rid);
      FoundItem(s.reservations[rid].items, lines[i].meter);
      assert false;
    }
  }

  lemma FoundItem(items: seq<Item>, m: Meter)
    ensures FindItem(items, m).Some? ==> FindItem(items, m).value < |items| && items[FindItem(items, m).value] in items
  {
  }

  lemma ReleaseTotal(s: State, rid: nat, reason: Reason, key: Key, now: int, scan: Scan)
    requires Inv(s) && !reason.UsageSettled? && FindTerminal(s.reservations, key).None?
    ensures Release(s, rid, [], reason, key, now, scan).Ok? <==> LedgerCheck(scan(s.book.ledger), s.book.grants).Pass? && Open(s, rid, now)
  {
    if Open(s, rid, now) {
      hide Core, Started, Release, LedgerCheck, FindTerminal;
      HeldRelease(s, rid, reason, key, now, scan);
    } else if Release(s, rid, [], reason, key, now, scan).Ok? {
      hide Core, Started, Close, LedgerCheck, FindTerminal;
      SortedLines([], true);
      CloseTotal(s, rid, Sort([], LineLeq), NoDeliverable, reason, key, now, false);
      assert false;
    }
  }

  /** Every asset of the two jobs can be measured. */
  ghost predicate Readable(g: Gallery, first: nat, second: nat) {
    forall a | a in g.assets && (a.job == first || a.job == second) :: Measurable(a, g.models)
  }

  lemma ReadableReport(g: Gallery, ids: set<nat>, first: nat, second: nat)
    requires forall id: nat :: id in ids <==> id == first || id == second
    ensures UsageOf(AssetsOf(g.assets, ids), g.models).Ok? <==> Readable(g, first, second)
  {
    hide AssetsOf, Measured, Measurable, SumOf;
    AmongJobs(g.assets, ids, first, second, WorthIn(g.models));
    forall a: Asset
      ensures Measured(a, g.models).Ok? <==> Measurable(a, g.models)
    {
      MeasuredWhen(a, g.models);
    }
  }

  /**
   * With the pipeline's terminal key unused, the end of its child goes through
   * exactly when every asset of both jobs can be measured, the ledger
   * comparison passes, the hold is open, and either something is due and its
   * use is within the hold, or nothing is due and the child failed for a
   * reason other than settlement.
   */
  lemma ChildTotal(s: State, parent: JobRow, child: JobRow, rid: nat, g: Gallery, succeeded: bool, reason: Option<Reason>, now: int, scan: Scan)
    requires Inv(s) && Paired(parent, child, rid)
    requires FindTerminal(s.reservations, GenerationTerminal(parent.id)).None?
    ensures Terminalize(s, child, g, succeeded, reason, now, scan).Ok?
            <==> && Readable(g, parent.id, child.id)
                 && LedgerCheck(scan(s.book.ledger), s.book.grants).Pass? && Open(s, rid, now)
                 && if 0 < Bill(g, parent.id, child.id) then WithinHold(s.reservations[rid].items, g, parent.id, child.id)
                    else !succeeded && reason.Some? && !reason.value.UsageSettled?
  {
    hide Inv, Settle, Release, UsageOf, AssetsOf, Bill, Parse, LedgerCheck, FindTerminal, Readable, WithinHold, Open, LinesFit;
    var m := MetadataFor(PipelineChild, rid, parent.id, Some(parent.id), Some(child.id));
    var ids := AccountedJobs(child, m);
    var key := GenerationTerminal(parent.id);
    ReadableReport(g, ids, parent.id, child.id);
    if Readable(g, parent.id, child.id) {
      var lines := UsageOf(AssetsOf(g.assets, ids), g.models).value;
      ReportIsBill(g, ids, parent.id, child.id);
      if lines != [] {
        ChildSettles(s, rid, g, ids, parent.id, child.id, if succeeded then Delivered else Partial, key, now, scan);
      } else if !succeeded && reason.Some? && !reason.value.UsageSettled? {
        ReleaseTotal(s, rid, reason.value, key, now, scan);
      }
    }
  }

  lemma ChildSettles(s: State, rid: nat, g: Gallery, ids: set<nat>, first: nat, second: nat, delivery: Delivery, key: Key, now: int, scan: Scan)
    requires Inv(s) && !delivery.NoDeliverable? && FindTerminal(s.reservations, key).None?
    requires forall id: nat :: id in ids <==> id == first || id == second
    requires UsageOf(AssetsOf(g.assets, ids), g.models).Ok? && UsageOf(AssetsOf(g.assets, ids), g.models).value != []
    ensures Settle(s, rid, UsageOf(AssetsOf(g.assets, ids), g.models).value, delivery, key, now, scan).Ok?
            <==> && LedgerCheck(scan(s.book.ledger), s.book.grants).Pass? && Open(s, rid, now)
                 && WithinHold(s.reservations[rid].items, g, first, second)
  {
    hide Inv, Settle, UsageOf, AssetsOf, LedgerCheck, FindTerminal, Used, WithinHold, FindItem;
    var lines := UsageOf(AssetsOf(g.assets, ids), g.models).value;
    ReportSays(g, ids, first, second);
    ReportSettles(s, rid, lines, delivery, key, now, scan);
    if Open(s, rid, now) {
      ItemFacts(s, rid);
      FitsTogether(s.reservations[rid].items, lines, g, first, second);
    }
  }

  // ---------------------------------------------------------------- what an admission holds

  function Asked(parameters: Parameters, key: string, default: int): Option<int> {
    if key !in parameters then Some(default)
    else if parameters[key].Number? && 0 < parameters[key].n then Some(parameters[key].n)
    else None
  }

  /** The most a job can cost: its images, one if not said, or its seconds of video, four if not said; None when it cannot be run. */
  function MostWorth(j: JobRow): Option<int> {
    var images, seconds := Asked(j.parameters, IMAGES, 1), Asked(j.parameters, SECONDS, 4);
    match (j.mode, j.model)
    case (TextToImage, ImagenFast) => if images.Some? then Some(images.value * 50_000_000) else None
    case (TextToImage, ImagenStandard) => if images.Some? then Some(images.value * 100_000_000) else None
    case (TextToImage, ImagenUltra) => if images.Some? then Some(images.value * 200_000_000) else None
    case (TextToVideo, VeoFast) => if seconds.Some? then Some(seconds.value * 60_000_000) else None
    case (TextToVideo, VeoStandard) => if seconds.Some? then Some(seconds.value * 120_000_000) else None
    case (ImageToVideo, VeoFast) => if seconds.Some? then Some(seconds.value * 60_000_000) else None
    case (ImageToVideo, VeoStandard) => if seconds.Some? then Some(seconds.value * 120_000_000) else None
    case (_, _) => None
  }

  lemma EstimateWorth(j: JobRow)
    ensures EstimateOf(j).Ok? <==> MostWorth(j).Some?
    ensures EstimateOf(j).Ok? ==> EstimateOf(j).value.maximumUnits * Rate(EstimateOf(j).value.meter) == MostWorth(j).value
    ensures EstimateOf(j).Ok? ==> CountsImages(EstimateOf(j).value.meter) == j.mode.TextToImage?
  {
  }

  /** An admission holds the most its jobs can cost, for both jobs of a pipeline together. */
  lemma AdmissionHolds(s: State, job: JobRow, child: Option<JobRow>, now: int, tag: nat, scan: Scan)
    requires Inv(s) && Admission(s, job, child, now, tag, scan).Ok?
    ensures var (t, receipt) := Admission(s, job, child, now, tag, scan).value;
            && MostWorth(job).Some? && (child.Some? ==> MostWorth(child.value).Some?)
            && receipt.reservation < |t.reservations|
            && t.reservations[receipt.reservation].total == receipt.total
               == MostWorth(job).value + if child.Some? then MostWorth(child.value).value else 0
  {
    hide Inv, Reserve, EstimateOf, EstimatePrice, MostWorth, Sort;
    var es := EstimatesOf(job, child).value;
    ReservePrice(s, GenerationReserve(job.id), es, now, tag, scan);
    JobPrice(job);
    if child.None? {
      SumOfOne(es, EstimatePrice);
    } else {
      JobPrice(child.value);
      PairPrice(EstimateOf(job).value, EstimateOf(child.value).value);
    }
  }

  lemma JobPrice(j: JobRow)
    ensures EstimateOf(j).Ok? ==> MostWorth(j) == Some(EstimatePrice(EstimateOf(j).value))
  {
    EstimateWorth(j);
  }

  lemma PairPrice(a: Estimate, b: Estimate)
    ensures SumOf(Sort([a, b], EstimateLeq), EstimatePrice) == EstimatePrice(a) + EstimatePrice(b)
  {
    SortedPrice([a, b]);
    SumOfAppend([a], b, EstimatePrice);
    SumOfOne([a], EstimatePrice);
    assert [a] + [b] == [a, b];
  }
}
