/** What generation jobs are estimated to use, and what their stored assets show they used. */
module GenerationUsage {
  import opened Prelude
  import opened Sorting
  import opened CreditPolicy
  import opened CreditRecords
  import opened CreditAccounting

  datatype GenerationError =
    | Invalid
    | ModelUnsupported
    | OwnershipMismatch
    | DeliveryInvalid
    | DeliveryMissing
    | Accounting(cause: CreditError)

  datatype Mode = TextToImage | TextToVideo | ImageToVideo
  datatype Model = ImagenFast | ImagenStandard | ImagenUltra | VeoFast | VeoStandard | OtherModel

  function MeterOf(m: Model): Option<Meter> {
    match m
    case ImagenFast => Some(ImagenFastImage)
    case ImagenStandard => Some(ImagenStandardImage)
    case ImagenUltra => Some(ImagenUltraImage)
    case VeoFast => Some(VeoFastMs)
    case VeoStandard => Some(VeoStandardMs)
    case OtherModel => None
  }

  predicate CountsImages(m: Meter) {
    m.ImagenFastImage? || m.ImagenStandardImage? || m.ImagenUltraImage?
  }

  predicate CountsVideo(m: Meter) {
    m.VeoFastMs? || m.VeoStandardMs?
  }

  /** The credit metadata a job carries among its parameters. */
  datatype CreditRole = Standalone | PipelineParent | PipelineChild | UnknownRole
  datatype Metadata =
    Metadata(version: int, role: CreditRole, reservation: nat, reserveKey: Key, terminalKey: Key,
             top: nat, parent: Option<nat>, child: Option<nat>)

  datatype Parameter = Number(n: int) | Unreadable | Credit(metadata: Metadata)
  type Parameters = map<string, Parameter>

  const CREDIT_PARAMETER: string := "_generation_credit_v1"
  const IMAGES: string := "number_of_images"
  const SECONDS: string := "duration_sec"

  datatype JobRow = JobRow(id: nat, owner: Option<nat>, mode: Mode, model: Model, parent: Option<nat>, parameters: Parameters)

  // ---------------------------------------------------------------- estimates

  function EstimateOf(j: JobRow): Result<Estimate, GenerationError> {
    var images := j.mode.TextToImage?;
    match MeterOf(j.model)
    case None => Err(ModelUnsupported)
    case Some(meter) =>
      :- Need(images == CountsImages(meter), ModelUnsupported);
      var key := if images then IMAGES else SECONDS;
      var value := if key in j.parameters then j.parameters[key] else Number(if images then 1 else 4);
      :- Need(value.Number? && 0 < value.n, Invalid);
      Ok(Estimate(meter, if images then value.n else value.n * 1000))
  }

  predicate ChildOf(child: JobRow, job: JobRow) {
    && child.owner == job.owner && child.parent == Some(job.id)
    && job.mode.TextToImage? && child.mode.ImageToVideo?
  }

  /** One line for a single job; two, in meter order, for a pipeline's parent and child. */
  function EstimatesOf(job: JobRow, child: Option<JobRow>): Result<seq<Estimate>, GenerationError> {
    var owned := job.owner.Some?;
    :- Need(owned, Invalid);
    var own :- EstimateOf(job);
    match child
    case None => Ok([own])
    case Some(c) =>
      :- Need(ChildOf(c, job), OwnershipMismatch);
      var video :- EstimateOf(c);
      Ok(Sort([own, video], EstimateLeq))
  }

  /** A pipeline's two lines always use different meters, so only the size of the numbers can make the request invalid. */
  lemma PipelineMetersDiffer(job: JobRow, child: JobRow)
    requires EstimatesOf(job, Some(child)).Ok?
    ensures var es := EstimatesOf(job, Some(child)).value;
            && |es| == 2 && es[0].meter != es[1].meter
            && CountsImages(es[0].meter) && CountsVideo(es[1].meter)
            && (ValidEstimates(es) <==> es[0].maximumUnits <= MAX_BIGINT && es[1].maximumUnits <= MAX_BIGINT)
  {
    var own, video := EstimateOf(job).value, EstimateOf(child).value;
    assert EstimateLeq(own, video);
    SortedPair(own, video, EstimateLeq);
  }

  // ---------------------------------------------------------------- delivered usage

  datatype AssetKind = Image | Video
  datatype Asset = Asset(id: nat, job: nat, kind: AssetKind, duration: Option<real>)

  /** Python's `round`: to the nearest integer, halves to the even one. */
  function RoundHalfEven(x: real): (r: int)
    ensures -0.5 <= x - r as real <= 0.5
    ensures (x - r as real == 0.5 || x - r as real == -0.5) ==> r % 2 == 0
  {
    var f := x.Floor;
    var d := x - f as real;
    if d < 0.5 then f else if d > 0.5 then f + 1 else if f % 2 == 0 then f else f + 1
  }

  /** The meter and the units one asset counts for. */
  function Measured(a: Asset, models: map<nat, Model>): Result<(Meter, int), GenerationError> {
    match if a.job in models then MeterOf(models[a.job]) else None
    case None => Err(Invalid)
    case Some(meter) =>
      match a.kind
      case Image =>
        :- Need(CountsImages(meter), DeliveryInvalid);
        Ok((meter, 1))
      case Video =>
        :- Need(CountsVideo(meter), DeliveryInvalid);
        :- Need(a.duration.Some? && 0.0 < a.duration.value, Invalid);
        Ok((meter, RoundHalfEven(a.duration.value * 1000.0)))
  }

  ghost predicate AllMeasured(assets: seq<Asset>, models: map<nat, Model>) {
    forall a | a in assets :: Measured(a, models).Ok?
  }

  function UnitsOn(models: map<nat, Model>, m: Meter): Asset -> int {
    (a: Asset) =>
      match Measured(a, models)
      case Ok((meter, units)) => if meter == m then units else 0
      case Err(_) => 0
  }

  function PriceIn(models: map<nat, Model>): Asset -> int {
    (a: Asset) =>
      match Measured(a, models)
      case Ok((meter, units)) => units * Rate(meter)
      case Err(_) => 0
  }

  /** What the delivered assets cost at the published rates. */
  function DeliveredPrice(assets: seq<Asset>, models: map<nat, Model>): int {
    SumOf(assets, PriceIn(models))
  }

  /** First refusal among the assets, in the order they are read. */
  function FirstFault(assets: seq<Asset>, models: map<nat, Model>): (r: Option<GenerationError>)
    ensures r.None? <==> AllMeasured(assets, models)
  {
    if assets == [] then None
    else
      var n := |assets| - 1;
      assert assets == assets[..n] + [assets[n]];
      var before := FirstFault(assets[..n], models);
      if before.Some? then before
      else if Measured(assets[n], models).Err? then Some(Measured(assets[n], models).error)
      else None
  }

  function LinesOver(meters: seq<Meter>, assets: seq<Asset>, models: map<nat, Model>): seq<UsageLine> {
    if meters == [] then []
    else
      var m := meters[|meters| - 1];
      var units := SumOf(assets, UnitsOn(models, m));
      LinesOver(meters[..|meters| - 1], assets, models)
      + if units > 0 then [UsageLine(m, units, PlatformMeasured)] else []
  }

  /** One line per meter with something delivered, in meter order. */
  function UsageOf(assets: seq<Asset>, models: map<nat, Model>): Result<seq<UsageLine>, GenerationError> {
    match FirstFault(assets, models)
    case Some(error) => Err(error)
    case None => Ok(LinesOver(METERS, assets, models))
  }

  lemma {:induction false} FaultPersists(assets: seq<Asset>, models: map<nat, Model>, n: nat)
    requires n <= |assets| && FirstFault(assets[..n], models).Some?
    ensures FirstFault(assets, models) == FirstFault(assets[..n], models)
    decreases |assets| - n
  {
    if n == |assets| {
      assert assets[..n] == assets;
    } else {
      assert assets[..n + 1][..n] == assets[..n];
      FaultPersists(assets, models, n + 1);
    }
  }

  /** The totals gathered so far, kept in one dictionary per kind of meter. */
  ghost predicate Gathered(images: map<Meter, int>, videos: map<Meter, int>, assets: seq<Asset>, models: map<nat, Model>) {
    && AllMeasured(assets, models)
    && (forall m | m in images :: CountsImages(m))
    && (forall m | m in videos :: CountsVideo(m))
    && forall m ::
         SumOf(assets, UnitsOn(models, m))
         == if m in images then images[m] else if m in videos then videos[m] else 0
  }

  lemma GatherNext(images: map<Meter, int>, videos: map<Meter, int>, assets: seq<Asset>, models: map<nat, Model>, a: Asset)
    requires Gathered(images, videos, assets, models) && Measured(a, models).Ok?
    ensures var (meter, units) := Measured(a, models).value;
            if a.kind.Image? then Gathered(images[meter := (if meter in images then images[meter] else 0) + units], videos, assets + [a], models)
            else Gathered(images, videos[meter := (if meter in videos then videos[meter] else 0) + units], assets + [a], models)
  {
    var (meter, units) := Measured(a, models).value;
    assert AllMeasured(assets + [a], models);
    forall m
      ensures SumOf(assets + [a], UnitsOn(models, m)) == SumOf(assets, UnitsOn(models, m)) + if m == meter then units else 0
    {
      SumOfAppend(assets, a, UnitsOn(models, m));
    }
    hide SumOf, Measured, AllMeasured;
    assert a.kind.Image? ==> CountsImages(meter) by { MeasuredKind(a, models); }
    assert a.kind.Video? ==> CountsVideo(meter) by { MeasuredKind(a, models); }
  }

  lemma MeasuredKind(a: Asset, models: map<nat, Model>)
    requires Measured(a, models).Ok?
    ensures if a.kind.Image? then CountsImages(Measured(a, models).value.0) && Measured(a, models).value.1 == 1
            else CountsVideo(Measured(a, models).value.0)
    ensures 0 <= Measured(a, models).value.1
  {
  }

  lemma GatheredNothing(models: map<nat, Model>)
    ensures Gathered(map[], map[], [], models)
  {
  }

  /** The first asset that cannot be measured decides the refusal. */
  lemma FaultHere(assets: seq<Asset>, models: map<nat, Model>, i: nat)
    requires i < |assets| && AllMeasured(assets[..i], models) && Measured(assets[i], models).Err?
    ensures UsageOf(assets, models) == Err(Measured(assets[i], models).error)
  {
    assert assets[..i + 1] == assets[..i] + [assets[i]];
    assert assets[..i + 1][..i] == assets[..i];
    FaultPersists(assets, models, i + 1);
  }

  /** Read the assets in order, count images and milliseconds per meter, and report what was delivered. */
  method CollectUsage(assets: seq<Asset>, models: map<nat, Model>) returns (r: Result<seq<UsageLine>, GenerationError>)
    ensures r == UsageOf(assets, models)
  {
    hide Gathered, SumOf, CountsImages, CountsVideo, Measured, AllMeasured, FirstFault, LinesOver;
    var images: map<Meter, int> := map[];
    var videos: map<Meter, int> := map[];
    assert assets[..0] == [];
    GatheredNothing(models);
    for i := 0 to |assets|
      invariant Gathered(images, videos, assets[..i], models)
    {
      var a := assets[i];
      assert assets[..i + 1] == assets[..i] + [a];
      var measured := Measured(a, models);
      if measured.Err? {
        GatheredMeasured(images, videos, assets[..i], models);
        FaultHere(assets, models, i);
        return Err(measured.error);
      }
      GatherNext(images, videos, assets[..i], models, a);
      var (meter, units) := measured.value;
      if a.kind.Image? {
        images := images[meter := (if meter in images then images[meter] else 0) + units];
      } else {
        videos := videos[meter := (if meter in videos then videos[meter] else 0) + units];
      }
    }
    assert assets[..|assets|] == assets;
    GatheredMeasured(images, videos, assets, models);
    var lines := ReportLines(images, videos, assets, models);
    r := Ok(lines);
  }

  /** One line for every meter with something counted, in meter order. */
  method ReportLines(images: map<Meter, int>, videos: map<Meter, int>, ghost assets: seq<Asset>, ghost models: map<nat, Model>)
    returns (lines: seq<UsageLine>)
    requires Gathered(images, videos, assets, models)
    ensures lines == LinesOver(METERS, assets, models)
  {
    lines := [];
    for k := 0 to |METERS|
      invariant lines == LinesOver(METERS[..k], assets, models)
    {
      hide SumOf;
      var m := METERS[k];
      assert METERS[..k + 1][..k] == METERS[..k];
      var units := if m in images then images[m] else if m in videos then videos[m] else 0;
      if units > 0 {
        lines := lines + [UsageLine(m, units, PlatformMeasured)];
      } else {
        assert lines + [] == lines;
      }
    }
    assert METERS[..|METERS|] == METERS;
  }

  lemma GatheredMeasured(images: map<Meter, int>, videos: map<Meter, int>, assets: seq<Asset>, models: map<nat, Model>)
    requires Gathered(images, videos, assets, models)
    ensures AllMeasured(assets, models)
  {
  }

  // ---------------------------------------------------------------- the price of a report

  function LinePrice(l: UsageLine): int {
    l.actualUnits * Rate(l.meter)
  }

  function PriceOver(meters: seq<Meter>, assets: seq<Asset>, models: map<nat, Model>): int {
    if meters == [] then 0
    else PriceOver(meters[..|meters| - 1], assets, models)
         + SumOf(assets, UnitsOn(models, meters[|meters| - 1])) * Rate(meters[|meters| - 1])
  }

  lemma {:induction false} UnitsNonNegative(assets: seq<Asset>, models: map<nat, Model>, m: Meter)
    ensures 0 <= SumOf(assets, UnitsOn(models, m))
  {
    if assets != [] {
      UnitsNonNegative(assets[..|assets| - 1], models, m);
      var a := assets[|assets| - 1];
      if Measured(a, models).Ok? {
        MeasuredKind(a, models);
      }
    }
  }

  lemma {:induction false} LinesOverPrice(meters: seq<Meter>, assets: seq<Asset>, models: map<nat, Model>)
    ensures SumOf(LinesOver(meters, assets, models), LinePrice) == PriceOver(meters, assets, models)
  {
    if meters != [] {
      var n := |meters| - 1;
      LinesOverPrice(meters[..n], assets, models);
      UnitsNonNegative(assets, models, meters[n]);
      var units := SumOf(assets, UnitsOn(models, meters[n]));
      var before := LinesOver(meters[..n], assets, models);
      if units > 0 {
        SumOfAppend(before, UsageLine(meters[n], units, PlatformMeasured), LinePrice);
      } else {
        assert before + [] == before;
      }
    }
  }

  lemma {:induction false} PriceOverAppend(meters: seq<Meter>, assets: seq<Asset>, models: map<nat, Model>, a: Asset)
    ensures PriceOver(meters, assets + [a], models)
            == PriceOver(meters, assets, models) + PriceOver(meters, [a], models)
  {
    if meters != [] {
      var n := |meters| - 1;
      hide SumOf;
      PriceOverAppend(meters[..n], assets, models, a);
      var f := UnitsOn(models, meters[n]);
      SumOfAppend(assets, a, f);
      SumOfOne([a], f);
      Distributes(SumOf(assets, f), f(a), Rate(meters[n]));
    }
  }

  lemma Distributes(x: int, y: int, r: int)
    ensures (x + y) * r == x * r + y * r
  {
  }

  lemma {:induction false} PriceOverSingle(meters: seq<Meter>, models: map<nat, Model>, a: Asset)
    requires forall i, j | 0 <= i < j < |meters| :: meters[i] != meters[j]
    ensures PriceOver(meters, [a], models)
            == if Measured(a, models).Ok? && Measured(a, models).value.0 in meters then PriceIn(models)(a) else 0
  {
    if meters != [] {
      var n := |meters| - 1;
      var f := UnitsOn(models, meters[n]);
      PriceOverSingle(meters[..n], models, a);
      assert meters == meters[..n] + [meters[n]];
      SumOfAppend([], a, f);
      assert [] + [a] == [a];
      assert SumOf([a], f) == f(a);
    }
  }

  lemma {:induction false} PriceOverAll(assets: seq<Asset>, models: map<nat, Model>)
    ensures PriceOver(METERS, assets, models) == DeliveredPrice(assets, models)
  {
    if assets == [] {
      PriceOfNothing(METERS, models);
    } else {
      var n := |assets| - 1;
      var a := assets[n];
      assert assets == assets[..n] + [a];
      PriceOverAll(assets[..n], models);
      PriceOverAppend(METERS, assets[..n], models, a);
      PriceOverSingle(METERS, models, a);
      if Measured(a, models).Ok? {
        InMeters(Measured(a, models).value.0);
      }
      SumOfAppend(assets[..n], a, PriceIn(models));
    }
  }

  lemma {:induction false} PriceOfNothing(meters: seq<Meter>, models: map<nat, Model>)
    ensures PriceOver(meters, [], models) == 0
  {
    if meters != [] {
      PriceOfNothing(meters[..|meters| - 1], models);
    }
  }

  /** The reported lines cost exactly what the assets cost one by one. */
  lemma ReportPrice(assets: seq<Asset>, models: map<nat, Model>)
    requires UsageOf(assets, models).Ok?
    ensures SumOf(UsageOf(assets, models).value, LinePrice) == DeliveredPrice(assets, models)
  {
    LinesOverPrice(METERS, assets, models);
    PriceOverAll(assets, models);
  }

  /** The report does not depend on the order in which assets are read. */
  lemma ReportOrderIndependent(assets: seq<Asset>, others: seq<Asset>, models: map<nat, Model>)
    requires multiset(assets) == multiset(others) && UsageOf(assets, models).Ok?
    ensures UsageOf(others, models) == UsageOf(assets, models)
  {
    forall a | a in others
      ensures Measured(a, models).Ok?
    {
      assert a in multiset(others);
      assert a in multiset(assets);
    }
    SameLinesOver(METERS, assets, others, models);
  }

  lemma {:induction false} SameLinesOver(meters: seq<Meter>, assets: seq<Asset>, others: seq<Asset>, models: map<nat, Model>)
    requires multiset(assets) == multiset(others)
    ensures LinesOver(meters, others, models) == LinesOver(meters, assets, models)
  {
    if meters != [] {
      SameLinesOver(meters[..|meters| - 1], assets, others, models);
      SumOfPermutation(assets, others, UnitsOn(models, meters[|meters| - 1]));
    }
  }
}
