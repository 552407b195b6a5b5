/**
 * The write-ahead usage ledger of a budgeted pilot: a billable request is
 * recorded on disk before it is sent, across crashes and restarts.
 */
module BudgetLedger {
  import opened Prelude

  datatype BudgetError =
    | LedgerMismatch
    | DuplicateStep
    | ModelDiffers
    | SampleCountDiffers
    | EnhancementCap
    | GenerationCap
    | ImageCap
    | BudgetCap
    | RetryCap
    | WriteFailed

  datatype Kind = Enhancement | Generation
  datatype Status = Reserved | Succeeded | Failed

  datatype UsageEvent = UsageEvent(
    sequence: nat,
    kind: Kind,
    step: string,
    status: Status,
    model: string,
    requestedImages: int,
    responseId: Option<string>,
    attempts: Option<nat>,
    charged: Option<bool>,
    jobState: Option<string>,
    completedAt: Option<int>,
    failureCode: Option<string>)

  datatype Identity = Identity(runId: string, policySha: string, planSha: string)
  datatype Ledger = Ledger(identity: Identity, events: seq<UsageEvent>)

  datatype Policy = Policy(
    enhancer: string,
    generator: string,
    samplesPerArm: int,
    maxEnhancements: int,
    maxGenerations: int,
    maxImages: int,
    maxRetries: int,
    maxInputTokens: int,
    maxOutputTokens: int,
    callGroups: int,
    inputRate: real,
    outputRate: real,
    imageRate: real,
    stopAt: real)

  datatype Request = Request(kind: Kind, step: string, model: string, images: int)

  // ---------------------------------------------------------------- caps and cost

  function IsEnhancement(e: UsageEvent): int {
    if e.kind.Enhancement? then 1 else 0
  }

  function IsGeneration(e: UsageEvent): int {
    if e.kind.Generation? then 1 else 0
  }

  function ImagesOf(e: UsageEvent): int {
    e.requestedImages
  }

  function PerGemini(p: Policy): real {
    p.maxInputTokens as real * p.inputRate / 1000000.0 + p.maxOutputTokens as real * p.outputRate / 1000000.0
  }

  /** Every reserved request is assumed to cost its worst case. */
  function CommittedCost(events: seq<UsageEvent>, p: Policy): real {
    SumOf(events, IsEnhancement) as real * PerGemini(p) * p.callGroups as real * p.maxRetries as real
    + SumOf(events, ImagesOf) as real * p.imageRate * p.maxRetries as real
  }

  function Candidate(events: seq<UsageEvent>, p: Policy, r: Request): UsageEvent {
    UsageEvent(|events| + 1, r.kind, r.step, Reserved, if r.kind.Enhancement? then p.enhancer else r.model,
               if r.kind.Enhancement? then 0 else r.images, None, None, None, None, None, None)
  }

  /** `_reserve` up to the write: the ledger with the new event, or the refusal. */
  function Reservation(events: seq<UsageEvent>, p: Policy, r: Request): Result<seq<UsageEvent>, BudgetError> {
    var unused := forall e | e in events :: e.step != r.step;
    :- Need(unused, DuplicateStep);
    :- Need(r.kind.Generation? ==> r.model == p.generator, ModelDiffers);
    :- Need(r.kind.Generation? ==> r.images == p.samplesPerArm, SampleCountDiffers);
    var after := events + [Candidate(events, p, r)];
    :- Need(SumOf(after, IsEnhancement) <= p.maxEnhancements, EnhancementCap);
    :- Need(SumOf(after, IsGeneration) <= p.maxGenerations, GenerationCap);
    :- Need(SumOf(after, ImagesOf) <= p.maxImages, ImageCap);
    :- Need(CommittedCost(after, p) <= p.stopAt, BudgetCap);
    Ok(after)
  }

  // ---------------------------------------------------------------- later changes to an event

  datatype Change =
    | Success(responseId: Option<string>, attempts: Option<nat>, charged: Option<bool>)
    | Failure
    | Progress(attempts: Option<nat>, charged: Option<bool>, jobState: Option<string>, completedAt: Option<int>, failure: Option<Option<string>>)

  /** What an answer or a status poll changes: never who asked, for what, or how many images. */
  function Apply(e: UsageEvent, c: Change): UsageEvent {
    match c
    case Success(responseId, attempts, charged) =>
      if e.kind.Enhancement? then e.(status := Succeeded, responseId := responseId)
      else e.(status := Succeeded, responseId := responseId, attempts := attempts, charged := charged)
    case Failure => e.(status := Failed)
    case Progress(attempts, charged, jobState, completedAt, failure) =>
      e.(attempts := attempts, charged := charged, jobState := jobState,
         completedAt := if completedAt.Some? then completedAt else e.completedAt,
         failureCode := failure.GetOr(e.failureCode))
  }

  function Updated(events: seq<UsageEvent>, i: nat, c: Change): seq<UsageEvent>
    requires i < |events|
  {
    events[i := Apply(events[i], c)]
  }

  /** `failure` is there when the response carries an error record, with the code if that has one. */
  datatype Response =
    Response(id: Option<string>, attempts: Option<nat>, charged: Option<bool>, jobState: Option<string>, failure: Option<Option<string>>)

  predicate Ended(jobState: Option<string>) {
    jobState.Some? && jobState.value in {"completed", "failed", "cancelled"}
  }

  /** A poll that finds the job ended also notes when, and how it failed. */
  function ProgressOf(r: Response, now: int): Change {
    Progress(r.attempts, r.charged, r.jobState,
             if Ended(r.jobState) then Some(now) else None, if Ended(r.jobState) then r.failure else None)
  }

  predicate Answers(e: UsageEvent, id: string) {
    e.kind.Generation? && e.responseId == Some(id)
  }

  /** First generation event that carries the response's id. */
  function FindGeneration(events: seq<UsageEvent>, id: string, from: nat): (r: Option<nat>)
    requires from <= |events|
    ensures r.Some? ==> from <= r.value < |events| && Answers(events[r.value], id)
    ensures r.Some? ==> forall i | from <= i < r.value :: !Answers(events[i], id)
    ensures r.None? ==> forall i | from <= i < |events| :: !Answers(events[i], id)
    decreases |events| - from
  {
    if from == |events| then None
    else if Answers(events[from], id) then Some(from)
    else FindGeneration(events, id, from + 1)
  }

  /** None when nothing is to be written. */
  function Polled(events: seq<UsageEvent>, p: Policy, r: Response, now: int): Result<Option<seq<UsageEvent>>, BudgetError> {
    if r.id.None? then Ok(None)
    else
      match FindGeneration(events, r.id.value, 0)
      case None => Ok(None)
      case Some(i) =>
        :- Need(r.attempts.Some? ==> r.attempts.value <= p.maxRetries, RetryCap);
        var after := Updated(events, i, ProgressOf(r, now));
        Ok(if after[i] == events[i] then None else Some(after))
  }

  // ---------------------------------------------------------------- crashes and restarts

  datatype Flight = Flight(index: nat, step: string, posted: bool)
  datatype Process = Process(ledger: Ledger, flight: Option<Flight>)

  /** The ledger file, the running process if there is one, and the billable requests on the wire so far. */
  datatype World = World(file: Option<Ledger>, process: Option<Process>, sent: seq<string>)

  datatype Action =
    | Start(identity: Identity)
    | Begin(request: Request, durable: bool)
    | Post
    | Finish(change: Change, durable: bool)
    | Poll(response: Response, now: int, durable: bool)
    | Crash

  function FileEvents(w: World): seq<UsageEvent> {
    if w.file.Some? then w.file.value.events else []
  }

  /** `_replace_events`: memory first, then the file by atomic replacement; the write may fail. */
  function Replaced(w: World, events: seq<UsageEvent>, flight: Option<Flight>, durable: bool): World
    requires w.process.Some?
  {
    var ledger := w.process.value.ledger.(events := events);
    w.(process := Some(Process(ledger, flight)), file := if durable then Some(ledger) else w.file)
  }

  predicate Enabled(w: World, a: Action) {
    match a
    case Start(_) => w.process.None?
    case Begin(_, _) => w.process.Some? && w.process.value.flight.None?
    case Post => w.process.Some? && w.process.value.flight.Some? && !w.process.value.flight.value.posted
    case Finish(change, _) =>
      && w.process.Some? && w.process.value.flight.Some? && w.process.value.flight.value.posted
      && w.process.value.flight.value.index < |w.process.value.ledger.events|
      && !change.Progress?
    case Poll(_, _, _) => w.process.Some? && w.process.value.flight.None?
    case Crash => w.process.Some?
  }

  function Next(w: World, p: Policy, a: Action): World {
    if !Enabled(w, a) then w
    else
      match a
      case Start(identity) =>
        (match w.file
         case None => w.(process := Some(Process(Ledger(identity, []), None)))
         case Some(l) => if l.identity == identity then w.(process := Some(Process(l, None))) else w)
      case Begin(request, durable) =>
        var events := w.process.value.ledger.events;
        (match Reservation(events, p, request)
         case Err(_) => w
         case Ok(after) => Replaced(w, after, if durable then Some(Flight(|events|, request.step, false)) else None, durable))
      case Post =>
        var q := w.process.value;
        w.(sent := w.sent + [q.flight.value.step], process := Some(q.(flight := Some(q.flight.value.(posted := true)))))
      case Finish(change, durable) =>
        var q := w.process.value;
        Replaced(w, Updated(q.ledger.events, q.flight.value.index, change), None, durable)
      case Poll(response, now, durable) =>
        (match Polled(w.process.value.ledger.events, p, response, now)
         case Ok(Some(after)) => Replaced(w, after, None, durable)
         case _ => w)
      case Crash => w.(process := None)
  }

  function Execute(w: World, p: Policy, actions: seq<Action>): World {
    if actions == [] then w else Next(Execute(w, p, actions[..|actions| - 1]), p, actions[|actions| - 1])
  }

  // ---------------------------------------------------------------- the invariant

  predicate SameRequest(a: UsageEvent, b: UsageEvent) {
    a.sequence == b.sequence && a.kind == b.kind && a.step == b.step && a.model == b.model && a.requestedImages == b.requestedImages
  }

  /** Prompts go to the enhancer and ask for no image; pictures come from the generator, as many as the policy says. */
  predicate AsApproved(e: UsageEvent, p: Policy) {
    if e.kind.Enhancement? then e.model == p.enhancer && e.requestedImages == 0
    else e.model == p.generator && e.requestedImages == p.samplesPerArm
  }

  ghost predicate WithinPolicy(events: seq<UsageEvent>, p: Policy) {
    && (forall i | 0 <= i < |events| :: AsApproved(events[i], p))
    && (forall i, j | 0 <= i < j < |events| :: events[i].step != events[j].step)
    && (forall i | 0 <= i < |events| :: events[i].sequence == i + 1)
    && (events != [] ==>
          && SumOf(events, IsEnhancement) <= p.maxEnhancements
          && SumOf(events, IsGeneration) <= p.maxGenerations
          && SumOf(events, ImagesOf) <= p.maxImages
          && CommittedCost(events, p) <= p.stopAt)
  }

  /** `b` records at least the requests of `a`, in the same places. */
  ghost predicate Ahead(a: seq<UsageEvent>, b: seq<UsageEvent>) {
    |a| <= |b| && forall i | 0 <= i < |a| :: SameRequest(a[i], b[i])
  }

  ghost predicate Records(events: seq<UsageEvent>, step: string) {
    exists i | 0 <= i < |events| :: events[i].step == step
  }

  ghost predicate FlightOk(w: World, f: Flight) {
    && f.index < |FileEvents(w)| && FileEvents(w)[f.index].step == f.step
    && (!f.posted ==> f.step !in w.sent)
  }

  ghost predicate WorldOk(w: World, p: Policy) {
    && WithinPolicy(FileEvents(w), p)
    && (w.process.Some? ==>
          && WithinPolicy(w.process.value.ledger.events, p)
          && Ahead(FileEvents(w), w.process.value.ledger.events)
          && (w.process.value.flight.Some? ==> FlightOk(w, w.process.value.flight.value)))
    && (forall i, j | 0 <= i < j < |w.sent| :: w.sent[i] != w.sent[j])
    && (forall step | step in w.sent :: Records(FileEvents(w), step))
  }

  lemma {:induction false} SumsSame(a: seq<UsageEvent>, b: seq<UsageEvent>)
    requires |a| == |b| && Ahead(a, b)
    ensures SumOf(a, IsEnhancement) == SumOf(b, IsEnhancement)
    ensures SumOf(a, IsGeneration) == SumOf(b, IsGeneration)
    ensures SumOf(a, ImagesOf) == SumOf(b, ImagesOf)
  {
    if a != [] {
      var n := |a| - 1;
      assert SameRequest(a[n], b[n]);
      assert forall i | 0 <= i < n :: SameRequest(a[i], b[i]);
      SumsSame(a[..n], b[..n]);
    }
  }

  /** Answers and status polls never change the committed cost, nor any cap's count. */
  lemma UpdatesKeepCost(events: seq<UsageEvent>, i: nat, c: Change, p: Policy)
    requires i < |events|
    ensures CommittedCost(Updated(events, i, c), p) == CommittedCost(events, p)
    ensures Ahead(events, Updated(events, i, c)) && Ahead(Updated(events, i, c), events)
    ensures WithinPolicy(events, p) ==> WithinPolicy(Updated(events, i, c), p)
  {
    SumsSame(events, Updated(events, i, c));
  }

  lemma AheadTransitive(a: seq<UsageEvent>, b: seq<UsageEvent>, c: seq<UsageEvent>)
    requires Ahead(a, b) && Ahead(b, c)
    ensures Ahead(a, c)
  {
    forall i | 0 <= i < |a|
      ensures SameRequest(a[i], c[i])
    {
      assert SameRequest(a[i], b[i]) && SameRequest(b[i], c[i]);
    }
  }

  lemma RecordsAhead(a: seq<UsageEvent>, b: seq<UsageEvent>, step: string)
    requires Ahead(a, b) && Records(a, step)
    ensures Records(b, step)
  {
    var i :| 0 <= i < |a| && a[i].step == step;
    assert SameRequest(a[i], b[i]);
  }

  /** A granted reservation adds one new step and stays within every limit. */
  lemma ReservationWithin(events: seq<UsageEvent>, p: Policy, r: Request)
    requires WithinPolicy(events, p) && Reservation(events, p, r).Ok?
    ensures var after := Reservation(events, p, r).value;
            && WithinPolicy(after, p) && Ahead(events, after)
            && |after| == |events| + 1 && after[|events|].step == r.step && !Records(events, r.step)
  {
    hide SumOf, CommittedCost;
    var after := Reservation(events, p, r).value;
    assert after == events + [Candidate(events, p, r)];
    assert forall e | e in events :: e.step != r.step;
    hide Reservation, Candidate;
    forall i | 0 <= i < |events|
      ensures SameRequest(events[i], after[i]) && events[i].step != r.step
    {
      assert events[i] in events;
    }
  }

  /** Any replacement of the ledger by one that is ahead of it. */
  lemma ReplacedOk(w: World, p: Policy, events: seq<UsageEvent>, flight: Option<Flight>, durable: bool)
    requires WorldOk(w, p) && w.process.Some?
    requires WithinPolicy(events, p) && Ahead(w.process.value.ledger.events, events)
    requires flight.Some? ==> durable && flight.value.index < |events| && events[flight.value.index].step == flight.value.step
                              && flight.value.step !in w.sent
    ensures WorldOk(Replaced(w, events, flight, durable), p)
  {
    hide WithinPolicy, Records, SameRequest;
    var before := w.process.value.ledger.events;
    AheadTransitive(FileEvents(w), before, events);
    var z := Replaced(w, events, flight, durable);
    forall step | step in z.sent
      ensures Records(FileEvents(z), step)
    {
      if durable {
        RecordsAhead(FileEvents(w), events, step);
      }
    }
    SelfAhead(events);
  }

  lemma SelfAhead(events: seq<UsageEvent>)
    ensures Ahead(events, events)
  {
  }

  lemma NextKeeps(w: World, p: Policy, a: Action)
    requires WorldOk(w, p)
    ensures WorldOk(Next(w, p, a), p)
  {
    if Enabled(w, a) {
      hide WithinPolicy, Ahead, Records, Reservation, Polled;
      match a
      case Start(identity) => StartKeeps(w, p, identity);
      case Begin(request, durable) => BeginKeeps(w, p, request, durable);
      case Post => PostKeeps(w, p);
      case Finish(change, durable) =>
        var q := w.process.value;
        UpdatesKeepCost(q.ledger.events, q.flight.value.index, change, p);
        ReplacedOk(w, p, Updated(q.ledger.events, q.flight.value.index, change), None, durable);
      case Poll(response, now, durable) => PollKeeps(w, p, response, now, durable);
      case Crash =>
    }
  }

  lemma StartKeeps(w: World, p: Policy, identity: Identity)
    requires WorldOk(w, p) && w.process.None?
    ensures WorldOk(Next(w, p, Start(identity)), p)
  {
    SelfAhead(FileEvents(w));
    hide Records, SumOf, CommittedCost;
  }

  lemma BeginKeeps(w: World, p: Policy, request: Request, durable: bool)
    requires WorldOk(w, p) && Enabled(w, Begin(request, durable))
    ensures WorldOk(Next(w, p, Begin(request, durable)), p)
  {
    hide WithinPolicy, Ahead, Records, Reservation;
    var events := w.process.value.ledger.events;
    if Reservation(events, p, request).Ok? {
      var after := Reservation(events, p, request).value;
      ReservationWithin(events, p, request);
      if request.step in w.sent {
        RecordsAhead(FileEvents(w), events, request.step);
      }
      ReplacedOk(w, p, after, if durable then Some(Flight(|events|, request.step, false)) else None, durable);
    }
  }

  lemma PostKeeps(w: World, p: Policy)
    requires WorldOk(w, p) && Enabled(w, Post)
    ensures WorldOk(Next(w, p, Post), p)
  {
    hide WithinPolicy, Ahead;
    var f := w.process.value.flight.value;
    assert Records(FileEvents(w), f.step);
  }

  lemma PollKeeps(w: World, p: Policy, response: Response, now: int, durable: bool)
    requires WorldOk(w, p) && Enabled(w, Poll(response, now, durable))
    ensures WorldOk(Next(w, p, Poll(response, now, durable)), p)
  {
    hide WithinPolicy, Ahead, Records;
    var events := w.process.value.ledger.events;
    match Polled(events, p, response, now) {
      case Ok(Some(after)) =>
        var i := FindGeneration(events, response.id.value, 0).value;
        UpdatesKeepCost(events, i, ProgressOf(response, now), p);
        ReplacedOk(w, p, after, None, durable);
      case _ =>
    }
  }

  lemma {:induction false} ExecuteKeeps(w: World, p: Policy, actions: seq<Action>)
    requires WorldOk(w, p)
    ensures WorldOk(Execute(w, p, actions), p)
  {
    if actions != [] {
      hide WorldOk, Next;
      ExecuteKeeps(w, p, actions[..|actions| - 1]);
      NextKeeps(Execute(w, p, actions[..|actions| - 1]), p, actions[|actions| - 1]);
    }
  }

  const NOTHING_YET: World := World(None, None, [])

  lemma ReachableWorldOk(p: Policy, actions: seq<Action>)
    ensures WorldOk(Execute(NOTHING_YET, p, actions), p)
  {
    ExecuteKeeps(NOTHING_YET, p, actions);
  }

  // ---------------------------------------------------------------- what every run guarantees

  /** A billable request is on the wire only if its event is in the file, and each step is sent at most once, whatever crashed and restarted. */
  lemma SentOnceAndRecorded(p: Policy, actions: seq<Action>)
    ensures var w := Execute(NOTHING_YET, p, actions);
            && (forall step | step in w.sent :: Records(FileEvents(w), step))
            && (forall i, j | 0 <= i < j < |w.sent| :: w.sent[i] != w.sent[j])
            && |w.sent| <= |FileEvents(w)|
  {
    ReachableWorldOk(p, actions);
    var w := Execute(NOTHING_YET, p, actions);
    hide Execute;
    var steps := StepsOf(FileEvents(w));
    forall step | step in w.sent
      ensures step in steps
    {
      assert Records(FileEvents(w), step);
    }
    DistinctWithin(w.sent, steps);
  }

  function StepsOf(events: seq<UsageEvent>): (r: seq<string>)
    ensures |r| == |events| && forall i | 0 <= i < |events| :: r[i] == events[i].step
  {
    if events == [] then [] else StepsOf(events[..|events| - 1]) + [events[|events| - 1].step]
  }

  /** Request, image and cost limits hold of the file after every run. */
  lemma LimitsHold(p: Policy, actions: seq<Action>)
    ensures var events := FileEvents(Execute(NOTHING_YET, p, actions));
            events != [] ==>
              && SumOf(events, IsEnhancement) <= p.maxEnhancements
              && SumOf(events, IsGeneration) <= p.maxGenerations
              && SumOf(events, ImagesOf) <= p.maxImages
              && CommittedCost(events, p) <= p.stopAt
    ensures forall e | e in FileEvents(Execute(NOTHING_YET, p, actions)) :: AsApproved(e, p)
  {
    ReachableWorldOk(p, actions);
    hide Execute, SumOf;
  }

  /** An answer is recorded on the event of the request in flight and on no other; once written, the file has it too. */
  lemma AnswerIsRecorded(w: World, p: Policy, change: Change, durable: bool)
    requires Enabled(w, Finish(change, durable))
    ensures var before, i := w.process.value.ledger.events, w.process.value.flight.value.index;
            var z := Next(w, p, Finish(change, durable));
            && z.process.Some? && z.process.value.flight.None? && z.sent == w.sent
            && var after := z.process.value.ledger.events;
            && |after| == |before| && (forall k | 0 <= k < |before| && k != i :: after[k] == before[k])
            && SameRequest(before[i], after[i])
            && (after[i].status.Succeeded? <==> change.Success?) && (after[i].status.Failed? <==> change.Failure?)
            && (change.Success? ==> after[i].responseId == change.responseId)
            && (change.Success? && before[i].kind.Generation? ==> after[i].attempts == change.attempts && after[i].charged == change.charged)
            && (durable ==> z.file == Some(z.process.value.ledger)) && (!durable ==> z.file == w.file)
  {
  }

  /**
   * A status poll is recorded on the first generation that carries its id: what
   * the response says about attempts, charge and state, and for an ended job
   * when it was found so; the failure code stays what it was unless the
   * response of an ended job carries an error record.
   */
  lemma PollIsRecorded(events: seq<UsageEvent>, p: Policy, r: Response, now: int, i: nat)
    requires r.id.Some? && i < |events| && Answers(events[i], r.id.value)
    requires forall k | 0 <= k < i :: !Answers(events[k], r.id.value)
    ensures Polled(events, p, r, now).Err? <==> r.attempts.Some? && p.maxRetries < r.attempts.value
    ensures Polled(events, p, r, now).Ok? ==>
              var after := Polled(events, p, r, now).value.GetOr(events);
              && |after| == |events| && (forall k | 0 <= k < |events| && k != i :: after[k] == events[k])
              && SameRequest(events[i], after[i]) && after[i].status == events[i].status && after[i].responseId == events[i].responseId
              && after[i].attempts == r.attempts && after[i].charged == r.charged && after[i].jobState == r.jobState
              && after[i].completedAt == (if Ended(r.jobState) then Some(now) else events[i].completedAt)
              && after[i].failureCode == (if Ended(r.jobState) && r.failure.Some? then r.failure.value else events[i].failureCode)
  {
    var found := FindGeneration(events, r.id.value, 0);
    assert found == Some(i);
  }

  /** A step that is in the file is never granted again, in this process or a later one. */
  lemma StepNeverGrantedAgain(p: Policy, actions: seq<Action>, request: Request, durable: bool)
    requires Records(FileEvents(Execute(NOTHING_YET, p, actions)), request.step)
    ensures var w := Execute(NOTHING_YET, p, actions); Next(w, p, Begin(request, durable)) == w
  {
    ReachableWorldOk(p, actions);
    var w := Execute(NOTHING_YET, p, actions);
    hide Execute;
    if Enabled(w, Begin(request, durable)) {
      RecordsAhead(FileEvents(w), w.process.value.ledger.events, request.step);
      hide SumOf, CommittedCost;
    }
  }

  // ---------------------------------------------------------------- the client

  class BudgetedClient {
    const policy: Policy
    var file: Option<Ledger>
    var ledger: Ledger
    var flight: Option<Flight>
    var sent: seq<string>

    function State(): World
      reads this
    {
      World(file, Some(Process(ledger, flight)), sent)
    }

    /** Start on an existing file, which must belong to this run, or on none. */
    constructor (policy: Policy, identity: Identity, file: Option<Ledger>, sent: seq<string>)
      requires file.Some? ==> file.value.identity == identity
      ensures this.policy == policy
      ensures State() == Next(World(file, None, sent), policy, Start(identity))
    {
      this.policy, this.file, this.sent := policy, file, sent;
      ledger := if file.Some? then file.value else Ledger(identity, []);
      flight := None;
    }

    method ReplaceEvents(events: seq<UsageEvent>, durable: bool)
      modifies this`ledger, this`file
      ensures State() == Replaced(old(State()), events, old(flight), durable)
    {
      ledger := ledger.(events := events);
      if durable {
        file := Some(ledger);
      }
    }

    /** `_reserve`: check, record, write; only a durable event may be sent. */
    method Reserve(r: Request, durable: bool) returns (result: Result<nat, BudgetError>)
      requires flight.None?
      modifies this`ledger, this`file, this`flight
      ensures State() == Next(old(State()), policy, Begin(r, durable))
      ensures result.Ok? ==> flight == Some(Flight(result.value, r.step, false))
      ensures result.Err? ==> flight.None?
    {
      hide SumOf, CommittedCost;
      var events := ledger.events;
      if exists e | e in events :: e.step == r.step {
        return Err(DuplicateStep);
      }
      if r.kind.Generation? {
        if r.model != policy.generator {
          return Err(ModelDiffers);
        }
        if r.images != policy.samplesPerArm {
          return Err(SampleCountDiffers);
        }
      }
      var candidate := Candidate(events, policy, r);
      SumOfAppend(events, candidate, IsEnhancement);
      SumOfAppend(events, candidate, IsGeneration);
      SumOfAppend(events, candidate, ImagesOf);
      if SumOf(events, IsEnhancement) + IsEnhancement(candidate) > policy.maxEnhancements {
        return Err(EnhancementCap);
      }
      if SumOf(events, IsGeneration) + IsGeneration(candidate) > policy.maxGenerations {
        return Err(GenerationCap);
      }
      if SumOf(events, ImagesOf) + candidate.requestedImages > policy.maxImages {
        return Err(ImageCap);
      }
      if CommittedCost(events + [candidate], policy) > policy.stopAt {
        return Err(BudgetCap);
      }
      ReplaceEvents(events + [candidate], durable);
      if !durable {
        return Err(WriteFailed);
      }
      flight := Some(Flight(|events|, r.step, false));
      result := Ok(|events|);
    }

    method Send()
      requires flight.Some? && !flight.value.posted
      modifies this`flight, this`sent
      ensures State() == Next(old(State()), policy, Post)
    {
      sent := sent + [flight.value.step];
      flight := Some(flight.value.(posted := true));
    }

    method Record(change: Change, durable: bool)
      requires flight.Some? && flight.value.posted && flight.value.index < |ledger.events| && !change.Progress?
      modifies this`ledger, this`file, this`flight
      ensures State() == Next(old(State()), policy, Finish(change, durable))
    {
      var i := flight.value.index;
      ReplaceEvents(Updated(ledger.events, i, change), durable);
      flight := None;
    }

    /** `request_json` for a billable request: nothing is sent unless the reservation was written. */
    method RequestBillable(r: Request, durable: bool, answer: Change, recorded: bool) returns (result: Result<nat, BudgetError>)
      requires flight.None? && !answer.Progress?
      modifies this
      ensures var begun := Next(old(State()), policy, Begin(r, durable));
              State() == if result.Err? then begun else Next(Next(begun, policy, Post), policy, Finish(answer, recorded))
      ensures result.Err? ==> sent == old(sent)
      ensures result.Ok? ==> sent == old(sent) + [r.step] && durable
    {
      hide SumOf, CommittedCost;
      result := Reserve(r, durable);
      if result.Ok? {
        Send();
        Record(answer, recorded);
      }
    }

    /** `_update_generation_status`: find the event the response belongs to and write what changed, which for an ended job includes the time of the poll. */
    method UpdateGenerationStatus(response: Response, now: int, durable: bool) returns (result: Check<BudgetError>)
      requires flight.None?
      modifies this`ledger, this`file
      ensures State() == Next(old(State()), policy, Poll(response, now, durable))
      ensures result.Fail? <==> Polled(old(ledger.events), policy, response, now).Err?
    {
      if response.id.None? {
        return Pass;
      }
      var events := ledger.events;
      var id := response.id.value;
      for i := 0 to |events|
        invariant FindGeneration(events, id, 0) == FindGeneration(events, id, i)
        invariant State() == old(State())
      {
        if Answers(events[i], id) {
          if response.attempts.Some? && response.attempts.value > policy.maxRetries {
            return Fail(RetryCap);
          }
          var change := ProgressOf(response, now);
          if Apply(events[i], change) != events[i] {
            ReplaceEvents(Updated(events, i, change), durable);
          }
          return Pass;
        }
      }
      result := Pass;
    }
  }
}
