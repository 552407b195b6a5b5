/**
 * How job rows come to be: single generations, retries and pipelines, each
 * admitted with a reservation of its own. What every such history keeps, and
 * what a suspension does at its end.
 */
module JobCreation {
  import opened Prelude
  import opened Sorting
  import opened CreditPolicy
  import opened CreditRecords
  import opened CreditAccounting
  import opened CreditInvariant
  import opened CreditHistory
  import opened FirstUse
  import opened PromptProtocol
  import opened GenerationUsage
  import opened GenerationCredit
  import opened SuspensionSweep
  import JobStates

  /** One user's credit rows and the job table. */
  datatype World = World(bank: State, jobs: seq<Work>)

  datatype Happening =
    | Single(mode: Mode, model: Model, source: Option<nat>, parameters: Parameters, now: int, tag: nat, scan: Scan)
    | Again(job: nat, now: int, tag: nat, scan: Scan)
    | Pipeline(imageModel: Model, videoModel: Model, image: Parameters, video: Parameters, now: int, tag: nat, scan: Scan)
    | Move(job: nat, to: JobStates.JobState)
    | OthersJob(row: JobRow)
    | BankCall(call: Call)

  function Rows(w: World): Tables {
    Tables(w.jobs, [])
  }

  /** The user's own image job, finished: only then is there an image to start a video from. */
  predicate HasImage(w: World, user: nat, id: nat) {
    OwnJob(Rows(w), user, id) && w.jobs[id].row.mode.TextToImage? && w.jobs[id].State() == JobStates.Completed
  }

  /** Which parent a new single job may have: the image job for a video made from an image, none otherwise. */
  predicate SourceFits(w: World, user: nat, mode: Mode, source: Option<nat>) {
    if mode.ImageToVideo? then source.Some? && HasImage(w, user, source.value) else source.None?
  }

  /** Only failed jobs are tried again; a video from an image needs its image. */
  predicate CanRetry(w: World, user: nat, id: nat) {
    && OwnJob(Rows(w), user, id) && w.jobs[id].State() == JobStates.Failed
    && var row := w.jobs[id].row;
    (row.mode.ImageToVideo? ==> row.parent.Some? && HasImage(w, user, row.parent.value))
  }

  function NewWork(row: JobRow): Work {
    Work(row, [], false, false)
  }

  ghost function AddSingle(w: World, user: nat, mode: Mode, model: Model, parent: Option<nat>, parameters: Parameters, now: int, tag: nat, scan: Scan): World {
    var id := |w.jobs|;
    var row := JobRow(id, Some(user), mode, model, parent, parameters);
    match Admission(w.bank, row, None, now, tag, scan)
    case Err(_) => w
    case Ok((t, receipt)) =>
      World(t, w.jobs + [NewWork(row.(parameters := WithCredit(parameters, MetadataFor(Standalone, receipt.reservation, id, None, None))))])
  }

  ghost function AddPipeline(w: World, user: nat, imageModel: Model, videoModel: Model, image: Parameters, video: Parameters,
                             now: int, tag: nat, scan: Scan): World {
    var id := |w.jobs|;
    var parent := JobRow(id, Some(user), TextToImage, imageModel, None, image);
    var child := JobRow(id + 1, Some(user), ImageToVideo, videoModel, Some(id), video);
    match Admission(w.bank, parent, Some(child), now, tag, scan)
    case Err(_) => w
    case Ok((t, receipt)) =>
      World(t, w.jobs + [NewWork(WithPair(parent, PipelineParent, receipt.reservation, id, id + 1)),
                         NewWork(WithPair(child, PipelineChild, receipt.reservation, id, id + 1)).(blocked := true)])
  }

  /** A call of some other part of the program; keys of generation reservations are admission's alone. */
  ghost predicate NotAdmission(c: Call) {
    Allowed(c) && (c.CallReserve? ==> !c.key.GenerationReserve?)
  }

  ghost function Next(w: World, user: nat, h: Happening): World {
    match h
    case Single(mode, model, source, parameters, now, tag, scan) =>
      if SourceFits(w, user, mode, source) then AddSingle(w, user, mode, model, source, parameters, now, tag, scan) else w
    case Again(id, now, tag, scan) =>
      if CanRetry(w, user, id) then
        var row := w.jobs[id].row;
        AddSingle(w, user, row.mode, row.model, row.parent, StripCredit(row.parameters), now, tag, scan)
      else w
    case Pipeline(imageModel, videoModel, image, video, now, tag, scan) =>
      AddPipeline(w, user, imageModel, videoModel, image, video, now, tag, scan)
    case Move(id, to) =>
      if id < |w.jobs| && JobStates.CanTransition(w.jobs[id].State(), to)
      then w.(jobs := w.jobs[id := w.jobs[id].(history := w.jobs[id].history + [to])]) else w
    case OthersJob(row) => if row.owner != Some(user) then w.(jobs := w.jobs + [NewWork(row)]) else w
    case BankCall(c) => if NotAdmission(c) then w.(bank := Step(w.bank, c)) else w
  }

  ghost function Story(account: User, user: nat, hs: seq<Happening>): World {
    if hs == [] then World(SignedUp(account), [])
    else Next(Story(account, user, hs[..|hs| - 1]), user, hs[|hs| - 1])
  }

  // ---------------------------------------------------------------- what every history keeps

  /** The metadata of one job names the reservation made for it, or for the pipeline it belongs to. */
  ghost predicate Fits(w: World, user: nat, id: nat)
    requires id < |w.jobs|
  {
    var row := w.jobs[id].row;
    && CreditOf(Rows(w), id).Some?
    && var m := CreditOf(Rows(w), id).value;
    && m.reservation < |w.bank.reservations| && w.bank.reservations[m.reservation].key == GenerationReserve(m.top)
    && (row.parent.Some? ==> row.mode.ImageToVideo?)
    && (row.parent.Some? ==> OwnJob(Rows(w), user, row.parent.value) && w.jobs[row.parent.value].row.mode.TextToImage?)
    && (m.role.Standalone? ==> m.top == id && (row.parent.Some? ==> w.jobs[row.parent.value].State() == JobStates.Completed))
    && (m.role.PipelineParent? ==> m.top == id && row.parent.None?)
    && (m.role.PipelineChild? ==>
          && row.parent == Some(m.top) && m.child == Some(id)
          && CreditOf(Rows(w), m.top).Some?
          && CreditOf(Rows(w), m.top).value == MetadataFor(PipelineParent, m.reservation, m.top, Some(m.top), Some(id)))
  }

  ghost predicate Woven(w: World, user: nat) {
    && Inv(w.bank)
    && (forall r | 0 <= r < |w.bank.reservations| :: w.bank.reservations[r].key.GenerationReserve? ==> w.bank.reservations[r].key.job < |w.jobs|)
    && (forall id: nat | OwnJob(Rows(w), user, id) :: Fits(w, user, id))
  }

  /** Rows and keys stay; a completed job stays completed, a closed reservation closed; new jobs are pending. */
  ghost predicate Later(w: World, v: World) {
    && |w.jobs| <= |v.jobs| && |w.bank.reservations| <= |v.bank.reservations|
    && (forall id | 0 <= id < |w.jobs| ::
          && v.jobs[id].row == w.jobs[id].row
          && (w.jobs[id].State() == JobStates.Completed ==> v.jobs[id].State() == JobStates.Completed))
    && (forall r | 0 <= r < |w.bank.reservations| ::
          && v.bank.reservations[r].key == w.bank.reservations[r].key
          && (v.bank.reservations[r].Held() ==> w.bank.reservations[r].Held()))
    && (forall id | |w.jobs| <= id < |v.jobs| :: v.jobs[id].State() == JobStates.Pending)
  }

  lemma FitsLater(w: World, v: World, user: nat, id: nat)
    requires Later(w, v) && id < |w.jobs| && Fits(w, user, id)
    ensures Fits(v, user, id)
  {
    hide Parse;
    assert v.jobs[id].row == w.jobs[id].row;
    var m := CreditOf(Rows(w), id).value;
    if m.role.PipelineChild? {
      assert v.jobs[m.top].row == w.jobs[m.top].row;
    }
  }

  /** It is enough to look at what is new. */
  lemma WovenLater(w: World, v: World, user: nat)
    requires Woven(w, user) && Later(w, v) && Inv(v.bank)
    requires forall r | |w.bank.reservations| <= r < |v.bank.reservations| ::
               v.bank.reservations[r].key.GenerationReserve? ==> v.bank.reservations[r].key.job < |v.jobs|
    requires forall id: nat | |w.jobs| <= id && OwnJob(Rows(v), user, id) :: Fits(v, user, id)
    ensures Woven(v, user)
  {
    hide Inv, Fits;
    forall id: nat | OwnJob(Rows(v), user, id)
      ensures Fits(v, user, id)
    {
      if id < |w.jobs| {
        assert v.jobs[id].row == w.jobs[id].row;
        assert OwnJob(Rows(w), user, id);
        FitsLater(w, v, user, id);
      }
    }
  }

  /** A new job's admission always makes a new reservation, under the job's key. */
  lemma FreshAdmission(w: World, user: nat, row: JobRow, child: Option<JobRow>, now: int, tag: nat, scan: Scan)
    requires Woven(w, user) && row.id == |w.jobs| && Admission(w.bank, row, child, now, tag, scan).Ok?
    ensures var (t, receipt) := Admission(w.bank, row, child, now, tag, scan).value;
            && Inv(t) && !receipt.replayed && receipt.reservation == |w.bank.reservations|
            && Opens(w.bank.reservations, t.reservations, GenerationReserve(row.id))
  {
    hide Inv, Admission, Fits;
    AdmissionReserves(w.bank, row, child, now, tag, scan);
    var (t, receipt) := Admission(w.bank, row, child, now, tag, scan).value;
    assert t.reservations[receipt.reservation].key == GenerationReserve(row.id);
  }

  lemma OpensLater(rs: seq<Reservation>, ts: seq<Reservation>, key: Key)
    requires Opens(rs, ts, key)
    ensures forall r | 0 <= r < |rs| :: ts[r] == rs[r]
  {
    forall r | 0 <= r < |rs|
      ensures ts[r] == rs[r]
    {
      assert ts[..|rs|][r] == rs[r];
    }
  }

  lemma SingleKeeps(w: World, user: nat, mode: Mode, model: Model, parent: Option<nat>, parameters: Parameters, now: int, tag: nat, scan: Scan)
    requires Woven(w, user) && (parent.Some? ==> mode.ImageToVideo? && HasImage(w, user, parent.value))
    ensures Woven(AddSingle(w, user, mode, model, parent, parameters, now, tag, scan), user)
    ensures Later(w, AddSingle(w, user, mode, model, parent, parameters, now, tag, scan))
  {
    hide Inv, Admission, Parse, WithCredit;
    var id := |w.jobs|;
    var row := JobRow(id, Some(user), mode, model, parent, parameters);
    var v := AddSingle(w, user, mode, model, parent, parameters, now, tag, scan);
    if Admission(w.bank, row, None, now, tag, scan).Ok? {
      FreshAdmission(w, user, row, None, now, tag, scan);
      OpensLater(w.bank.reservations, v.bank.reservations, GenerationReserve(id));
      MetadataRoundTrip(parameters, Standalone, |w.bank.reservations|, id, None, None);
      hide Opens;
      assert CreditOf(Rows(v), id) == Some(MetadataFor(Standalone, |w.bank.reservations|, id, None, None));
      WovenLater(w, v, user);
    }
  }

  lemma PipelineKeeps(w: World, user: nat, imageModel: Model, videoModel: Model, image: Parameters, video: Parameters, now: int, tag: nat, scan: Scan)
    requires Woven(w, user)
    ensures Woven(AddPipeline(w, user, imageModel, videoModel, image, video, now, tag, scan), user)
    ensures Later(w, AddPipeline(w, user, imageModel, videoModel, image, video, now, tag, scan))
  {
    hide Inv, Admission, Parse, WithCredit;
    var id := |w.jobs|;
    var parent := JobRow(id, Some(user), TextToImage, imageModel, None, image);
    var child := JobRow(id + 1, Some(user), ImageToVideo, videoModel, Some(id), video);
    var v := AddPipeline(w, user, imageModel, videoModel, image, video, now, tag, scan);
    if Admission(w.bank, parent, Some(child), now, tag, scan).Ok? {
      FreshAdmission(w, user, parent, Some(child), now, tag, scan);
      OpensLater(w.bank.reservations, v.bank.reservations, GenerationReserve(id));
      var rid := |w.bank.reservations|;
      MetadataRoundTrip(image, PipelineParent, rid, id, Some(id), Some(id + 1));
      MetadataRoundTrip(video, PipelineChild, rid, id, Some(id), Some(id + 1));
      assert CreditOf(Rows(v), id) == Some(MetadataFor(PipelineParent, rid, id, Some(id), Some(id + 1)));
      assert CreditOf(Rows(v), id + 1) == Some(MetadataFor(PipelineChild, rid, id, Some(id), Some(id + 1)));
      hide CreditOf;
      assert Fits(v, user, id) && Fits(v, user, id + 1);
      WovenLater(w, v, user);
    }
  }

  lemma MoveKeeps(w: World, user: nat, id: nat, to: JobStates.JobState)
    requires Woven(w, user) && id < |w.jobs| && JobStates.CanTransition(w.jobs[id].State(), to)
    ensures Woven(w.(jobs := w.jobs[id := w.jobs[id].(history := w.jobs[id].history + [to])]), user)
    ensures Later(w, w.(jobs := w.jobs[id := w.jobs[id].(history := w.jobs[id].history + [to])]))
  {
    hide Inv;
    WovenLater(w, w.(jobs := w.jobs[id := w.jobs[id].(history := w.jobs[id].history + [to])]), user);
  }

  lemma BankKeeps(w: World, user: nat, c: Call)
    requires Woven(w, user) && NotAdmission(c)
    ensures Woven(w.(bank := Step(w.bank, c)), user)
    ensures Later(w, w.(bank := Step(w.bank, c)))
  {
    hide Inv, Step, Fits;
    var v := w.(bank := Step(w.bank, c));
    StepKeeps(w.bank, c);
    StepMoves(w.bank, c);
    var rs, ts := w.bank.reservations, v.bank.reservations;
    if c.CallReserve? && Opens(rs, ts, c.key) {
      OpensLater(rs, ts, c.key);
    }
    WovenLater(w, v, user);
  }

  lemma NextKeeps(w: World, user: nat, h: Happening)
    requires Woven(w, user)
    ensures Woven(Next(w, user, h), user) && Later(w, Next(w, user, h))
  {
    hide Inv, Step, AddSingle, AddPipeline, NotAdmission;
    match h
    case Single(mode, model, source, parameters, now, tag, scan) =>
      if SourceFits(w, user, mode, source) { SingleKeeps(w, user, mode, model, source, parameters, now, tag, scan); }
    case Again(id, now, tag, scan) =>
      if CanRetry(w, user, id) {
        var row := w.jobs[id].row;
        assert Fits(w, user, id);
        SingleKeeps(w, user, row.mode, row.model, row.parent, StripCredit(row.parameters), now, tag, scan);
      }
    case Pipeline(imageModel, videoModel, image, video, now, tag, scan) =>
      PipelineKeeps(w, user, imageModel, videoModel, image, video, now, tag, scan);
    case Move(id, to) =>
      if id < |w.jobs| && JobStates.CanTransition(w.jobs[id].State(), to) { MoveKeeps(w, user, id, to); }
    case OthersJob(row) =>
      if row.owner != Some(user) { WovenLater(w, w.(jobs := w.jobs + [NewWork(row)]), user); }
    case BankCall(c) =>
      if NotAdmission(c) { BankKeeps(w, user, c); }
  }

  lemma {:induction false} StoryWoven(account: User, user: nat, hs: seq<Happening>)
    ensures Woven(Story(account, user, hs), user)
  {
    hide Inv, Next, Fits;
    if hs == [] {
      SignedUpInv(account);
    } else {
      StoryWoven(account, user, hs[..|hs| - 1]);
      NextKeeps(Story(account, user, hs[..|hs| - 1]), user, hs[|hs| - 1]);
    }
  }

  // ---------------------------------------------------------------- what the sweep may rely on

  lemma FitsLinked(w: World, events: seq<OutboxEvent>, user: nat, id: nat)
    requires Woven(w, user) && OwnJob(Rows(w), user, id)
    ensures LinkedJob(Tables(w.jobs, events), user, id)
  {
    hide Inv, Parse;
    assert Fits(w, user, id);
    var t := Tables(w.jobs, events);
    assert CreditOf(t, id) == CreditOf(Rows(w), id);
    var m := CreditOf(t, id).value;
    if m.role.PipelineChild? {
      assert CreditOf(t, m.top) == CreditOf(Rows(w), m.top);
    }
  }

  lemma SharedIsPaired(w: World, events: seq<OutboxEvent>, user: nat, i: nat, j: nat)
    requires Woven(w, user) && OwnJob(Rows(w), user, i) && OwnJob(Rows(w), user, j) && i != j
    requires SameReservationOf(Tables(w.jobs, events), i, j)
    ensures ChildOfParent(Tables(w.jobs, events), i, j) || ChildOfParent(Tables(w.jobs, events), j, i)
  {
    hide Inv;
    assert Fits(w, user, i) && Fits(w, user, j);
    var t := Tables(w.jobs, events);
    KnownRole(t, i);
    KnownRole(t, j);
    hide Parse;
    assert CreditOf(t, i) == CreditOf(Rows(w), i) && CreditOf(t, j) == CreditOf(Rows(w), j);
    assert CreditOf(t, i).value.top == CreditOf(t, j).value.top;
  }

  /**
   * After every history the user's jobs hang together as the sweep assumes:
   * reservations are shared only by the two jobs of one pipeline, standalone
   * jobs have completed parents, and no parent has a parent.
   */
  lemma CreatedJobsLinked(account: User, user: nat, hs: seq<Happening>, events: seq<OutboxEvent>)
    ensures var t := Tables(Story(account, user, hs).jobs, events);
            Linked(t, user) && DepthOne(t, user) && !WaitingChain(t, user)
  {
    hide Inv, Story, Fits, CreditOf;
    var w := Story(account, user, hs);
    var t := Tables(w.jobs, events);
    StoryWoven(account, user, hs);
    forall id: nat | OwnJob(t, user, id)
      ensures LinkedJob(t, user, id)
    {
      FitsLinked(w, events, user, id);
    }
    forall i: nat, j: nat | OwnJob(t, user, i) && OwnJob(t, user, j) && i != j && SameReservationOf(t, i, j)
      ensures ChildOfParent(t, i, j) || ChildOfParent(t, j, i)
    {
      SharedIsPaired(w, events, user, i, j);
    }
    forall id: nat | id < |t.jobs| && t.jobs[id].row.owner == Some(user) && t.jobs[id].row.parent.Some?
                     && t.jobs[id].row.parent.value < |t.jobs|
      ensures t.jobs[t.jobs[id].row.parent.value].row.parent.None?
    {
      ParentHasNone(w, user, id);
    }
    DepthOneNeverChains(t, user);
  }

  lemma ParentHasNone(w: World, user: nat, id: nat)
    requires Woven(w, user) && OwnJob(Rows(w), user, id) && w.jobs[id].row.parent.Some?
    ensures OwnJob(Rows(w), user, w.jobs[id].row.parent.value)
    ensures w.jobs[w.jobs[id].row.parent.value].row.parent.None?
  {
    hide Inv, CreditOf;
    assert Fits(w, user, id);
    assert Fits(w, user, w.jobs[id].row.parent.value);
  }

  /**
   * A suspension at the end of any history: no child is cancelled before its
   * parent has finished, and no cancelled job's reservation is held afterwards
   * exactly when every earlier failure of a parent had closed its reservation.
   */
  lemma SuspensionAfterAnyHistory(account: User, user: nat, hs: seq<Happening>, events: seq<OutboxEvent>, g: Gallery, now: int, scan: Scan)
    requires Swept(Story(account, user, hs).bank, Tables(Story(account, user, hs).jobs, events), user, g, now, scan).Ok?
    ensures var w := Story(account, user, hs);
            var t := Tables(w.jobs, events);
            && ParentsFinished(t, user)
            && (NoneHeld(Swept(w.bank, t, user, g, now, scan).value, t, user) <==> FailuresPaid(w.bank, t, user))
  {
    hide Inv, Story, Fits, CreditOf, Swept, Linked, WaitingChain, DepthOne, SomeOrphan, ParentsFinished, NoneHeld, FailuresPaid;
    var w := Story(account, user, hs);
    var t := Tables(w.jobs, events);
    StoryWoven(account, user, hs);
    CreatedJobsLinked(account, user, hs, events);
    SweptIsEnded(w.bank, t, user, g, now, scan);
    ChildrenFollowParents(t, user);
    NothingLeftHeld(w.bank, t, user, g, now, scan);
  }

  // ---------------------------------------------------------------- failures that pay

  /** A pipeline's parent fails or is cancelled only with its reservation closed, as the handlers and the sweep do it. */
  ghost predicate Pays(w: World, user: nat, h: Happening) {
    h.Move? && h.to in {JobStates.Failed, JobStates.Cancelled} && OwnJob(Rows(w), user, h.job) ==>
      CreditOf(Rows(w), h.job).Some? && CreditOf(Rows(w), h.job).value.role.PipelineParent? ==>
        ClosedIn(w.bank, CreditOf(Rows(w), h.job).value.reservation)
  }

  ghost predicate EveryFailurePays(account: User, user: nat, hs: seq<Happening>) {
    hs == [] || (EveryFailurePays(account, user, hs[..|hs| - 1]) && Pays(Story(account, user, hs[..|hs| - 1]), user, hs[|hs| - 1]))
  }

  ghost predicate Paid(w: World, user: nat) {
    forall id: nat | OwnJob(Rows(w), user, id) && FailedJob(Rows(w), id)
                     && CreditOf(Rows(w), id).Some? && CreditOf(Rows(w), id).value.role.PipelineParent? ::
      ClosedIn(w.bank, CreditOf(Rows(w), id).value.reservation)
  }

  lemma PaidNext(w: World, user: nat, h: Happening)
    requires Woven(w, user) && Paid(w, user) && Pays(w, user, h)
    ensures Paid(Next(w, user, h), user)
  {
    hide Woven, Next, Later, FailedJob, CreditOf, ClosedIn;
    NextKeeps(w, user, h);
    var v := Next(w, user, h);
    forall id: nat | OwnJob(Rows(v), user, id) && FailedJob(Rows(v), id)
                     && CreditOf(Rows(v), id).Some? && CreditOf(Rows(v), id).value.role.PipelineParent?
      ensures ClosedIn(v.bank, CreditOf(Rows(v), id).value.reservation)
    {
      LaterJob(w, v, id);
      if !FailedJob(Rows(w), id) {
        NewlyFailed(w, user, h, id);
      }
      LaterClosed(w, v, CreditOf(Rows(w), id).value.reservation);
    }
  }

  lemma LaterJob(w: World, v: World, id: nat)
    requires Later(w, v) && FailedJob(Rows(v), id)
    ensures id < |w.jobs| && v.jobs[id].row == w.jobs[id].row && CreditOf(Rows(v), id) == CreditOf(Rows(w), id)
  {
    hide Parse;
    assert v.jobs[id].State() != JobStates.Pending;
    assert v.jobs[id].row == w.jobs[id].row;
  }

  lemma LaterClosed(w: World, v: World, rid: nat)
    requires Later(w, v)
    ensures ClosedIn(w.bank, rid) ==> ClosedIn(v.bank, rid)
  {
  }

  /** Only its own move makes an existing job fail. */
  lemma NewlyFailed(w: World, user: nat, h: Happening, id: nat)
    requires id < |w.jobs| && id < |Next(w, user, h).jobs| && FailedJob(Rows(Next(w, user, h)), id) && !FailedJob(Rows(w), id)
    ensures h.Move? && h.job == id && h.to in {JobStates.Failed, JobStates.Cancelled}
  {
    hide Admission;
  }

  lemma {:induction false} StoryPaid(account: User, user: nat, hs: seq<Happening>)
    requires EveryFailurePays(account, user, hs)
    ensures Paid(Story(account, user, hs), user)
  {
    hide Woven, Next, Pays;
    if hs != [] {
      StoryPaid(account, user, hs[..|hs| - 1]);
      StoryWoven(account, user, hs[..|hs| - 1]);
      PaidNext(Story(account, user, hs[..|hs| - 1]), user, hs[|hs| - 1]);
    }
  }

  lemma PaidMeansFailuresPaid(w: World, events: seq<OutboxEvent>, user: nat)
    requires Woven(w, user) && Paid(w, user)
    ensures FailuresPaid(w.bank, Tables(w.jobs, events), user)
  {
    var t := Tables(w.jobs, events);
    forall id: nat | Doomed(t, user, id) && CreditOf(t, id).Some? && UnderFailed(t, id)
      ensures ClosedIn(w.bank, CreditOf(t, id).value.reservation)
    {
      DoomedExist(t, user, id);
      assert OwnJob(Rows(w), user, id);
      FitsLinked(w, events, user, id);
      KnownRole(t, id);
      hide Inv, Woven, Doomed, CreditOf;
      var p := t.jobs[id].row.parent.value;
      SameCredit(w, events, p);
      assert OwnJob(Rows(w), user, p) && FailedJob(Rows(w), p);
    }
  }

  lemma SameCredit(w: World, events: seq<OutboxEvent>, id: nat)
    requires id < |w.jobs|
    ensures CreditOf(Tables(w.jobs, events), id) == CreditOf(Rows(w), id)
  {
  }

  /** So where every failure of a parent pays, a suspension leaves no cancelled job's reservation held. */
  lemma PaidSuspension(account: User, user: nat, hs: seq<Happening>, events: seq<OutboxEvent>, g: Gallery, now: int, scan: Scan)
    requires EveryFailurePays(account, user, hs)
    requires Swept(Story(account, user, hs).bank, Tables(Story(account, user, hs).jobs, events), user, g, now, scan).Ok?
    ensures var w := Story(account, user, hs);
            var t := Tables(w.jobs, events);
            NoneHeld(Swept(w.bank, t, user, g, now, scan).value, t, user)
  {
    hide Woven, Story, Swept, EveryFailurePays, Paid, NoneHeld, FailuresPaid, ParentsFinished;
    StoryWoven(account, user, hs);
    StoryPaid(account, user, hs);
    PaidMeansFailuresPaid(Story(account, user, hs), events, user);
    SuspensionAfterAnyHistory(account, user, hs, events, g, now, scan);
  }

  // ---------------------------------------------------------------- a hold that stays held

  const OWNER: nat := 0
  const ONE_IMAGE: Parameters := map[IMAGES := Number(1)]
  const FOUR_SECONDS: Parameters := map[SECONDS := Number(4)]

  const IMAGE_ROW: JobRow := JobRow(0, Some(OWNER), TextToImage, ImagenFast, None, ONE_IMAGE)
  const VIDEO_ROW: JobRow := JobRow(1, Some(OWNER), ImageToVideo, VeoFast, Some(0), FOUR_SECONDS)

  /** A pipeline is admitted; its parent is queued, its handler raises, and the runner marks it failed without a credit call. */
  function HandlerRaises(scan: Scan): seq<Happening> {
    [Pipeline(ImagenFast, VeoFast, ONE_IMAGE, FOUR_SECONDS, 0, 0, scan), Move(0, JobStates.Queued), Move(0, JobStates.Failed)]
  }

  const PAIR: seq<Estimate> := [Estimate(ImagenFastImage, 1), Estimate(VeoFastMs, 4000)]

  lemma PairEstimates()
    ensures EstimatesOf(IMAGE_ROW, Some(VIDEO_ROW)) == Ok(PAIR)
    ensures ValidEstimates(PAIR) && Sort(PAIR, EstimateLeq) == PAIR
  {
    SortedPair(PAIR[0], PAIR[1], EstimateLeq);
    hide Sort;
    assert EstimateOf(IMAGE_ROW) == Ok(PAIR[0]) && EstimateOf(VIDEO_ROW) == Ok(PAIR[1]);
  }

  lemma PairPrice()
    ensures Quotes(PAIR).Ok? && SumOf(Quotes(PAIR).value, QuotedOf) == 290_000_000
  {
    hide Quotes, SumOf;
    var i, j := Item(ImagenFastImage, 1, 50_000_000), Item(VeoFastMs, 4000, 240_000_000);
    NothingQuoted();
    QuotesNext([], PAIR[0], [], i);
    assert [] + [PAIR[0]] == [PAIR[0]] && [] + [i] == [i];
    QuotesNext([PAIR[0]], PAIR[1], [i], j);
    assert [PAIR[0]] + [PAIR[1]] == PAIR;
    SumOfAppend([], i, QuotedOf);
    SumOfAppend([i], j, QuotedOf);
  }

  lemma NothingQuoted()
    ensures Quotes([]) == Ok([]) && SumOf<Item>([], QuotedOf) == 0
  {
  }

  lemma QuotesNext(es: seq<Estimate>, e: Estimate, items: seq<Item>, i: Item)
    requires Quotes(es) == Ok(items) && QuoteUsage(e.meter, e.maximumUnits) == Ok(i.quoted)
    requires i.meter == e.meter && i.maximumUnits == e.maximumUnits
    ensures Quotes(es + [e]) == Ok(items + [i])
  {
    assert (es + [e])[..|es|] == es;
  }

  lemma PairAdmitted(scan: Scan)
    requires Faithful(scan)
    ensures Admission(SignedUp(NEWCOMER), IMAGE_ROW, Some(VIDEO_ROW), 0, 0, scan).Ok?
  {
    hide Reserve, EstimatesOf, ValidEstimates, Sort, Quotes, SumOf, Faithful;
    PairEstimates();
    PairPrice();
    FirstReserve(NEWCOMER, GenerationReserve(0), PAIR, 0, 0, scan);
  }

  lemma StoryUnrolled(scan: Scan)
    ensures Story(NEWCOMER, OWNER, HandlerRaises(scan))
            == Next(Next(Next(World(SignedUp(NEWCOMER), []), OWNER, HandlerRaises(scan)[0]), OWNER, Move(0, JobStates.Queued)),
                    OWNER, Move(0, JobStates.Failed))
  {
    hide Next;
    var hs := HandlerRaises(scan);
    assert hs[..2][..1] == hs[..1] && hs[..1][..0] == [];
    assert Story(NEWCOMER, OWNER, hs[..1]) == Next(World(SignedUp(NEWCOMER), []), OWNER, hs[0]);
    assert Story(NEWCOMER, OWNER, hs[..2]) == Next(Story(NEWCOMER, OWNER, hs[..1]), OWNER, hs[1]);
  }

  /** The world after the three happenings. */
  lemma RunnerFailed(scan: Scan)
    requires Faithful(scan)
    ensures var w := Story(NEWCOMER, OWNER, HandlerRaises(scan));
            && Inv(w.bank) && |w.bank.reservations| == 1 && w.bank.reservations[0].Held()
            && w.jobs == [Work(WithPair(IMAGE_ROW, PipelineParent, 0, 0, 1), [JobStates.Queued, JobStates.Failed], false, false),
                          Work(WithPair(VIDEO_ROW, PipelineChild, 0, 0, 1), [], true, false)]
  {
    hide Inv, Admission, Woven, WithPair, Story, Faithful;
    StoryUnrolled(scan);
    var w0 := World(SignedUp(NEWCOMER), []);
    var w1 := Next(w0, OWNER, HandlerRaises(scan)[0]);
    PairAdmitted(scan);
    NothingWoven();
    FreshAdmission(w0, OWNER, IMAGE_ROW, Some(VIDEO_ROW), 0, 0, scan);
    var parent, child := WithPair(IMAGE_ROW, PipelineParent, 0, 0, 1), WithPair(VIDEO_ROW, PipelineChild, 0, 0, 1);
    assert w1.jobs == [NewWork(parent), NewWork(child).(blocked := true)];
    TwoMoves(w1, parent, NewWork(child).(blocked := true));
  }

  lemma NothingWoven()
    ensures Woven(World(SignedUp(NEWCOMER), []), OWNER)
  {
    SignedUpInv(NEWCOMER);
    hide Inv;
  }

  lemma TwoMoves(w: World, row: JobRow, other: Work)
    requires w.jobs == [NewWork(row), other]
    ensures Next(Next(w, OWNER, Move(0, JobStates.Queued)), OWNER, Move(0, JobStates.Failed))
            == w.(jobs := [NewWork(row).(history := [JobStates.Queued, JobStates.Failed]), other])
  {
    assert NewWork(row).history + [JobStates.Queued] == [JobStates.Queued];
    assert [JobStates.Queued] + [JobStates.Failed] == [JobStates.Queued, JobStates.Failed];
    assert JobStates.CanTransition(NewWork(row).State(), JobStates.Queued);
    assert Next(w, OWNER, Move(0, JobStates.Queued)).jobs == [NewWork(row).(history := [JobStates.Queued]), other];
  }

  /**
   * When the runner itself marks a pipeline's parent failed, no credit call is
   * made. A suspension then cancels the pending child, leaves the shared hold to
   * the failed parent, and it stays held with both jobs finished.
   */
  lemma RunnerFailureStrandsHold(scan: Scan, g: Gallery, now: int)
    requires Faithful(scan)
    ensures var w := Story(NEWCOMER, OWNER, HandlerRaises(scan));
            var t := Tables(w.jobs, [OutboxEvent(0, Published, Some(0), false)]);
            && Doomed(t, OWNER, 1) && UnderFailed(t, 1)
            && CreditOf(t, 1).Some? && CreditOf(t, 1).value.reservation == 0 < |w.bank.reservations|
            && Swept(w.bank, t, OWNER, g, now, scan) == Ok(w.bank)
            && w.bank.reservations[0].Held()
            && JobStates.IsTerminal(t.jobs[0].State()) && JobStates.IsTerminal(SweptJob(t, OWNER, 1).State())
            && !FailuresPaid(w.bank, t, OWNER)
  {
    hide Inv, Story, Faithful, Swept, Parse, Doomed, PublishedJob;
    RunnerFailed(scan);
    var w := Story(NEWCOMER, OWNER, HandlerRaises(scan));
    MetadataRoundTrip(FOUR_SECONDS, PipelineChild, 0, 0, Some(0), Some(1));
    StrandedTables(w.bank, Tables(w.jobs, [OutboxEvent(0, Published, Some(0), false)]), g, now, scan);
  }

  lemma StrandedTables(s: State, t: Tables, g: Gallery, now: int, scan: Scan)
    requires t == Tables([Work(WithPair(IMAGE_ROW, PipelineParent, 0, 0, 1), [JobStates.Queued, JobStates.Failed], false, false),
                          Work(WithPair(VIDEO_ROW, PipelineChild, 0, 0, 1), [], true, false)],
                         [OutboxEvent(0, Published, Some(0), false)])
    ensures Doomed(t, OWNER, 1) && UnderFailed(t, 1) && !Ends(t, OWNER, 0) && !Ends(t, OWNER, 1)
    ensures Swept(s, t, OWNER, g, now, scan) == Ok(s)
  {
    assert !PublishedJob(t, 1);
    hide Terminalize;
    EndNone(s, t, OWNER, g, now, scan);
    EndNext(s, t, OWNER, g, now, scan, 0);
    EndNext(s, t, OWNER, g, now, scan, 1);
    assert PendingCount(t, OWNER, 0) == 0 && PendingCount(t, OWNER, 1) <= 1 && PendingCount(t, OWNER, 2) <= 2;
    assert EventCount(t, OWNER, 0) == 0 && EventCount(t, OWNER, 1) <= 1;
  }
}
