/**
 * Suspension of an account: jobs that have not been handed out yet are
 * cancelled, and each reservation behind them gets at most one terminal call.
 */
module SuspensionSweep {
  import opened Prelude
  import opened CreditRecords
  import opened CreditAccounting
  import opened CreditInvariant
  import opened TerminalCalls
  import opened CreditHistory
  import opened CreditStore
  import opened PromptProtocol
  import opened GenerationUsage
  import opened GenerationCredit
  import JobBills
  import JobStates

  const MAX_PENDING_SCAN: nat := 500

  datatype SweepError = Busy | Unavailable | CreditFailed(cause: GenerationError)

  /** A row of the job table; its id is its position. */
  datatype Work = Work(row: JobRow, history: seq<JobStates.JobState>, blocked: bool, suspended: bool) {
    /** The last state of the history. */
    function State(): JobStates.JobState {
      if history == [] then JobStates.Pending else history[|history| - 1]
    }
  }

  datatype EventStatus = Waiting | Published | Rejected
  datatype OutboxEvent = OutboxEvent(job: nat, status: EventStatus, publishedAt: Option<int>, suspended: bool) {
    predicate WasPublished() {
      status.Published? || publishedAt.Some?
    }
  }

  datatype Tables = Tables(jobs: seq<Work>, events: seq<OutboxEvent>)

  // ---------------------------------------------------------------- who is cancelled

  predicate PendingOf(t: Tables, user: nat, id: nat) {
    id < |t.jobs| && t.jobs[id].row.owner == Some(user) && t.jobs[id].State() == JobStates.Pending
  }

  predicate PublishedJob(t: Tables, id: nat) {
    exists e | e in t.events :: e.job == id && e.WasPublished()
  }

  /** Pending and not handed out. */
  predicate Undispatched(t: Tables, user: nat, id: nat) {
    PendingOf(t, user, id) && !PublishedJob(t, id)
  }

  /** Its parent does not exist or belongs to someone else. */
  predicate Orphaned(t: Tables, user: nat, id: nat)
    requires id < |t.jobs|
  {
    var parent := t.jobs[id].row.parent;
    parent.Some? && (parent.value >= |t.jobs| || t.jobs[parent.value].row.owner != Some(user))
  }

  /** The parent was handed out and has not finished: the child must wait for it. */
  predicate HeldBack(t: Tables, user: nat, id: nat)
    requires id < |t.jobs|
  {
    var parent := t.jobs[id].row.parent;
    && parent.Some? && parent.value < |t.jobs|
    && !Undispatched(t, user, parent.value) && !JobStates.IsTerminal(t.jobs[parent.value].State())
  }

  predicate Doomed(t: Tables, user: nat, id: nat) {
    Undispatched(t, user, id) && !HeldBack(t, user, id)
  }

  /** The parent answers for the shared reservation. */
  predicate ParentAnswers(t: Tables, user: nat, id: nat)
    requires id < |t.jobs|
  {
    var parent := t.jobs[id].row.parent;
    && parent.Some? && parent.value < |t.jobs|
    && (Doomed(t, user, parent.value) || t.jobs[parent.value].State() in {JobStates.Failed, JobStates.Cancelled})
  }

  /** Jobs on which the sweep makes the terminal call. */
  predicate Ends(t: Tables, user: nat, id: nat) {
    Doomed(t, user, id) && !ParentAnswers(t, user, id)
  }

  function CancelledWork(w: Work): Work {
    w.(history := w.history + [JobStates.Cancelled], blocked := false, suspended := true)
  }

  function SweptJob(t: Tables, user: nat, id: nat): Work
    requires id < |t.jobs|
  {
    if Doomed(t, user, id) then CancelledWork(t.jobs[id]) else t.jobs[id]
  }

  function SweptEvent(t: Tables, user: nat, e: OutboxEvent): OutboxEvent {
    if Doomed(t, user, e.job) then e.(status := Rejected, suspended := true) else e
  }

  function SweptJobs(t: Tables, user: nat, n: nat): (r: seq<Work>)
    requires n <= |t.jobs|
    ensures |r| == n && forall i | 0 <= i < n :: r[i] == SweptJob(t, user, i)
  {
    if n == 0 then [] else SweptJobs(t, user, n - 1) + [SweptJob(t, user, n - 1)]
  }

  function SweptEvents(t: Tables, user: nat, n: nat): (r: seq<OutboxEvent>)
    requires n <= |t.events|
    ensures |r| == n && forall i | 0 <= i < n :: r[i] == SweptEvent(t, user, t.events[i])
  {
    if n == 0 then [] else SweptEvents(t, user, n - 1) + [SweptEvent(t, user, t.events[n - 1])]
  }

  /** The job was pending before and is cancelled after. */
  predicate WasCancelled(before: Tables, after: Tables, id: nat) {
    && id < |before.jobs| == |after.jobs|
    && before.jobs[id].State() == JobStates.Pending && after.jobs[id].State() == JobStates.Cancelled
  }

  /**
   * The outbox follows the jobs: the events of a cancelled job had not been
   * handed out and are withdrawn, all others stay as they were.
   */
  ghost predicate OutboxFollows(before: Tables, after: Tables) {
    && |after.jobs| == |before.jobs| && |after.events| == |before.events|
    && (forall i | 0 <= i < |before.events| ::
          var e, f := before.events[i], after.events[i];
          if WasCancelled(before, after, e.job) then !e.WasPublished() && f == OutboxEvent(e.job, Rejected, e.publishedAt, true)
          else f == e)
    && (forall i | 0 <= i < |before.events| && before.events[i].status.Waiting? && before.events[i].job < |before.jobs| ::
          after.events[i] != before.events[i] <==> after.jobs[before.events[i].job] != before.jobs[before.events[i].job])
  }

  /** Ids of the jobs that were cancelled. */
  function CancelledIds(before: Tables, after: Tables): set<nat> {
    set id: nat | id < |before.jobs| && WasCancelled(before, after, id)
  }

  lemma DoomedIsCancelled(t: Tables, user: nat, id: nat)
    ensures var after := Tables(SweptJobs(t, user, |t.jobs|), SweptEvents(t, user, |t.events|));
            && (Doomed(t, user, id) <==> WasCancelled(t, after, id))
            && (id < |t.jobs| ==> (Doomed(t, user, id) <==> after.jobs[id] != t.jobs[id]))
  {
    hide HeldBack, PublishedJob;
  }

  /** After a sweep the outbox follows the jobs, and as many jobs were cancelled as it counts. */
  lemma OutboxFollowsJobs(t: Tables, user: nat)
    ensures var after := Tables(SweptJobs(t, user, |t.jobs|), SweptEvents(t, user, |t.events|));
            OutboxFollows(t, after) && DoomedCount(t, user, |t.jobs|) == |CancelledIds(t, after)|
  {
    hide Doomed, WasCancelled;
    var after := Tables(SweptJobs(t, user, |t.jobs|), SweptEvents(t, user, |t.events|));
    forall id: nat
      ensures Doomed(t, user, id) <==> WasCancelled(t, after, id)
      ensures id < |t.jobs| ==> (Doomed(t, user, id) <==> after.jobs[id] != t.jobs[id])
      ensures Doomed(t, user, id) ==> id < |t.jobs|
    {
      DoomedIsCancelled(t, user, id);
      if Doomed(t, user, id) {
        DoomedExist(t, user, id);
      }
    }
    forall i | 0 <= i < |t.events| && Doomed(t, user, t.events[i].job)
      ensures !t.events[i].WasPublished()
    {
      DoomedNotOut(t, user, i);
    }
    DoomedCounted(t, user, CancelledIds(t, after), |t.jobs|);
  }

  lemma DoomedNotOut(t: Tables, user: nat, i: nat)
    requires i < |t.events| && Doomed(t, user, t.events[i].job)
    ensures !t.events[i].WasPublished()
  {
    hide HeldBack, PendingOf;
    assert t.events[i] in t.events;
  }

  function PendingCount(t: Tables, user: nat, n: nat): nat
    requires n <= |t.jobs|
  {
    if n == 0 then 0 else PendingCount(t, user, n - 1) + if PendingOf(t, user, n - 1) then 1 else 0
  }

  function EventCount(t: Tables, user: nat, n: nat): nat
    requires n <= |t.events|
  {
    if n == 0 then 0 else EventCount(t, user, n - 1) + if PendingOf(t, user, t.events[n - 1].job) then 1 else 0
  }

  function DoomedCount(t: Tables, user: nat, n: nat): nat
    requires n <= |t.jobs|
  {
    if n == 0 then 0 else DoomedCount(t, user, n - 1) + if Doomed(t, user, n - 1) then 1 else 0
  }

  lemma {:induction false} DoomedCounted(t: Tables, user: nat, chosen: set<nat>, n: nat)
    requires n <= |t.jobs| && forall id: nat :: id in chosen <==> id < n && Doomed(t, user, id)
    ensures |chosen| == DoomedCount(t, user, n)
  {
    hide Doomed;
    if n == 0 {
      assert chosen == {};
    } else if Doomed(t, user, n - 1) {
      DoomedCounted(t, user, chosen - {n - 1}, n - 1);
    } else {
      DoomedCounted(t, user, chosen, n - 1);
    }
  }

  lemma DoomedExist(t: Tables, user: nat, id: nat)
    requires Doomed(t, user, id)
    ensures id < |t.jobs|
  {
  }

  // ---------------------------------------------------------------- the terminal calls

  /** The terminal calls on the first `n` jobs, in id order. */
  function EndAll(s: State, t: Tables, user: nat, g: Gallery, now: int, scan: Scan, n: nat): Result<State, GenerationError>
    requires n <= |t.jobs|
  {
    if n == 0 then Ok(s)
    else
      var before :- EndAll(s, t, user, g, now, scan, n - 1);
      if !Ends(t, user, n - 1) then Ok(before)
      else
        var r :- Terminalize(before, t.jobs[n - 1].row, g, false, Some(CancelledBeforeDelivery), now, scan);
        Ok(r.0)
  }

  predicate SomeOrphan(t: Tables, user: nat) {
    exists id | 0 <= id < |t.jobs| :: Undispatched(t, user, id) && Orphaned(t, user, id)
  }

  predicate TooMany(t: Tables, user: nat) {
    EventCount(t, user, |t.events|) > MAX_PENDING_SCAN || PendingCount(t, user, |t.jobs|) > MAX_PENDING_SCAN
  }

  /** What the sweep does to the bank, or why it does nothing. */
  function Swept(s: State, t: Tables, user: nat, g: Gallery, now: int, scan: Scan): Result<State, SweepError> {
    var small := !TooMany(t, user);
    :- Need(small, Busy);
    :- Need(!SomeOrphan(t, user), Unavailable);
    match EndAll(s, t, user, g, now, scan, |t.jobs|)
    case Ok(u) => Ok(u)
    case Err(error) => Err(CreditFailed(error))
  }

  lemma {:induction false} EndErrorPersists(s: State, t: Tables, user: nat, g: Gallery, now: int, scan: Scan, n: nat, m: nat)
    requires n <= m <= |t.jobs| && EndAll(s, t, user, g, now, scan, n).Err?
    ensures EndAll(s, t, user, g, now, scan, m) == EndAll(s, t, user, g, now, scan, n)
    decreases m
  {
    if n < m {
      EndErrorPersists(s, t, user, g, now, scan, n, m - 1);
    }
  }

  lemma EndNone(s: State, t: Tables, user: nat, g: Gallery, now: int, scan: Scan)
    ensures EndAll(s, t, user, g, now, scan, 0) == Ok(s)
  {
  }

  lemma EndNext(s: State, t: Tables, user: nat, g: Gallery, now: int, scan: Scan, n: nat)
    requires n < |t.jobs| && EndAll(s, t, user, g, now, scan, n).Ok?
    ensures var before := EndAll(s, t, user, g, now, scan, n).value;
            var r := Terminalize(before, t.jobs[n].row, g, false, Some(CancelledBeforeDelivery), now, scan);
            EndAll(s, t, user, g, now, scan, n + 1)
            == if !Ends(t, user, n) then Ok(before) else if r.Ok? then Ok(r.value.0) else Err(r.error)
  {
    hide Terminalize, Ends;
  }

  /** A chosen job's parent is a job of the same user, read after marking as before it unless it was chosen too. */
  lemma DoomedParent(t: Tables, user: nat, id: nat)
    requires id < |t.jobs| && Doomed(t, user, id) && !SomeOrphan(t, user)
    ensures var parent := t.jobs[id].row.parent;
            && (parent.Some? ==> parent.value < |t.jobs|)
            && SweptJob(t, user, id).row == t.jobs[id].row
            && (parent.Some? && !Doomed(t, user, parent.value) ==> SweptJob(t, user, parent.value) == t.jobs[parent.value])
            && (ParentAnswers(t, user, id) <==>
                  parent.Some? && (Doomed(t, user, parent.value)
                                   || SweptJob(t, user, parent.value).State() in {JobStates.Failed, JobStates.Cancelled}))
  {
    assert Undispatched(t, user, id) && !Orphaned(t, user, id);
    hide Undispatched, HeldBack;
  }

  lemma SameRow(t: Tables, user: nat, id: nat)
    requires id < |t.jobs|
    ensures SweptJobs(t, user, |t.jobs|)[id].row == t.jobs[id].row
  {
  }

  /** The bank after all terminal calls, or the error that stopped them. */
  ghost predicate BankEnded(s: State, t: Tables, user: nat, g: Gallery, now: int, scan: Scan, fault: Check<GenerationError>, bank: State) {
    match EndAll(s, t, user, g, now, scan, |t.jobs|)
    case Ok(u) => fault.Pass? && bank == u
    case Err(error) => fault == Fail(error)
  }

  class Workshop {
    var jobs: seq<Work>
    var events: seq<OutboxEvent>

    function Rows(): Tables
      reads this
    {
      Tables(jobs, events)
    }

    constructor (jobs: seq<Work>, events: seq<OutboxEvent>)
      ensures Rows() == Tables(jobs, events)
    {
      this.jobs, this.events := jobs, events;
    }

    /** Ids of pending jobs, how many there are, and which jobs an outbox event has handed out. */
    method ScanPending(user: nat) returns (busy: bool, published: set<nat>)
      ensures busy <==> TooMany(Rows(), user)
      ensures forall id: nat :: id in published ==> PublishedJob(Rows(), id)
      ensures forall id: nat :: PendingOf(Rows(), user, id) && PublishedJob(Rows(), id) ==> id in published
    {
      published := {};
      var handed, waiting := 0, 0;
      for i := 0 to |events|
        invariant handed == EventCount(Rows(), user, i)
        invariant forall id: nat :: id in published ==> PublishedJob(Rows(), id)
        invariant forall k | 0 <= k < i :: PendingOf(Rows(), user, events[k].job) && events[k].WasPublished() ==> events[k].job in published
      {
        var e := events[i];
        if PendingOf(Rows(), user, e.job) {
          handed := handed + 1;
          if e.WasPublished() {
            published := published + {e.job};
          }
        }
      }
      for i := 0 to |jobs|
        invariant waiting == PendingCount(Rows(), user, i)
      {
        if PendingOf(Rows(), user, i) {
          waiting := waiting + 1;
        }
      }
      busy := handed > MAX_PENDING_SCAN || waiting > MAX_PENDING_SCAN;
    }

    /** The jobs to cancel, or None when a job's parent is missing or foreign. */
    method Choose(user: nat, published: set<nat>) returns (chosen: Option<set<nat>>)
      requires forall id: nat :: id in published ==> PublishedJob(Rows(), id)
      requires forall id: nat :: PendingOf(Rows(), user, id) && PublishedJob(Rows(), id) ==> id in published
      ensures chosen.None? <==> SomeOrphan(Rows(), user)
      ensures chosen.Some? ==> forall id: nat :: id in chosen.value <==> Doomed(Rows(), user, id)
    {
      hide PublishedJob;
      var picked: set<nat> := {};
      for i := 0 to |jobs|
        invariant forall k | 0 <= k < i :: !(Undispatched(Rows(), user, k) && Orphaned(Rows(), user, k))
        invariant forall id: nat :: id in picked <==> id < i && Doomed(Rows(), user, id)
      {
        if PendingOf(Rows(), user, i) && i !in published {
          var parent := jobs[i].row.parent;
          if parent.Some? {
            var p := parent.value;
            if p >= |jobs| || jobs[p].row.owner != Some(user) {
              assert Undispatched(Rows(), user, i) && Orphaned(Rows(), user, i);
              return None;
            }
            var undispatched := PendingOf(Rows(), user, p) && p !in published;
            if undispatched || JobStates.IsTerminal(jobs[p].State()) {
              picked := picked + {i};
            }
          } else {
            picked := picked + {i};
          }
        }
      }
      chosen := Some(picked);
    }

    /** Cancel the chosen jobs in place. */
    method MarkCancelled(chosen: set<nat>, ghost t: Tables, user: nat)
      requires Rows() == t && forall id: nat :: id in chosen <==> Doomed(t, user, id)
      modifies this`jobs
      ensures jobs == SweptJobs(t, user, |t.jobs|)
    {
      hide Doomed;
      for i := 0 to |jobs|
        invariant |jobs| == |t.jobs|
        invariant forall k | 0 <= k < i :: jobs[k] == SweptJob(t, user, k)
        invariant forall k | i <= k < |jobs| :: jobs[k] == t.jobs[k]
      {
        if i in chosen {
          jobs := jobs[i := CancelledWork(jobs[i])];
        }
      }
      assert jobs == SweptJobs(t, user, |t.jobs|);
    }

    /** Withdraw the outbox events of the chosen jobs. */
    method RejectEvents(chosen: set<nat>, ghost t: Tables, user: nat)
      requires events == t.events && forall id: nat :: id in chosen <==> Doomed(t, user, id)
      modifies this`events
      ensures events == SweptEvents(t, user, |t.events|)
    {
      hide Doomed;
      for i := 0 to |events|
        invariant |events| == |t.events|
        invariant forall k | 0 <= k < i :: events[k] == SweptEvent(t, user, t.events[k])
        invariant forall k | i <= k < |events| :: events[k] == t.events[k]
      {
        if events[i].job in chosen {
          events := events[i := events[i].(status := Rejected, suspended := true)];
        }
      }
      assert events == SweptEvents(t, user, |t.events|);
    }

    /** A chosen job needs a terminal call of its own unless its parent answers for the reservation. */
    method NeedsCall(chosen: set<nat>, id: nat, ghost t: Tables, user: nat) returns (ends: bool)
      requires jobs == SweptJobs(t, user, |t.jobs|) && !SomeOrphan(t, user) && id < |jobs|
      requires forall k: nat :: k in chosen <==> Doomed(t, user, k)
      ensures ends <==> Ends(t, user, id)
    {
      hide Doomed, SomeOrphan;
      ends := id in chosen;
      if ends {
        DoomedParent(t, user, id);
        var parent := jobs[id].row.parent;
        ends := !(parent.Some? && (parent.value in chosen || jobs[parent.value].State() in {JobStates.Failed, JobStates.Cancelled}));
      }
    }

    method EndOne(store: Store, chosen: set<nat>, id: nat, ghost s: State, ghost t: Tables, user: nat, g: Gallery, now: int, scan: Scan)
      returns (fault: Check<GenerationError>)
      requires jobs == SweptJobs(t, user, |t.jobs|) && !SomeOrphan(t, user) && id < |jobs|
      requires forall k: nat :: k in chosen <==> Doomed(t, user, k)
      requires EndAll(s, t, user, g, now, scan, id) == Ok(store.Rows())
      modifies store
      ensures fault.Pass? ==> EndAll(s, t, user, g, now, scan, id + 1) == Ok(store.Rows())
      ensures fault.Fail? ==> EndAll(s, t, user, g, now, scan, |t.jobs|) == Err(fault.error)
      ensures Inv(old(store.Rows())) ==> Inv(store.Rows())
    {
      hide Inv, Terminalize, Doomed, EndAll, Ends, SomeOrphan;
      EndNext(s, t, user, g, now, scan, id);
      assert jobs[id].row == t.jobs[id].row by { SameRow(t, user, id); }
      var ends := NeedsCall(chosen, id, t, user);
      if ends {
        var r := TerminalizeJob(store, jobs[id].row, g, false, Some(CancelledBeforeDelivery), now, scan);
        if r.Err? {
          EndErrorPersists(s, t, user, g, now, scan, id + 1, |t.jobs|);
          return Fail(r.error);
        }
      }
      fault := Pass;
    }

    /** One terminal call per chosen job whose parent does not answer for it. */
    method EndChosen(store: Store, chosen: set<nat>, ghost t: Tables, user: nat, g: Gallery, now: int, scan: Scan)
      returns (fault: Check<GenerationError>)
      requires jobs == SweptJobs(t, user, |t.jobs|) && !SomeOrphan(t, user)
      requires forall id: nat :: id in chosen <==> Doomed(t, user, id)
      modifies store
      ensures BankEnded(old(store.Rows()), t, user, g, now, scan, fault, store.Rows())
      ensures Inv(old(store.Rows())) ==> Inv(store.Rows())
    {
      hide Inv, Doomed, EndAll, Ends, SomeOrphan, SweptJobs;
      ghost var s := store.Rows();
      assert EndAll(s, t, user, g, now, scan, 0) == Ok(s) by {
        EndNone(s, t, user, g, now, scan);
      }
      for i := 0 to |jobs|
        invariant EndAll(s, t, user, g, now, scan, i) == Ok(store.Rows())
        invariant Inv(s) ==> Inv(store.Rows())
      {
        fault := EndOne(store, chosen, i, s, t, user, g, now, scan);
        if fault.Fail? {
          return;
        }
      }
      fault := Pass;
    }

    /** `cancel_unpublished`; an error is undone by the caller's savepoint. */
    method CancelUnpublished(store: Store, user: nat, g: Gallery, now: int, scan: Scan) returns (r: Result<nat, SweepError>)
      modifies this, store
      ensures match Swept(old(store.Rows()), old(Rows()), user, g, now, scan)
              case Ok(u) =>
                && r == Ok(DoomedCount(old(Rows()), user, |old(jobs)|)) && store.Rows() == u
                && jobs == SweptJobs(old(Rows()), user, |old(jobs)|)
                && events == SweptEvents(old(Rows()), user, |old(events)|)
              case Err(error) => r == Err(error) && store.Rows() == old(store.Rows()) && Rows() == old(Rows())
      ensures r.Ok? ==> OutboxFollows(old(Rows()), Rows()) && r.value == |CancelledIds(old(Rows()), Rows())|
      ensures Inv(old(store.Rows())) ==> Inv(store.Rows())
    {
      hide Inv, EndAll, TooMany, SomeOrphan, Doomed, OutboxFollows;
      ghost var t := Rows();
      var savepoint, savedJobs, savedEvents := store.Rows(), jobs, events;
      var busy, published := ScanPending(user);
      if busy {
        return Err(Busy);
      }
      var chosen := Choose(user, published);
      if chosen.None? {
        return Err(Unavailable);
      }
      MarkCancelled(chosen.value, t, user);
      var fault := EndChosen(store, chosen.value, t, user, g, now, scan);
      if fault.Fail? {
        store.Rollback(savepoint);
        jobs, events := savedJobs, savedEvents;
        return Err(CreditFailed(fault.error));
      }
      RejectEvents(chosen.value, t, user);
      forall id: nat | Doomed(t, user, id)
        ensures id < |t.jobs|
      {
        DoomedExist(t, user, id);
      }
      DoomedCounted(t, user, chosen.value, |t.jobs|);
      OutboxFollowsJobs(t, user);
      r := Ok(|chosen.value|);
    }
  }

  // ---------------------------------------------------------------- jobs afterwards

  /** The sweep touches only pending, unpublished jobs of the user, and only by an allowed transition. */
  lemma SweepTransitions(t: Tables, user: nat, id: nat)
    requires id < |t.jobs| && SweptJob(t, user, id) != t.jobs[id]
    ensures var before, after := t.jobs[id], SweptJob(t, user, id);
            && before.row.owner == Some(user) && before.State() == JobStates.Pending && !PublishedJob(t, id)
            && JobStates.CanTransition(before.State(), after.State())
            && after == Work(before.row, before.history + [JobStates.Cancelled], false, true)
            && (JobStates.Lawful(before.history) ==> JobStates.Lawful(after.history))
  {
  }

  /** Every cancelled child has a terminal parent afterwards. */
  ghost predicate ParentsFinished(t: Tables, user: nat) {
    forall id: nat | id < |t.jobs| && Doomed(t, user, id) && t.jobs[id].row.parent.Some? ::
      var p := t.jobs[id].row.parent.value;
      p < |t.jobs| && JobStates.IsTerminal(SweptJob(t, user, p).State())
  }

  /** A waiting job whose waiting parent must itself wait for its own parent. */
  ghost predicate WaitingChain(t: Tables, user: nat) {
    exists id: nat :: id < |t.jobs| && Undispatched(t, user, id) && t.jobs[id].row.parent.Some?
                      && var p := t.jobs[id].row.parent.value; Undispatched(t, user, p) && HeldBack(t, user, p)
  }

  /** Children are cancelled only with finished parents, exactly when no chain of three waits on a running job. */
  lemma ChildrenFollowParents(t: Tables, user: nat)
    requires !SomeOrphan(t, user)
    ensures ParentsFinished(t, user) <==> !WaitingChain(t, user)
  {
    if WaitingChain(t, user) {
      var id: nat :| id < |t.jobs| && Undispatched(t, user, id) && t.jobs[id].row.parent.Some?
                     && var p := t.jobs[id].row.parent.value; Undispatched(t, user, p) && HeldBack(t, user, p);
      assert Doomed(t, user, id);
    } else {
      forall id: nat | id < |t.jobs| && Doomed(t, user, id) && t.jobs[id].row.parent.Some?
        ensures var p := t.jobs[id].row.parent.value; p < |t.jobs| && JobStates.IsTerminal(SweptJob(t, user, p).State())
      {
        assert !Orphaned(t, user, id);
      }
    }
  }

  /** Parents of the user's jobs have no parents. */
  ghost predicate DepthOne(t: Tables, user: nat) {
    forall id: nat | id < |t.jobs| && t.jobs[id].row.owner == Some(user) && t.jobs[id].row.parent.Some? ::
      t.jobs[id].row.parent.value < |t.jobs| ==> t.jobs[t.jobs[id].row.parent.value].row.parent.None?
  }

  lemma DepthOneNeverChains(t: Tables, user: nat)
    requires DepthOne(t, user)
    ensures !WaitingChain(t, user)
  {
  }

  function ChainOfThree(user: nat): Tables {
    var row := (id: nat, parent: Option<nat>) => JobRow(id, Some(user), TextToImage, ImagenFast, parent, map[]);
    Tables([Work(row(0, None), [JobStates.Queued, JobStates.Generating], false, false),
            Work(row(1, Some(0)), [], true, false),
            Work(row(2, Some(1)), [], true, false)], [])
  }

  /** On a deeper chain the grandchild is cancelled although its parent stays pending. */
  lemma ChainOfThreeStrandsParent(user: nat)
    ensures var t := ChainOfThree(user);
            && !SomeOrphan(t, user)
            && Doomed(t, user, 2) && t.jobs[2].row.parent == Some(1)
            && SweptJob(t, user, 1).State() == JobStates.Pending
  {
  }

  // ---------------------------------------------------------------- reservations afterwards

  function CreditOf(t: Tables, id: nat): Option<Metadata>
    requires id < |t.jobs|
  {
    match Parse(t.jobs[id].row.parameters)
    case Ok(Some(m)) => Some(m)
    case _ => None
  }

  ghost predicate ClosedIn(s: State, rid: nat) {
    rid < |s.reservations| && !s.reservations[rid].Held()
  }

  /** The sweep makes its terminal call on `rid` for job `k`. */
  predicate EndsOn(t: Tables, user: nat, k: nat, rid: nat) {
    k < |t.jobs| && Ends(t, user, k) && CreditOf(t, k).Some? && CreditOf(t, k).value.reservation == rid
  }

  lemma InvParts(s: State)
    requires Inv(s)
    ensures Core(s) && Started(s)
  {
  }

  /** A cancelled job's terminal call, once it succeeds, closes the reservation the job names and no other. */
  lemma TerminalizeCloses(s: State, j: JobRow, g: Gallery, reason: Option<Reason>, now: int, scan: Scan, rid: nat)
    requires Inv(s) && Terminalize(s, j, g, false, reason, now, scan).Ok?
    ensures var t := Terminalize(s, j, g, false, reason, now, scan).value.0;
            ClosedIn(t, rid) <==> ClosedIn(s, rid) || (Parse(j.parameters).value.Some? && Parse(j.parameters).value.value.reservation == rid)
  {
    hide Inv, Settle, Release, UsageOf, DeliveredAssets, Parse;
    InvParts(s);
    if Parse(j.parameters).value.Some? {
      var m := Parse(j.parameters).value.value;
      var lines := UsageOf(DeliveredAssets(j, m, g), g.models).value;
      if m.role.PipelineChild? && lines != [] {
        SettleMoves(s, m.reservation, lines, Partial, m.terminalKey, now, scan);
      } else {
        ReleaseMoves(s, m.reservation, [], reason.value, m.terminalKey, now, scan);
      }
    }
  }

  /** Any terminal call keeps the invariant. */
  lemma TerminalizeKeeps(s: State, j: JobRow, g: Gallery, succeeded: bool, reason: Option<Reason>, now: int, scan: Scan)
    requires Inv(s) && Terminalize(s, j, g, succeeded, reason, now, scan).Ok?
    ensures Inv(Terminalize(s, j, g, succeeded, reason, now, scan).value.0)
  {
    hide Inv, Settle, Release, UsageOf, DeliveredAssets, Parse;
    var parsed := Parse(j.parameters).value;
    if parsed.Some? {
      var m := parsed.value;
      var lines := UsageOf(DeliveredAssets(j, m, g), g.models).value;
      if succeeded && m.role.PipelineParent? {
      } else if succeeded || (m.role.PipelineChild? && lines != []) {
        StepKeeps(s, CallSettle(m.reservation, lines, if succeeded then Delivered else Partial, m.terminalKey, now, scan));
      } else {
        StepKeeps(s, CallRelease(m.reservation, [], reason.value, m.terminalKey, now, scan));
      }
    }
  }

  lemma {:induction false} EndAllCloses(s: State, t: Tables, user: nat, g: Gallery, now: int, scan: Scan, n: nat, rid: nat)
    requires Inv(s) && n <= |t.jobs| && EndAll(s, t, user, g, now, scan, n).Ok?
    ensures var u := EndAll(s, t, user, g, now, scan, n).value;
            Inv(u) && (ClosedIn(u, rid) <==> ClosedIn(s, rid) || exists k: nat :: k < n && EndsOn(t, user, k, rid))
  {
    hide Inv, Terminalize, Ends, ClosedIn, Parse;
    if n > 0 {
      EndAllCloses(s, t, user, g, now, scan, n - 1, rid);
      var before := EndAll(s, t, user, g, now, scan, n - 1).value;
      if Ends(t, user, n - 1) {
        var j := t.jobs[n - 1].row;
        TerminalizeKeeps(before, j, g, false, Some(CancelledBeforeDelivery), now, scan);
        TerminalizeCloses(before, j, g, Some(CancelledBeforeDelivery), now, scan, rid);
        ParsedFirst(before, j, g, now, scan);
      }
      assert (exists k: nat :: k < n && EndsOn(t, user, k, rid))
        <==> (exists k: nat :: k < n - 1 && EndsOn(t, user, k, rid)) || EndsOn(t, user, n - 1, rid);
    }
  }

  lemma ParsedFirst(s: State, j: JobRow, g: Gallery, now: int, scan: Scan)
    requires Terminalize(s, j, g, false, Some(CancelledBeforeDelivery), now, scan).Ok?
    ensures Parse(j.parameters).Ok?
  {
    hide Settle, Release, UsageOf, Parse;
  }

  lemma SweptIsEnded(s: State, t: Tables, user: nat, g: Gallery, now: int, scan: Scan)
    requires Swept(s, t, user, g, now, scan).Ok?
    ensures EndAll(s, t, user, g, now, scan, |t.jobs|) == Ok(Swept(s, t, user, g, now, scan).value)
    ensures !SomeOrphan(t, user)
  {
    hide EndAll, TooMany, SomeOrphan;
  }

  /**
   * Whatever the tables: after the sweep a reservation is closed exactly when it
   * was closed before or the sweep made a terminal call on a job that names it.
   */
  lemma SweepCloses(s: State, t: Tables, user: nat, g: Gallery, now: int, scan: Scan, rid: nat)
    requires Inv(s) && Swept(s, t, user, g, now, scan).Ok?
    ensures var u := Swept(s, t, user, g, now, scan).value;
            Inv(u) && (ClosedIn(u, rid) <==> ClosedIn(s, rid) || exists k: nat :: EndsOn(t, user, k, rid))
  {
    hide Inv, EndAll, Swept, ClosedIn, Ends;
    SweptIsEnded(s, t, user, g, now, scan);
    EndAllCloses(s, t, user, g, now, scan, |t.jobs|, rid);
  }

  /** Given back as cancelled before delivery, or charged for what a pipeline's parent had already delivered. */
  predicate WrittenOff(r: Reservation) {
    && r.terminal.Some?
    && var end := r.terminal.value;
    if end.settled then end.delivery.Partial? else end.delivery.NoDeliverable? && end.reason.CancelledBeforeDelivery?
  }

  /** Reservations stay as they are but for held ones that are written off. */
  ghost predicate OnlyWritesOff(rs: seq<Reservation>, ts: seq<Reservation>) {
    && |ts| == |rs|
    && forall i | 0 <= i < |rs| :: ts[i] == rs[i] || (rs[i].Held() && ts[i] == rs[i].(terminal := ts[i].terminal) && WrittenOff(ts[i]))
  }

  lemma WritesOffTransitive(rs: seq<Reservation>, ts: seq<Reservation>, us: seq<Reservation>)
    requires OnlyWritesOff(rs, ts) && OnlyWritesOff(ts, us)
    ensures OnlyWritesOff(rs, us)
  {
    hide WrittenOff;
    forall i | 0 <= i < |rs|
      ensures us[i] == rs[i] || (rs[i].Held() && us[i] == rs[i].(terminal := us[i].terminal) && WrittenOff(us[i]))
    {
      assert ts[i] == rs[i] || (rs[i].Held() && ts[i].terminal.Some?) by {
        assert ts[i] == rs[i] || WrittenOff(ts[i]);
        WrittenIsClosed(ts[i]);
      }
    }
  }

  lemma WrittenIsClosed(r: Reservation)
    ensures WrittenOff(r) ==> r.terminal.Some?
  {
  }

  lemma NothingWrittenOff(rs: seq<Reservation>)
    ensures OnlyWritesOff(rs, rs)
  {
  }

  lemma OneWrittenOff(rs: seq<Reservation>, ts: seq<Reservation>, rid: nat, key: Key, settled: bool)
    requires rid < |ts| && WrittenOff(ts[rid]) && (ts == rs || Closes(rs, ts, rid, key, settled))
    ensures OnlyWritesOff(rs, ts)
  {
  }

  lemma TerminalizeWritesOff(s: State, j: JobRow, g: Gallery, now: int, scan: Scan)
    requires Inv(s) && Terminalize(s, j, g, false, Some(CancelledBeforeDelivery), now, scan).Ok?
    ensures OnlyWritesOff(s.reservations, Terminalize(s, j, g, false, Some(CancelledBeforeDelivery), now, scan).value.0.reservations)
  {
    hide Inv, Settle, Release, UsageOf, DeliveredAssets, Parse, Closes, OnlyWritesOff;
    InvParts(s);
    NothingWrittenOff(s.reservations);
    if Parse(j.parameters).value.Some? {
      var m := Parse(j.parameters).value.value;
      var lines := UsageOf(DeliveredAssets(j, m, g), g.models).value;
      var ts := Terminalize(s, j, g, false, Some(CancelledBeforeDelivery), now, scan).value.0.reservations;
      if m.role.PipelineChild? && lines != [] {
        SettleMoves(s, m.reservation, lines, Partial, m.terminalKey, now, scan);
        JobBills.SettledWith(s, m.reservation, lines, Partial, m.terminalKey, now, scan);
        OneWrittenOff(s.reservations, ts, m.reservation, m.terminalKey, true);
      } else {
        ReleaseMoves(s, m.reservation, [], CancelledBeforeDelivery, m.terminalKey, now, scan);
        JobBills.ReleasedWith(s, m.reservation, CancelledBeforeDelivery, m.terminalKey, now, scan);
        OneWrittenOff(s.reservations, ts, m.reservation, m.terminalKey, false);
      }
    }
  }

  lemma {:induction false} EndAllWritesOff(s: State, t: Tables, user: nat, g: Gallery, now: int, scan: Scan, n: nat)
    requires Inv(s) && n <= |t.jobs| && EndAll(s, t, user, g, now, scan, n).Ok?
    ensures Inv(EndAll(s, t, user, g, now, scan, n).value)
    ensures OnlyWritesOff(s.reservations, EndAll(s, t, user, g, now, scan, n).value.reservations)
  {
    hide Inv, Terminalize, Ends, WrittenOff;
    if n > 0 {
      EndAllWritesOff(s, t, user, g, now, scan, n - 1);
      var before := EndAll(s, t, user, g, now, scan, n - 1).value;
      if Ends(t, user, n - 1) {
        var j := t.jobs[n - 1].row;
        TerminalizeKeeps(before, j, g, false, Some(CancelledBeforeDelivery), now, scan);
        TerminalizeWritesOff(before, j, g, now, scan);
        WritesOffTransitive(s.reservations, before.reservations, EndAll(s, t, user, g, now, scan, n).value.reservations);
      }
    }
  }

  /** Whatever a sweep closes it gives back as cancelled before delivery, or charges for what a parent had delivered; it changes no other reservation. */
  lemma SweepWritesOff(s: State, t: Tables, user: nat, g: Gallery, now: int, scan: Scan)
    requires Inv(s) && Swept(s, t, user, g, now, scan).Ok?
    ensures OnlyWritesOff(s.reservations, Swept(s, t, user, g, now, scan).value.reservations)
  {
    hide Inv, EndAll, Swept, WrittenOff;
    SweptIsEnded(s, t, user, g, now, scan);
    EndAllWritesOff(s, t, user, g, now, scan, |t.jobs|);
  }

  /** When the terminal call of a job that has delivered nothing succeeds: with the hold open under an unused key, exactly when the ledger comparison passes. */
  lemma CancelledCallSucceeds(s: State, j: JobRow, m: Metadata, g: Gallery, now: int, scan: Scan)
    requires Inv(s) && Parse(j.parameters) == Ok(Some(m)) && UsageOf(DeliveredAssets(j, m, g), g.models) == Ok([])
    requires m.reservation < |s.reservations| && s.reservations[m.reservation].Held() && AsOf(s) <= now
    requires FindTerminal(s.reservations, m.terminalKey).None?
    ensures var r := Terminalize(s, j, g, false, Some(CancelledBeforeDelivery), now, scan);
            match LedgerCheck(scan(s.book.ledger), s.book.grants)
            case Pass => r.Ok? && r.value.1.Finished? && ClosedIn(r.value.0, m.reservation)
                         && r.value.1.receipt.consumed == 0 && r.value.1.receipt.released == s.reservations[m.reservation].total
            case Fail(error) => r == Err(Accounting(error))
  {
    hide Inv, Release, Settle, UsageOf, DeliveredAssets, Parse, LedgerCheck, FindTerminal;
    InvParts(s);
    HeldRelease(s, m.reservation, CancelledBeforeDelivery, m.terminalKey, now, scan);
  }

  // ---------------------------------------------------------------- how admission links jobs to reservations

  predicate OwnJob(t: Tables, user: nat, id: nat) {
    id < |t.jobs| && t.jobs[id].row.owner == Some(user)
  }

  predicate FailedJob(t: Tables, id: nat) {
    id < |t.jobs| && t.jobs[id].State() in {JobStates.Failed, JobStates.Cancelled}
  }

  /** A pipeline's child hangs on its parent's reservation; every other job has one of its own, and a standalone job's parent has completed. */
  ghost predicate LinkedJob(t: Tables, user: nat, id: nat)
    requires id < |t.jobs|
  {
    var parent := t.jobs[id].row.parent;
    match CreditOf(t, id)
    case None => true
    case Some(m) =>
      && (m.role.PipelineParent? ==> parent.None?)
      && (m.role.Standalone? && parent.Some? ==> parent.value < |t.jobs| && t.jobs[parent.value].State() == JobStates.Completed)
      && (m.role.PipelineChild? ==>
            && parent.Some? && OwnJob(t, user, parent.value)
            && CreditOf(t, parent.value).Some? && CreditOf(t, parent.value).value.role.PipelineParent?
            && CreditOf(t, parent.value).value.reservation == m.reservation)
  }

  ghost predicate ChildOfParent(t: Tables, child: nat, parent: nat)
    requires child < |t.jobs|
  {
    CreditOf(t, child).Some? && CreditOf(t, child).value.role.PipelineChild? && t.jobs[child].row.parent == Some(parent)
  }

  ghost predicate SameReservationOf(t: Tables, i: nat, j: nat)
    requires i < |t.jobs| && j < |t.jobs|
  {
    CreditOf(t, i).Some? && CreditOf(t, j).Some? && CreditOf(t, i).value.reservation == CreditOf(t, j).value.reservation
  }

  /** The user's jobs share a reservation only as parent and child of one pipeline. */
  ghost predicate Linked(t: Tables, user: nat) {
    && (forall id: nat | OwnJob(t, user, id) :: LinkedJob(t, user, id))
    && (forall i: nat, j: nat | OwnJob(t, user, i) && OwnJob(t, user, j) && i != j && SameReservationOf(t, i, j) ::
          ChildOfParent(t, i, j) || ChildOfParent(t, j, i))
  }

  /** The sweep makes at most one terminal call per reservation. */
  lemma OneCallPerReservation(t: Tables, user: nat, i: nat, j: nat, rid: nat)
    requires Linked(t, user) && EndsOn(t, user, i, rid) && EndsOn(t, user, j, rid)
    ensures i == j
  {
    hide CreditOf, LinkedJob, Ends;
    EndsOwn(t, user, i);
    EndsOwn(t, user, j);
    if i != j {
      assert SameReservationOf(t, i, j);
      if ChildOfParent(t, i, j) {
        ChildNeverEnds(t, user, i, j);
      } else {
        ChildNeverEnds(t, user, j, i);
      }
    }
  }

  lemma EndsOwn(t: Tables, user: nat, id: nat)
    requires Ends(t, user, id)
    ensures OwnJob(t, user, id) && Doomed(t, user, id)
  {
  }

  lemma ChildNeverEnds(t: Tables, user: nat, child: nat, parent: nat)
    requires child < |t.jobs| && ChildOfParent(t, child, parent) && Ends(t, user, parent)
    ensures !Ends(t, user, child)
  {
  }

  /** Its parent failed or was cancelled: the sweep leaves the job's reservation to the parent. */
  predicate UnderFailed(t: Tables, id: nat)
    requires id < |t.jobs|
  {
    t.jobs[id].row.parent.Some? && FailedJob(t, t.jobs[id].row.parent.value)
  }

  lemma KnownRole(t: Tables, id: nat)
    requires id < |t.jobs| && CreditOf(t, id).Some?
    ensures !CreditOf(t, id).value.role.UnknownRole?
  {
  }

  /** Who makes the call for a cancelled job: itself, or its parent if that is cancelled with it, or nobody. */
  lemma WhoEnds(t: Tables, user: nat, id: nat)
    requires Linked(t, user) && !SomeOrphan(t, user) && Doomed(t, user, id) && CreditOf(t, id).Some?
    ensures var rid := CreditOf(t, id).value.reservation;
            (exists k: nat :: EndsOn(t, user, k, rid)) <==> !UnderFailed(t, id)
  {
    var rid := CreditOf(t, id).value.reservation;
    assert OwnJob(t, user, id) && LinkedJob(t, user, id);
    KnownRole(t, id);
    hide CreditOf, PublishedJob;
    if UnderFailed(t, id) {
      forall k: nat
        ensures !EndsOn(t, user, k, rid)
      {
        UnderFailedUnended(t, user, id, k);
      }
    } else if Ends(t, user, id) {
      assert EndsOn(t, user, id, rid);
    } else {
      var p := t.jobs[id].row.parent.value;
      assert LinkedJob(t, user, p);
      assert Ends(t, user, p) && EndsOn(t, user, p, rid);
    }
  }

  lemma UnderFailedUnended(t: Tables, user: nat, id: nat, k: nat)
    requires Linked(t, user) && Doomed(t, user, id) && CreditOf(t, id).Some? && UnderFailed(t, id)
    ensures !EndsOn(t, user, k, CreditOf(t, id).value.reservation)
  {
    hide CreditOf, PublishedJob;
    assert OwnJob(t, user, id) && LinkedJob(t, user, id);
    assert OwnJob(t, user, k) ==> LinkedJob(t, user, k);
  }

  /** Of a cancelled job the reservation is closed afterwards exactly when it was closed before or the job's parent has not failed. */
  lemma DoomedClosed(s: State, t: Tables, user: nat, g: Gallery, now: int, scan: Scan, id: nat)
    requires Inv(s) && Linked(t, user) && Swept(s, t, user, g, now, scan).Ok?
    requires Doomed(t, user, id) && CreditOf(t, id).Some?
    ensures var rid := CreditOf(t, id).value.reservation;
            ClosedIn(Swept(s, t, user, g, now, scan).value, rid) <==> ClosedIn(s, rid) || !UnderFailed(t, id)
  {
    hide Inv, Linked, EndAll, Swept, SomeOrphan, CreditOf, Doomed, Ends, ClosedIn, UnderFailed;
    DoomedExist(t, user, id);
    SweptIsEnded(s, t, user, g, now, scan);
    SweepCloses(s, t, user, g, now, scan, CreditOf(t, id).value.reservation);
    WhoEnds(t, user, id);
  }

  /** Every cancelled job whose parent failed earlier had its reservation closed by then. */
  ghost predicate FailuresPaid(s: State, t: Tables, user: nat) {
    forall id: nat | Doomed(t, user, id) && CreditOf(t, id).Some? && UnderFailed(t, id) ::
      ClosedIn(s, CreditOf(t, id).value.reservation)
  }

  ghost predicate NoneHeld(s: State, t: Tables, user: nat) {
    forall id: nat | Doomed(t, user, id) && CreditOf(t, id).Some? :: ClosedIn(s, CreditOf(t, id).value.reservation)
  }

  /** After the sweep no cancelled job's reservation is held, exactly when no failed parent had left its reservation open. */
  lemma NothingLeftHeld(s: State, t: Tables, user: nat, g: Gallery, now: int, scan: Scan)
    requires Inv(s) && Linked(t, user) && Swept(s, t, user, g, now, scan).Ok?
    ensures NoneHeld(Swept(s, t, user, g, now, scan).value, t, user) <==> FailuresPaid(s, t, user)
  {
    forall id: nat | Doomed(t, user, id) && CreditOf(t, id).Some?
      ensures ClosedIn(Swept(s, t, user, g, now, scan).value, CreditOf(t, id).value.reservation)
              <==> ClosedIn(s, CreditOf(t, id).value.reservation) || !UnderFailed(t, id)
    {
      hide *;
      DoomedClosed(s, t, user, g, now, scan, id);
    }
    hide Inv, Linked, Swept, CreditOf, Doomed, ClosedIn, UnderFailed;
  }
}
