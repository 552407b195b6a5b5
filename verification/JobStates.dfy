/** Job states and the transitions between them. */
module JobStates {
  datatype JobState = Pending | Enhancing | Queued | Generating | Polling | Downloading | Completed | Failed | Cancelled

  function AllowedFrom(s: JobState): set<JobState> {
    match s
    case Pending => {Enhancing, Queued, Failed, Cancelled}
    case Enhancing => {Queued, Failed, Cancelled}
    case Queued => {Generating, Failed, Cancelled}
    case Generating => {Polling, Downloading, Failed, Cancelled}
    case Polling => {Polling, Downloading, Failed, Cancelled}
    case Downloading => {Completed, Failed, Cancelled}
    case Completed => {}
    case Failed => {}
    case Cancelled => {}
  }

  predicate CanTransition(from: JobState, to: JobState) {
    to in AllowedFrom(from)
  }

  predicate IsTerminal(s: JobState) {
    s.Completed? || s.Failed? || s.Cancelled?
  }

  function Stage(s: JobState): nat {
    match s
    case Pending => 0
    case Enhancing => 1
    case Queued => 2
    case Generating => 3
    case Polling => 4
    case Downloading => 5
    case _ => 6
  }

  /** A history the transition rule could have written. */
  ghost predicate Lawful(history: seq<JobState>) {
    forall i | 0 < i < |history| :: CanTransition(history[i - 1], history[i])
  }

  lemma TransitionAdvances(from: JobState, to: JobState)
    requires CanTransition(from, to)
    ensures Stage(from) < Stage(to) || from == to == Polling
    ensures !IsTerminal(from)
  {
  }

  /** A stage a job may leave out. */
  predicate Optional(stage: nat) {
    stage == Stage(Enhancing) || stage == Stage(Polling)
  }

  /**
   * The transitions, exactly: any unfinished job may fail or be cancelled,
   * polling may go on, and otherwise a job moves to the next stage or past one
   * it may leave out.
   */
  lemma ExactlyForward(from: JobState, to: JobState)
    ensures CanTransition(from, to) <==>
            && !IsTerminal(from)
            && (|| to in {Failed, Cancelled}
                || from == to == Polling
                || Stage(to) == Stage(from) + 1
                || (Stage(to) == Stage(from) + 2 && Optional(Stage(from) + 1)))
  {
  }

  /** A job that completes has been queued, generated and downloaded. */
  lemma CompletedPassesThrough(history: seq<JobState>, stop: JobState)
    requires history != [] && history[0] == Pending && Lawful(history) && history[|history| - 1] == Completed
    requires stop in {Queued, Generating, Downloading}
    ensures stop in history
  {
    Passed(history, |history| - 1, stop);
  }

  lemma {:induction false} Passed(history: seq<JobState>, n: nat, stop: JobState)
    requires n < |history| && history[0] == Pending && Lawful(history)
    requires stop in {Queued, Generating, Downloading}
    requires Stage(stop) <= Stage(history[n]) && history[n] !in {Failed, Cancelled}
    ensures stop in history
  {
    if history[n] != stop {
      ExactlyForward(history[n - 1], history[n]);
      Passed(history, n - 1, stop);
    }
  }

  lemma {:induction false} StagesAscend(history: seq<JobState>, i: nat, j: nat)
    requires Lawful(history) && i <= j < |history|
    ensures Stage(history[i]) <= Stage(history[j])
    ensures Stage(history[i]) == Stage(history[j]) ==> history[i] == history[j] && (i == j || history[i] == Polling)
    decreases j
  {
    if i < j {
      StagesAscend(history, i, j - 1);
      TransitionAdvances(history[j - 1], history[j]);
    }
  }

  /** No job returns to a state it has left: a repeated state is an unbroken stretch of polling. */
  lemma NeverReturns(history: seq<JobState>, i: nat, j: nat, k: nat)
    requires Lawful(history) && i <= k <= j < |history| && history[i] == history[j]
    ensures history[k] == history[i]
    ensures i < j ==> history[i] == Polling
  {
    StagesAscend(history, i, k);
    StagesAscend(history, k, j);
    StagesAscend(history, i, j);
  }

  /** Terminal states end a history. */
  lemma TerminalIsLast(history: seq<JobState>, i: nat)
    requires Lawful(history) && i < |history| && IsTerminal(history[i])
    ensures i == |history| - 1
  {
    if i + 1 < |history| {
      TransitionAdvances(history[i], history[i + 1]);
    }
  }
}
