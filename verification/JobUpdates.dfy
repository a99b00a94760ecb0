/** What each guarded write of `jobs.py` means for the stored row, as a function of the row it finds.
    Every write is one SQL statement (or one locked transaction), so it is atomic. */
module JobUpdates {
  import opened Basics
  import opened JobTypes

  const MAX_ERROR_TURNS: nat := 3
  const MAX_GOAL: nat := 2000
  const MAX_CODE: nat := 120

  /** The worker's claim of a first run; a live lease forbids taking over PLANNING or RUNNING. */
  function ClaimQueued(row: Row, leaseLive: bool): (Row, bool) {
    if row.state == Queued || (row.state in {Planning, Running} && !leaseLive) then
      (row.(state := Planning), true)
    else
      (row, false)
  }

  function MarkRunning(row: Row): (Row, bool) {
    if row.state == Planning then (row.(state := Running), true) else (row, false)
  }

  /** The claim of a follow-up: it writes back the transcript its worker read. */
  function Resume(row: Row, before: Transcript): (Row, bool) {
    if row.state == Queued then (row.(state := Planning, transcript := before), true) else (row, false)
  }

  /** The act transaction's write: the new transcript and state, and the outcomes of what it saved. */
  function Finish(row: Row, state: JobState, transcript: Transcript, outcomes: seq<Outcome>): (Row, bool) {
    if row.state == Running then
      (Row(state, transcript, row.outcomes + outcomes), true)
    else
      (row, false)
  }

  function FailureTurns(goal: string, code: string): Transcript {
    [UserTurn(Take(goal, MAX_GOAL)), ErrorTurn(Take(code, MAX_CODE))]
  }

  /** A failed follow-up: only over the transcript its round claimed. */
  function RecordFailure(row: Row, before: Transcript, goal: string, code: string): (Row, bool) {
    if row.state in {Planning, Running} && row.transcript == before then
      var t := row.transcript + FailureTurns(goal, code);
      (row.(state := if ErrorTurns(t) >= MAX_ERROR_TURNS then Failed else FailedRetryable, transcript := t), true)
    else
      (row, false)
  }

  /** A failed first run: it replaces the transcript. */
  function FailQueued(row: Row, goal: string, code: string): (Row, bool) {
    if Live(row.state) then
      (row.(state := FailedRetryable, transcript := FailureTurns(goal, code)), true)
    else
      (row, false)
  }

  /** The queue gave up on a run whose lease expired on its last attempt. */
  function ExpireLease(row: Row): Row {
    if Live(row.state) then row.(state := FailedRetryable) else row
  }

  function MarkQueued(row: Row): (Row, Option<JobState>) {
    if Resumable(row.state) then (row.(state := Queued), Some(row.state)) else (row, None)
  }

  function RestoreQueued(row: Row, previous: JobState): (Row, bool) {
    if Resumable(previous) && row.state == Queued then (row.(state := previous), true) else (row, false)
  }

  function CancelJob(row: Row): (Row, bool) {
    if Terminal(row.state) then (row, false) else (row.(state := Canceled), true)
  }

  datatype CancelReply = CanceledNow | Signaled | NothingLive

  /** `busy`: the row stayed locked past the cancel's lock timeout. */
  function RequestCancel(row: Row, signal: bool, busy: bool): (Row, bool, CancelReply) {
    if !busy && !Terminal(row.state) then (row.(state := Canceled), signal, CanceledNow)
    else if Terminal(row.state) then (row, signal, NothingLive)
    else (row, true, Signaled)
  }

  predicate Has(outcomes: seq<Outcome>, turn: int, step: int, action: Action) {
    exists i | 0 <= i < |outcomes| ::
      outcomes[i].turn == turn && outcomes[i].step == step && outcomes[i].action == action
  }

  /** Applied, declined or undone; a failed apply decides nothing. */
  predicate Decided(outcomes: seq<Outcome>, turn: int, step: int) {
    Has(outcomes, turn, step, Applied) || Has(outcomes, turn, step, Declined) || Has(outcomes, turn, step, Undone)
  }

  predicate AllDecided(t: Transcript, outcomes: seq<Outcome>) {
    forall i, j | 0 <= i < |t| && 0 <= j < |StepsOf(t[i])| ::
      Reportable(StepsOf(t[i])[j].kind) ==> Decided(outcomes, i, j)
  }

  datatype OutcomeReply = UnknownStep | Repeated | Recorded

  /** One report of what the person did with a proposed step. */
  function RecordOutcome(row: Row, turn: int, step: int, action: Action): (Row, OutcomeReply) {
    var found := StepAt(row.transcript, turn, step);
    if found.None? || !Reportable(found.value.kind) then (row, UnknownStep)
    else if action == Undone && !Has(row.outcomes, turn, step, Applied) then (row, UnknownStep)
    else if Has(row.outcomes, turn, step, action) then (row, Repeated)
    else if action in {Applied, Declined}
            && (Has(row.outcomes, turn, step, Applied) || Has(row.outcomes, turn, step, Declined)) then (row, Repeated)
    else
      var outcomes := row.outcomes + [Outcome(turn, step, action, None)];
      var settles := row.state == WaitingForApproval && AllDecided(row.transcript, outcomes);
      (row.(outcomes := outcomes, state := if settles then Succeeded else row.state), Recorded)
  }

  function RecordAssistantOutcomes(row: Row, entries: seq<Outcome>): Row {
    row.(outcomes := row.outcomes + entries)
  }

  /** The last agent turn, or -1. */
  function LatestAgent(t: Transcript): (i: int)
    ensures -1 <= i < |t|
    ensures i >= 0 ==> t[i].AgentTurn?
    ensures forall k | i < k < |t| :: !t[k].AgentTurn?
  {
    if t == [] then -1
    else if t[|t| - 1].AgentTurn? then |t| - 1
    else LatestAgent(t[..|t| - 1])
  }

  /** Some gated step of the latest round is not applied yet. */
  predicate Waiting(t: Transcript) {
    var i := LatestAgent(t);
    i >= 0 && exists j | 0 <= j < |StepsOf(t[i])| ::
      Gated(StepsOf(t[i])[j].kind) && StepsOf(t[i])[j].applied.None?
  }

  /** One approval: excludes only live rows, so it also rewrites FAILED and CANCELED ones. */
  function StoreApproval(row: Row, transcript: Transcript, entries: seq<Outcome>): Row {
    if Live(row.state) then row
    else Row(if Waiting(transcript) then WaitingForApproval else Succeeded, transcript, row.outcomes + entries)
  }

  // ---------------------------------------------------------------- relations between the writes

  /** A refused enqueue leaves no trace, whatever settled state the row had. */
  lemma RestoreUndoesMark(row: Row)
    ensures var (queued, previous) := MarkQueued(row);
      previous.Some? ==> RestoreQueued(queued, previous.value) == (row, true)
  {
  }

  /** ... and a cancel in between survives the restore. */
  lemma RestoreKeepsCancel(row: Row)
    ensures var (queued, previous) := MarkQueued(row);
      previous.Some? ==>
        var (canceled, landed) := CancelJob(queued);
        landed && RestoreQueued(canceled, previous.value) == (canceled, false)
  {
  }

  /** `act` would still count the row as waiting: some gated step has no decision. */
  predicate PendingForAct(t: Transcript, outcomes: seq<Outcome>) {
    exists i, j | 0 <= i < |t| && 0 <= j < |StepsOf(t[i])| ::
      Gated(StepsOf(t[i])[j].kind) && !Decided(outcomes, i, j)
  }

  predicate OpenQuote(t: Transcript, outcomes: seq<Outcome>) {
    exists i, j | 0 <= i < |t| && 0 <= j < |StepsOf(t[i])| ::
      StepsOf(t[i])[j].kind.QuoteDraft? && !Decided(outcomes, i, j)
  }

  /** Reporting an outcome settles a waiting row, as SUCCEEDED, exactly when it is recorded and decides the last
      undecided step of the kinds it knows. By `act`'s own list of gated kinds the row then still has something to
      decide exactly when a quote draft is undecided: the two lists differ in that one kind. */
  lemma ReportSettlesEarlyIffQuoteOpen(row: Row, turn: int, step: int, action: Action)
    requires row.state == WaitingForApproval
    ensures var (after, reply) := RecordOutcome(row, turn, step, action);
      && (after.state != WaitingForApproval <==> reply == Recorded && AllDecided(row.transcript, after.outcomes))
      && (after.state != WaitingForApproval ==>
            after.state == Succeeded
            && (PendingForAct(after.transcript, after.outcomes) <==> OpenQuote(after.transcript, after.outcomes)))
  {
    var after := RecordOutcome(row, turn, step, action).0;
    if after.state == Succeeded {
      PendingIsOpenQuote(after.transcript, after.outcomes);
    }
  }

  /** Once the steps a report knows are decided, only a quote draft can be left. */
  lemma PendingIsOpenQuote(t: Transcript, outcomes: seq<Outcome>)
    requires AllDecided(t, outcomes)
    ensures PendingForAct(t, outcomes) <==> OpenQuote(t, outcomes)
  {
    if PendingForAct(t, outcomes) {
      var i, j :| 0 <= i < |t| && 0 <= j < |StepsOf(t[i])| && Gated(StepsOf(t[i])[j].kind) && !Decided(outcomes, i, j);
      assert !Reportable(StepsOf(t[i])[j].kind);
    }
  }

  /** The concrete case: one window step and one quote draft; applying the window settles the row. */
  lemma ReportSettlesWithOpenQuote()
    ensures var steps := [Step(ProjectOps, 0, None, false, None, false), Step(QuoteDraft, 1, None, false, None, false)];
      var row := Row(WaitingForApproval, [UserTurn(""), AgentTurn(steps, 0)], []);
      var after := RecordOutcome(row, 1, 0, Applied).0;
      after.state == Succeeded && OpenQuote(after.transcript, after.outcomes)
  {
    var steps := [Step(ProjectOps, 0, None, false, None, false), Step(QuoteDraft, 1, None, false, None, false)];
    var row := Row(WaitingForApproval, [UserTurn(""), AgentTurn(steps, 0)], []);
    var outcomes := [Outcome(1, 0, Applied, None)];
    assert StepAt(row.transcript, 1, 0) == Some(steps[0]);
    assert outcomes[0].action == Applied;
    assert Has(outcomes, 1, 0, Applied);
    assert AllDecided(row.transcript, outcomes);
    assert RecordOutcome(row, 1, 0, Applied).0.outcomes == outcomes;
    assert StepsOf(row.transcript[1])[1].kind.QuoteDraft? && !Decided(outcomes, 1, 1);
  }

  /** A report never contradicts a decision, never repeats itself and never undoes what was not applied. */
  lemma ReportIsFirstDecision(row: Row, turn: int, step: int, action: Action)
    requires RecordOutcome(row, turn, step, action).1 == Recorded
    ensures !Has(row.outcomes, turn, step, action)
    ensures action in {Applied, Declined} ==>
      !Has(row.outcomes, turn, step, Applied) && !Has(row.outcomes, turn, step, Declined)
    ensures action == Undone ==> Has(row.outcomes, turn, step, Applied)
    ensures RecordOutcome(RecordOutcome(row, turn, step, action).0, turn, step, action)
         == (RecordOutcome(row, turn, step, action).0, Repeated)
  {
    var after := RecordOutcome(row, turn, step, action).0;
    assert after.outcomes[|row.outcomes|] == Outcome(turn, step, action, None);
    assert Has(after.outcomes, turn, step, action);
    if action == Undone {
      var k :| 0 <= k < |row.outcomes| && row.outcomes[k].turn == turn && row.outcomes[k].step == step
        && row.outcomes[k].action == Applied;
      assert after.outcomes[k] == row.outcomes[k];
    }
  }

  /** Errors are counted over the whole transcript: the third one is terminal. */
  lemma FailureCountsErrors(row: Row, before: Transcript, goal: string, code: string)
    requires RecordFailure(row, before, goal, code).1
    ensures var after := RecordFailure(row, before, goal, code).0;
      ErrorTurns(after.transcript) == ErrorTurns(row.transcript) + 1
      && (after.state == Failed <==> ErrorTurns(row.transcript) >= 2)
      && after.state in {Failed, FailedRetryable}
  {
    var turns := FailureTurns(goal, code);
    ErrorTurnsAppend(row.transcript, turns);
    assert turns[..1] == [turns[0]];
    assert ErrorTurns(turns[..1]) == 0 by { assert turns[..1][..0] == []; }
    assert ErrorTurns(turns) == 1;
  }

  lemma FirstFailureCountsOne(goal: string, code: string)
    ensures ErrorTurns(FailureTurns(goal, code)) == 1
  {
    var turns := FailureTurns(goal, code);
    assert turns[..1] == [turns[0]];
    assert ErrorTurns(turns[..1]) == 0 by { assert turns[..1][..0] == []; }
  }
}
