/** The stored shape of one `ai_jobs` row: its state, its transcript and its outcomes. */
module JobTypes {
  import opened Basics

  datatype JobState =
    | Queued | Planning | Running
    | WaitingForUser | WaitingForApproval
    | FailedRetryable | Failed | Succeeded | Canceled

  /** A run is pending or in progress. */
  predicate Live(s: JobState) {
    s in {Queued, Planning, Running}
  }

  predicate Terminal(s: JobState) {
    s in {Succeeded, Failed, Canceled}
  }

  /** The states a follow-up may start from. */
  predicate Resumable(s: JobState) {
    s in {WaitingForUser, WaitingForApproval, FailedRetryable, Succeeded}
  }

  datatype StepKind =
    | Ops | BatchOps | Prepare | ProjectOps | DocumentLayout | Interface | Delegate | QuoteDraft | Other

  /** The kinds that wait for a decision, as `act`, `store_approval` and the receipt list them. */
  predicate Gated(kind: StepKind) {
    !kind.Other?
  }

  /** The kinds `record_outcome` knows: the gated ones without the quote draft. */
  predicate Reportable(kind: StepKind) {
    Gated(kind) && !kind.QuoteDraft?
  }

  /** The kinds saved through an undoable service. */
  predicate Reversible(kind: StepKind) {
    kind in {ProjectOps, DocumentLayout, Interface}
  }

  /** What applying a step returned; `previous` and `saved` are interface preferences. */
  datatype Receipt = Receipt(project: Option<nat>, operation: Option<nat>, previous: Option<nat>, saved: nat)

  datatype Step = Step(
    kind: StepKind,
    content: nat,
    simulated: Option<nat>,
    applyRequested: bool,
    applied: Option<Receipt>,
    applyError: bool)

  datatype Turn =
    | UserTurn(text: string)
    | AgentTurn(steps: seq<Step>, body: nat)
    | ErrorTurn(code: string)

  type Transcript = seq<Turn>

  datatype Action = Applied | Declined | ApplyFailed | Undone

  datatype Outcome = Outcome(turn: int, step: int, action: Action, operation: Option<nat>)

  datatype Row = Row(state: JobState, transcript: Transcript, outcomes: seq<Outcome>)

  function StepsOf(turn: Turn): seq<Step> {
    match turn
    case AgentTurn(steps, _) => steps
    case _ => []
  }

  function StepAt(t: Transcript, turn: int, step: int): Option<Step> {
    if 0 <= turn < |t| && 0 <= step < |StepsOf(t[turn])| then Some(StepsOf(t[turn])[step]) else None
  }

  /** A step with the marks an approval may write on it erased. */
  function BareStep(s: Step): Step {
    s.(applied := None, applyError := false)
  }

  function BareTurn(t: Turn): Turn {
    match t
    case AgentTurn(steps, body) =>
      AgentTurn(seq(|steps|, i requires 0 <= i < |steps| => BareStep(steps[i])), body)
    case _ => t
  }

  /** `after` keeps every turn of `before`, up to apply marks, and may add turns at the end. */
  predicate Grows(before: Transcript, after: Transcript) {
    |before| <= |after| && forall i | 0 <= i < |before| :: BareTurn(before[i]) == BareTurn(after[i])
  }

  lemma GrowsAppend(t: Transcript, more: Transcript)
    ensures Grows(t, t + more)
  {
    forall i | 0 <= i < |t| ensures BareTurn(t[i]) == BareTurn((t + more)[i]) {
      assert (t + more)[i] == t[i];
    }
  }

  lemma GrowsTransitive(a: Transcript, b: Transcript, c: Transcript)
    requires Grows(a, b) && Grows(b, c)
    ensures Grows(a, c)
  {
  }

  /** Growth keeps every step in place with its kind. */
  lemma GrowsKeepsSteps(a: Transcript, b: Transcript, turn: int, step: int)
    requires Grows(a, b) && StepAt(a, turn, step).Some?
    ensures StepAt(b, turn, step).Some?
    ensures StepAt(b, turn, step).value.kind == StepAt(a, turn, step).value.kind
  {
    assert BareTurn(a[turn]) == BareTurn(b[turn]);
    assert BareTurn(a[turn]).steps[step] == BareStep(a[turn].steps[step]);
    assert BareTurn(b[turn]).steps[step] == BareStep(b[turn].steps[step]);
  }

  function ErrorTurns(t: Transcript): nat {
    if t == [] then 0 else ErrorTurns(t[..|t| - 1]) + if t[|t| - 1].ErrorTurn? then 1 else 0
  }

  lemma {:induction false} ErrorTurnsAppend(a: Transcript, b: Transcript)
    ensures ErrorTurns(a + b) == ErrorTurns(a) + ErrorTurns(b)
  {
    if b == [] {
      assert a + b == a;
    } else {
      assert (a + b)[..|a + b| - 1] == a + b[..|b| - 1];
      ErrorTurnsAppend(a, b[..|b| - 1]);
    }
  }

  lemma {:induction false} GrowsKeepsErrors(a: Transcript, b: Transcript)
    requires Grows(a, b) && |a| == |b|
    ensures ErrorTurns(a) == ErrorTurns(b)
  {
    if a == [] {
    } else {
      var n := |a| - 1;
      assert BareTurn(a[n]) == BareTurn(b[n]);
      GrowsKeepsErrors(a[..n], b[..n]);
    }
  }
}
