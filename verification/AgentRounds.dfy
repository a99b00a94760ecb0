/** One agent round (`agent.py`): which drafts are saved, the outcomes they leave and the state the job settles in. */
module AgentRounds {
  import opened Basics
  import opened JobTypes
  import opened JobUpdates

  /** A step the model proposed, validated and not applied yet. */
  datatype Proposal = Proposal(kind: StepKind, content: nat, simulated: Option<nat>, applyRequested: bool)

  /** What the domain service answered when a step was applied. */
  datatype Verdict = Saved(receipt: Receipt) | Refused

  const NO_RECEIPT := Receipt(None, None, None, 0)

  function VerdictAt(verdicts: seq<Verdict>, i: nat): Verdict {
    if i < |verdicts| then verdicts[i] else Refused
  }

  /** The model's answer after validation; `executes`: drafts may be saved in this run. */
  datatype Draft = Draft(
    goal: string,
    executes: bool,
    proposals: seq<Proposal>,
    verdicts: seq<Verdict>,
    questions: bool,
    clarify: bool,
    rejected: bool,
    openQuoteArtifact: bool,
    body: nat)

  function Unapplied(p: Proposal): Step {
    Step(p.kind, p.content, p.simulated, p.applyRequested, None, false)
  }

  /** Spawning subtasks never refuses inside a run that goes on: a failure there fails the whole round. */
  function SpawnReceipt(v: Verdict): Receipt {
    if v.Saved? then v.receipt else NO_RECEIPT
  }

  function SaveDraft(p: Proposal, v: Verdict, executes: bool): Step {
    var s := Unapplied(p);
    if !executes || !p.applyRequested then s
    else if p.kind.Delegate? then s.(applied := Some(SpawnReceipt(v)))
    else if !Reversible(p.kind) then s
    else if v.Saved? then s.(applied := Some(v.receipt))
    else s.(applyError := true)
  }

  function DraftEntry(p: Proposal, v: Verdict, executes: bool, turn: nat, step: nat, delegates: bool): Option<Outcome> {
    if SaveDraft(p, v, executes).applied.None? || p.kind.Delegate? != delegates then None
    else Some(Outcome(turn, step, Applied, if p.kind.ProjectOps? then v.receipt.operation else None))
  }

  function SavedSteps(d: Draft): seq<Step> {
    seq(|d.proposals|, i requires 0 <= i < |d.proposals| => SaveDraft(d.proposals[i], VerdictAt(d.verdicts, i), d.executes))
  }

  function DraftMarks(d: Draft, turn: nat, delegates: bool): seq<Option<Outcome>> {
    seq(|d.proposals|, i requires 0 <= i < |d.proposals| =>
      DraftEntry(d.proposals[i], VerdictAt(d.verdicts, i), d.executes, turn, i, delegates))
  }

  /** Subtasks first, then the reversible changes. */
  function DraftOutcomes(d: Draft, turn: nat): seq<Outcome> {
    Collect(DraftMarks(d, turn, true)) + Collect(DraftMarks(d, turn, false))
  }

  predicate Unsaved(steps: seq<Step>) {
    exists j | 0 <= j < |steps| :: Gated(steps[j].kind) && steps[j].applied.None?
  }

  /** Questions come first; then anything still waiting for a decision, of this round or of an earlier one. */
  function SettleState(claimed: Row, d: Draft): JobState {
    if d.questions || d.clarify || (d.rejected && d.proposals == []) then WaitingForUser
    else if PendingForAct(claimed.transcript, claimed.outcomes) || Unsaved(SavedSteps(d)) || d.openQuoteArtifact then
      WaitingForApproval
    else Succeeded
  }

  datatype Round = Round(turns: Transcript, outcomes: seq<Outcome>, state: JobState)

  /** The turns a round appends to the transcript it claimed, and what it records. */
  function Act(claimed: Row, d: Draft): Round {
    Round([UserTurn(Take(d.goal, MAX_GOAL)), AgentTurn(SavedSteps(d), d.body)],
          DraftOutcomes(d, |claimed.transcript| + 1),
          SettleState(claimed, d))
  }

  /** The pass that spawns the requested subtasks. */
  method SaveSubtasks(d: Draft, turn: nat) returns (steps: seq<Step>, outcomes: seq<Outcome>)
    requires d.executes
    ensures outcomes == Collect(DraftMarks(d, turn, true))
    ensures |steps| == |d.proposals|
    ensures forall k | 0 <= k < |steps| ::
      (d.proposals[k].kind.Delegate? ==> steps[k] == SavedSteps(d)[k])
      && (!d.proposals[k].kind.Delegate? ==> steps[k] == Unapplied(d.proposals[k]))
  {
    steps := seq(|d.proposals|, i requires 0 <= i < |d.proposals| => Unapplied(d.proposals[i]));
    outcomes := [];
    ghost var marks := DraftMarks(d, turn, true);
    for i := 0 to |d.proposals|
      invariant |steps| == |d.proposals|
      invariant outcomes == Collect(marks[..i])
      invariant forall k | i <= k < |steps| :: steps[k] == Unapplied(d.proposals[k])
      invariant forall k | 0 <= k < i ::
        (d.proposals[k].kind.Delegate? ==> steps[k] == SavedSteps(d)[k])
        && (!d.proposals[k].kind.Delegate? ==> steps[k] == Unapplied(d.proposals[k]))
    {
      assert marks[..i + 1][..i] == marks[..i];
      var p := d.proposals[i];
      if p.kind.Delegate? && p.applyRequested {
        steps := steps[i := steps[i].(applied := Some(SpawnReceipt(VerdictAt(d.verdicts, i))))];
        outcomes := outcomes + [Outcome(turn, i, Applied, None)];
      }
    }
    assert marks[..|d.proposals|] == marks;
  }

  /** The pass that saves the requested reversible changes; a refusal stays on its step and is not recorded. */
  method SaveChanges(d: Draft, turn: nat, before: seq<Step>) returns (steps: seq<Step>, outcomes: seq<Outcome>)
    requires d.executes && |before| == |d.proposals|
    requires forall k | 0 <= k < |before| ::
      (d.proposals[k].kind.Delegate? ==> before[k] == SavedSteps(d)[k])
      && (!d.proposals[k].kind.Delegate? ==> before[k] == Unapplied(d.proposals[k]))
    ensures outcomes == Collect(DraftMarks(d, turn, false))
    ensures steps == SavedSteps(d)
  {
    steps, outcomes := before, [];
    ghost var marks := DraftMarks(d, turn, false);
    for i := 0 to |d.proposals|
      invariant |steps| == |d.proposals|
      invariant outcomes == Collect(marks[..i])
      invariant forall k | i <= k < |steps| :: steps[k] == before[k]
      invariant forall k | 0 <= k < i :: steps[k] == SavedSteps(d)[k]
    {
      assert marks[..i + 1][..i] == marks[..i];
      var p := d.proposals[i];
      if Reversible(p.kind) && p.applyRequested {
        match VerdictAt(d.verdicts, i) {
          case Saved(receipt) =>
            steps := steps[i := steps[i].(applied := Some(receipt))];
            outcomes := outcomes + [Outcome(turn, i, Applied, if p.kind.ProjectOps? then receipt.operation else None)];
          case Refused =>
            steps := steps[i := steps[i].(applyError := true)];
        }
      }
    }
    assert marks[..|d.proposals|] == marks;
  }

  /** Subtasks first, then reversible changes; nothing at all when the run may not save. */
  method SaveDrafts(d: Draft, turn: nat) returns (steps: seq<Step>, outcomes: seq<Outcome>)
    ensures steps == SavedSteps(d)
    ensures outcomes == DraftOutcomes(d, turn)
  {
    if !d.executes {
      steps := seq(|d.proposals|, i requires 0 <= i < |d.proposals| => Unapplied(d.proposals[i]));
      outcomes := [];
      NothingSaved(d, turn);
      return;
    }
    var spawned;
    steps, spawned := SaveSubtasks(d, turn);
    var changed;
    steps, changed := SaveChanges(d, turn, steps);
    outcomes := spawned + changed;
  }

  lemma NothingSaved(d: Draft, turn: nat)
    requires !d.executes
    ensures DraftOutcomes(d, turn) == []
  {
    CollectNones(DraftMarks(d, turn, true));
    CollectNones(DraftMarks(d, turn, false));
  }

  lemma {:induction false} CollectNones<T>(s: seq<Option<T>>)
    requires forall i | 0 <= i < |s| :: s[i].None?
    ensures Collect(s) == []
  {
    if s != [] {
      CollectNones(s[..|s| - 1]);
    }
  }

  /** Marks that name their own index. */
  ghost predicate OwnIndex(marks: seq<Option<Outcome>>) {
    forall i | 0 <= i < |marks| :: marks[i].Some? ==> marks[i].value.step == i
  }

  ghost predicate FromMarks(c: seq<Outcome>, marks: seq<Option<Outcome>>) {
    forall k | 0 <= k < |c| :: 0 <= c[k].step < |marks| && marks[c[k].step] == Some(c[k])
  }

  ghost predicate StepsIncrease(c: seq<Outcome>) {
    forall k, l | 0 <= k < l < |c| :: c[k].step < c[l].step
  }

  /** Entries collected from such marks come in strictly increasing step order. */
  lemma {:induction false} CollectedSteps(marks: seq<Option<Outcome>>)
    requires OwnIndex(marks)
    ensures FromMarks(Collect(marks), marks) && StepsIncrease(Collect(marks))
  {
    if marks != [] {
      var n := |marks| - 1;
      var before := Collect(marks[..n]);
      CollectedSteps(marks[..n]);
      var c := Collect(marks);
      assert c == before + if marks[n].Some? then [marks[n].value] else [];
      forall k | 0 <= k < |c| ensures 0 <= c[k].step < |marks| && marks[c[k].step] == Some(c[k]) {
        if k < |before| {
          assert c[k] == before[k] && marks[..n][before[k].step] == Some(before[k]);
        }
      }
    }
  }

  lemma {:induction false} CollectFinds<T>(marks: seq<Option<T>>, i: nat)
    requires i < |marks| && marks[i].Some?
    ensures marks[i].value in Collect(marks)
  {
    var n := |marks| - 1;
    if i < n {
      CollectFinds(marks[..n], i);
      assert marks[..n][i] == marks[i];
    }
  }

  /** The outcomes of a round: each one «applied» on a saved gated step of that turn. */
  ghost predicate NamesSavedSteps(c: seq<Outcome>, steps: seq<Step>, turn: nat) {
    forall k | 0 <= k < |c| :: c[k].turn == turn && c[k].action == Applied
      && 0 <= c[k].step < |steps| && Gated(steps[c[k].step].kind) && steps[c[k].step].applied.Some?
  }

  ghost predicate StepsDiffer(c: seq<Outcome>) {
    forall k, l | 0 <= k < l < |c| :: c[k].step != c[l].step
  }

  lemma PassNamesSavedSteps(d: Draft, turn: nat, delegates: bool)
    ensures var c := Collect(DraftMarks(d, turn, delegates));
      NamesSavedSteps(c, SavedSteps(d), turn) && StepsIncrease(c)
      && forall k | 0 <= k < |c| :: SavedSteps(d)[c[k].step].kind.Delegate? == delegates
  {
    var marks := DraftMarks(d, turn, delegates);
    CollectedSteps(marks);
    var c := Collect(marks);
    forall k | 0 <= k < |c|
      ensures c[k].turn == turn && c[k].action == Applied && 0 <= c[k].step < |SavedSteps(d)|
      ensures SavedSteps(d)[c[k].step].applied.Some? && Gated(SavedSteps(d)[c[k].step].kind)
      ensures SavedSteps(d)[c[k].step].kind.Delegate? == delegates
    {
      assert marks[c[k].step] == Some(c[k]);
    }
  }

  lemma SavedStepIsRecorded(d: Draft, turn: nat, j: nat)
    requires j < |SavedSteps(d)| && SavedSteps(d)[j].applied.Some?
    ensures Has(DraftOutcomes(d, turn), turn, j, Applied)
  {
    var delegates := d.proposals[j].kind.Delegate?;
    var marks := DraftMarks(d, turn, delegates);
    CollectFinds(marks, j);
    var c := DraftOutcomes(d, turn);
    assert marks[j].value in c;
    var k :| 0 <= k < |c| && c[k] == marks[j].value;
  }

  /** A round's outcomes say exactly which of its steps were saved: one «applied» per saved step, none else. */
  lemma OutcomesMatchSavedSteps(d: Draft, turn: nat)
    ensures NamesSavedSteps(DraftOutcomes(d, turn), SavedSteps(d), turn)
    ensures StepsDiffer(DraftOutcomes(d, turn))
    ensures forall j | 0 <= j < |SavedSteps(d)| && SavedSteps(d)[j].applied.Some? ::
      Has(DraftOutcomes(d, turn), turn, j, Applied)
  {
    PassNamesSavedSteps(d, turn, true);
    PassNamesSavedSteps(d, turn, false);
    forall j | 0 <= j < |SavedSteps(d)| && SavedSteps(d)[j].applied.Some?
      ensures Has(DraftOutcomes(d, turn), turn, j, Applied)
    {
      SavedStepIsRecorded(d, turn, j);
    }
  }

  lemma HasAppend(a: seq<Outcome>, b: seq<Outcome>, turn: int, step: int, action: Action)
    ensures Has(a + b, turn, step, action) <==> Has(a, turn, step, action) || Has(b, turn, step, action)
  {
    if Has(a, turn, step, action) {
      var i :| 0 <= i < |a| && a[i].turn == turn && a[i].step == step && a[i].action == action;
      assert (a + b)[i] == a[i];
    }
    if Has(b, turn, step, action) {
      var i :| 0 <= i < |b| && b[i].turn == turn && b[i].step == step && b[i].action == action;
      assert (a + b)[|a| + i] == b[i];
    }
  }

  /** Approvals are sticky: a round that settles as SUCCEEDED leaves no gated step of the whole transcript
      undecided, its own steps included. */
  lemma SucceededLeavesNothingPending(claimed: Row, d: Draft)
    requires Act(claimed, d).state == Succeeded
    ensures !PendingForAct(claimed.transcript + Act(claimed, d).turns, claimed.outcomes + Act(claimed, d).outcomes)
  {
    var r := Act(claimed, d);
    var t, outcomes := claimed.transcript + r.turns, claimed.outcomes + r.outcomes;
    forall i, j | 0 <= i < |t| && 0 <= j < |StepsOf(t[i])| && Gated(StepsOf(t[i])[j].kind)
      ensures Decided(outcomes, i, j)
    {
      HasAppend(claimed.outcomes, r.outcomes, i, j, Applied);
      HasAppend(claimed.outcomes, r.outcomes, i, j, Declined);
      HasAppend(claimed.outcomes, r.outcomes, i, j, Undone);
      if i < |claimed.transcript| {
        assert t[i] == claimed.transcript[i];
        assert Decided(claimed.outcomes, i, j);
      } else {
        assert t[i] == r.turns[i - |claimed.transcript|];
        assert i == |claimed.transcript| + 1;
        assert SavedSteps(d)[j].applied.Some?;
        SavedStepIsRecorded(d, i, j);
      }
    }
  }
}
