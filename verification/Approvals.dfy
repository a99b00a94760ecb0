/** One approval of the prepared set (`copilot_views.py`): which steps of the latest round it applies and the
    outcomes it appends. The quote drafts follow in a second pass, after the windows are stored. */
module Approvals {
  import opened Basics
  import opened JobTypes
  import opened JobUpdates
  import opened AgentRounds

  /** One step under one pass; `quotes` selects the second pass. The entry is absent when the step is left alone. */
  function ApproveStep(s: Step, decided: bool, v: Verdict, quotes: bool): (Step, Option<(Action, Option<nat>)>) {
    if s.applied.Some? || decided || s.kind.QuoteDraft? != quotes then (s, None)
    else if quotes then
      match v {
        case Saved(receipt) => (s.(applied := Some(receipt), applyError := false), Some((Applied, None)))
        case Refused => (s.(applyError := true), Some((ApplyFailed, None)))
      }
    else if s.kind.Delegate? then (s.(applied := Some(SpawnReceipt(v))), Some((Applied, None)))
    else if !Reversible(s.kind) then (s, None)
    else
      match v {
        case Saved(receipt) =>
          (s.(applied := Some(receipt)), Some((Applied, if s.kind.ProjectOps? then receipt.operation else None)))
        case Refused => (s.(applyError := true), Some((ApplyFailed, None)))
      }
  }

  /** What one approval request read before it started. */
  datatype Approval = Approval(transcript: Transcript, outcomes: seq<Outcome>)

  function ApproveAt(a: Approval, turn: nat, i: nat, verdicts: seq<Verdict>, quotes: bool)
    : (Step, Option<(Action, Option<nat>)>)
    requires turn < |a.transcript| && i < |StepsOf(a.transcript[turn])|
  {
    ApproveStep(StepsOf(a.transcript[turn])[i], Decided(a.outcomes, turn, i), VerdictAt(verdicts, i), quotes)
  }

  function ApprovedSteps(a: Approval, turn: nat, verdicts: seq<Verdict>, quotes: bool): seq<Step>
    requires turn < |a.transcript|
  {
    var steps := StepsOf(a.transcript[turn]);
    seq(|steps|, i requires 0 <= i < |steps| => ApproveAt(a, turn, i, verdicts, quotes).0)
  }

  function ApprovalMarks(a: Approval, turn: nat, verdicts: seq<Verdict>, quotes: bool): seq<Option<Outcome>>
    requires turn < |a.transcript|
  {
    var steps := StepsOf(a.transcript[turn]);
    seq(|steps|, i requires 0 <= i < |steps| =>
      match ApproveAt(a, turn, i, verdicts, quotes).1
      case None => None
      case Some((action, operation)) => Some(Outcome(turn, i, action, operation)))
  }

  function ApprovalOutcomes(a: Approval, turn: nat, verdicts: seq<Verdict>, quotes: bool): seq<Outcome>
    requires turn < |a.transcript|
  {
    Collect(ApprovalMarks(a, turn, verdicts, quotes))
  }

  /** The transcript a pass stores, and its entries; no entry means nothing is stored. */
  function Approve(a: Approval, verdicts: seq<Verdict>, quotes: bool): (Transcript, seq<Outcome>) {
    var turn := LatestAgent(a.transcript);
    if turn < 0 then (a.transcript, [])
    else
      (a.transcript[turn := a.transcript[turn].(steps := ApprovedSteps(a, turn, verdicts, quotes))],
       ApprovalOutcomes(a, turn, verdicts, quotes))
  }

  /** The approval's loop over the steps of the latest round. */
  method ApplySteps(a: Approval, turn: nat, verdicts: seq<Verdict>, quotes: bool)
    returns (steps: seq<Step>, entries: seq<Outcome>)
    requires turn < |a.transcript|
    ensures steps == ApprovedSteps(a, turn, verdicts, quotes)
    ensures entries == ApprovalOutcomes(a, turn, verdicts, quotes)
  {
    steps, entries := StepsOf(a.transcript[turn]), [];
    ghost var marks := ApprovalMarks(a, turn, verdicts, quotes);
    for i := 0 to |StepsOf(a.transcript[turn])|
      invariant |steps| == |StepsOf(a.transcript[turn])|
      invariant forall k | i <= k < |steps| :: steps[k] == StepsOf(a.transcript[turn])[k]
      invariant forall k | 0 <= k < i :: steps[k] == ApprovedSteps(a, turn, verdicts, quotes)[k]
      invariant entries == Collect(marks[..i])
    {
      assert marks[..i + 1][..i] == marks[..i];
      var decided := Decided(a.outcomes, turn, i);
      var (step, entry) := ApproveStep(steps[i], decided, VerdictAt(verdicts, i), quotes);
      steps := steps[i := step];
      match entry {
        case None =>
        case Some((action, operation)) => entries := entries + [Outcome(turn, i, action, operation)];
      }
    }
    assert marks[..|steps|] == marks;
  }

  /** A pass changes apply marks only. */
  lemma ApprovalKeepsTurns(a: Approval, verdicts: seq<Verdict>, quotes: bool)
    ensures var t := Approve(a, verdicts, quotes).0;
      |t| == |a.transcript| && Grows(a.transcript, t)
  {
    var turn := LatestAgent(a.transcript);
    var t := Approve(a, verdicts, quotes).0;
    forall i | 0 <= i < |t| ensures BareTurn(a.transcript[i]) == BareTurn(t[i]) {
      if i == turn {
        var x, y := BareTurn(a.transcript[i]), BareTurn(t[i]);
        forall j | 0 <= j < |x.steps| ensures x.steps[j] == y.steps[j] {
          assert BareStep(ApproveAt(a, turn, j, verdicts, quotes).0) == BareStep(StepsOf(a.transcript[turn])[j]);
        }
        assert x.steps == y.steps;
      }
    }
  }

  /** The entries of a pass: on distinct gated steps of the read transcript that had no decision. */
  ghost predicate DecidesFreshSteps(entries: seq<Outcome>, a: Approval) {
    forall k | 0 <= k < |entries| ::
      entries[k].action in {Applied, ApplyFailed}
      && StepAt(a.transcript, entries[k].turn, entries[k].step).Some?
      && Gated(StepAt(a.transcript, entries[k].turn, entries[k].step).value.kind)
      && !Decided(a.outcomes, entries[k].turn, entries[k].step)
  }

  lemma ApprovalDecidesFreshSteps(a: Approval, verdicts: seq<Verdict>, quotes: bool)
    ensures DecidesFreshSteps(Approve(a, verdicts, quotes).1, a)
    ensures StepsDiffer(Approve(a, verdicts, quotes).1)
    ensures forall k | 0 <= k < |Approve(a, verdicts, quotes).1| ::
      Approve(a, verdicts, quotes).1[k].turn == LatestAgent(a.transcript)
  {
    var turn := LatestAgent(a.transcript);
    if turn >= 0 {
      var marks := ApprovalMarks(a, turn, verdicts, quotes);
      CollectedSteps(marks);
      var entries := Collect(marks);
      forall k | 0 <= k < |entries|
        ensures entries[k].turn == turn
        ensures DecidesFreshSteps([entries[k]], a)
      {
        assert marks[entries[k].step] == Some(entries[k]);
      }
      forall k | 0 <= k < |entries|
        ensures entries[k].action in {Applied, ApplyFailed}
          && StepAt(a.transcript, entries[k].turn, entries[k].step).Some?
          && Gated(StepAt(a.transcript, entries[k].turn, entries[k].step).value.kind)
          && !Decided(a.outcomes, entries[k].turn, entries[k].step)
      {
        assert DecidesFreshSteps([entries[k]], a);
        assert [entries[k]][0] == entries[k];
      }
    }
  }

  /** The second pass sees the same quote drafts the request found at the start: the first pass neither marks
      one nor decides one. */
  lemma QuotesUntouchedByFirstPass(a: Approval, verdicts: seq<Verdict>, turn: nat, i: nat)
    requires turn == LatestAgent(a.transcript) && turn < |a.transcript| && i < |StepsOf(a.transcript[turn])|
    requires StepsOf(a.transcript[turn])[i].kind.QuoteDraft?
    ensures var (t, entries) := Approve(a, verdicts, false);
      StepsOf(t[turn])[i] == StepsOf(a.transcript[turn])[i]
      && (Decided(a.outcomes + entries, turn, i) <==> Decided(a.outcomes, turn, i))
  {
    var (t, entries) := Approve(a, verdicts, false);
    var marks := ApprovalMarks(a, turn, verdicts, false);
    CollectedSteps(marks);
    forall k | 0 <= k < |entries| ensures entries[k].step != i {
      assert marks[entries[k].step] == Some(entries[k]);
    }
    forall action: Action
      ensures Has(a.outcomes + entries, turn, i, action) <==> Has(a.outcomes, turn, i, action)
    {
      HasAppend(a.outcomes, entries, turn, i, action);
    }
  }
}
