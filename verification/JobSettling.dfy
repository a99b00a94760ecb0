/** What SUCCEEDED says about the steps of a job: when an approval settles it too early or leaves it waiting for
    nothing, and what a settled row has decided over whole runs. */
module JobSettling {
  import opened Basics
  import opened JobTypes
  import opened JobUpdates
  import opened AgentRounds
  import opened Approvals
  import opened JobProtocol
  import opened JobSafety
  import opened JobOrderly
  import opened JobOutcomes

  /** A gated step without a decision; `quotes` tells whether quote drafts count, as they do for `act` but not for a
      report. */
  predicate OpenAt(t: Transcript, outcomes: seq<Outcome>, i: int, j: int, quotes: bool) {
    && 0 <= i < |t| && 0 <= j < |StepsOf(t[i])|
    && Gated(StepsOf(t[i])[j].kind) && (quotes || !StepsOf(t[i])[j].kind.QuoteDraft?)
    && !Decided(outcomes, i, j)
  }

  ghost predicate Open(t: Transcript, outcomes: seq<Outcome>, quotes: bool) {
    exists i, j :: OpenAt(t, outcomes, i, j, quotes)
  }

  /** Some round before the latest one has such a step. */
  ghost predicate EarlierOpen(t: Transcript, outcomes: seq<Outcome>, quotes: bool) {
    exists i, j :: i < LatestAgent(t) && OpenAt(t, outcomes, i, j, quotes)
  }

  lemma OpenIsPending(t: Transcript, outcomes: seq<Outcome>)
    ensures Open(t, outcomes, true) <==> PendingForAct(t, outcomes)
    ensures Open(t, outcomes, false) <==> !AllDecided(t, outcomes)
  {
    if PendingForAct(t, outcomes) {
      var i, j :| 0 <= i < |t| && 0 <= j < |StepsOf(t[i])| && Gated(StepsOf(t[i])[j].kind) && !Decided(outcomes, i, j);
      assert OpenAt(t, outcomes, i, j, true);
    }
    if !AllDecided(t, outcomes) {
      var i, j :| 0 <= i < |t| && 0 <= j < |StepsOf(t[i])| && Reportable(StepsOf(t[i])[j].kind)
        && !Decided(outcomes, i, j);
      assert OpenAt(t, outcomes, i, j, false);
    }
  }

  // ---------------------------------------------------------------- apply marks are recorded

  /** A step that carries the mark of an apply was recorded as applied. */
  ghost predicate MarksRecorded(t: Transcript, outcomes: seq<Outcome>) {
    forall i, j | 0 <= i < |t| && 0 <= j < |StepsOf(t[i])| && StepsOf(t[i])[j].applied.Some? ::
      Has(outcomes, i, j, Applied)
  }

  lemma HasGrows(before: seq<Outcome>, after: seq<Outcome>, i: int, j: int, action: Action)
    requires before <= after && Has(before, i, j, action)
    ensures Has(after, i, j, action)
  {
    var k :| 0 <= k < |before| && before[k].turn == i && before[k].step == j && before[k].action == action;
    assert after[k] == before[k];
  }

  lemma DecidedGrows(before: seq<Outcome>, after: seq<Outcome>, i: int, j: int)
    requires before <= after && Decided(before, i, j)
    ensures Decided(after, i, j)
  {
    var action :| action in {Applied, Declined, Undone} && Has(before, i, j, action);
    HasGrows(before, after, i, j, action);
  }

  lemma MarksSurvive(t: Transcript, before: seq<Outcome>, after: seq<Outcome>)
    requires MarksRecorded(t, before) && before <= after
    ensures MarksRecorded(t, after)
  {
    forall i, j | 0 <= i < |t| && 0 <= j < |StepsOf(t[i])| && StepsOf(t[i])[j].applied.Some?
      ensures Has(after, i, j, Applied)
    {
      HasGrows(before, after, i, j, Applied);
    }
  }

  /** A pass that marks a step records it. */
  lemma NewMarkIsRecorded(a: Approval, turn: nat, j: nat, verdicts: seq<Verdict>, quotes: bool)
    requires turn < |a.transcript| && j < |StepsOf(a.transcript[turn])|
    requires StepsOf(a.transcript[turn])[j].applied.None?
    requires ApproveAt(a, turn, j, verdicts, quotes).0.applied.Some?
    ensures Has(ApprovalOutcomes(a, turn, verdicts, quotes), turn, j, Applied)
  {
    var marks := ApprovalMarks(a, turn, verdicts, quotes);
    assert marks[j].Some? && marks[j].value.action == Applied;
    CollectFinds(marks, j);
    var c := Collect(marks);
    var k :| 0 <= k < |c| && c[k] == marks[j].value;
  }

  lemma ApprovalRecordsMarks(a: Approval, verdicts: seq<Verdict>, quotes: bool)
    requires MarksRecorded(a.transcript, a.outcomes)
    ensures var (t, entries) := Approve(a, verdicts, quotes);
      MarksRecorded(t, a.outcomes + entries)
  {
    var turn := LatestAgent(a.transcript);
    var (t, entries) := Approve(a, verdicts, quotes);
    forall i, j | 0 <= i < |t| && 0 <= j < |StepsOf(t[i])| && StepsOf(t[i])[j].applied.Some?
      ensures Has(a.outcomes + entries, i, j, Applied)
    {
      HasAppend(a.outcomes, entries, i, j, Applied);
      if i == turn && StepsOf(a.transcript[i])[j].applied.None? {
        NewMarkIsRecorded(a, turn, j, verdicts, quotes);
      }
    }
  }

  lemma RoundRecordsMarks(row: Row, claimed: Row, draft: Draft)
    requires MarksRecorded(row.transcript, row.outcomes) && claimed.transcript == row.transcript
    ensures var r := Act(claimed, draft);
      MarksRecorded(row.transcript + r.turns, row.outcomes + r.outcomes)
  {
    var r := Act(claimed, draft);
    var t, turn := row.transcript + r.turns, |row.transcript| + 1;
    OutcomesMatchSavedSteps(draft, turn);
    forall i, j | 0 <= i < |t| && 0 <= j < |StepsOf(t[i])| && StepsOf(t[i])[j].applied.Some?
      ensures Has(row.outcomes + r.outcomes, i, j, Applied)
    {
      HasAppend(row.outcomes, r.outcomes, i, j, Applied);
      if i < |row.transcript| {
        assert t[i] == row.transcript[i];
      } else {
        assert t[i] == r.turns[i - |row.transcript|] && i == turn;
      }
    }
  }

  lemma FailureAddsNoMark(t: Transcript, outcomes: seq<Outcome>, goal: string, code: string)
    requires MarksRecorded(t, outcomes)
    ensures MarksRecorded(t + FailureTurns(goal, code), outcomes) && MarksRecorded(FailureTurns(goal, code), outcomes)
  {
    var all := t + FailureTurns(goal, code);
    forall i, j | 0 <= i < |all| && 0 <= j < |StepsOf(all[i])| && StepsOf(all[i])[j].applied.Some?
      ensures Has(outcomes, i, j, Applied)
    {
      if i < |t| {
        assert all[i] == t[i];
      }
    }
  }

  /** An event other than these leaves the transcript, in an orderly run. */
  lemma ClaimKeepsTranscript(w: World, k: WorkerId, leaseLive: bool)
    requires Disciplined(w) && Permitted(w, Claim(k, leaseLive))
    ensures Next(w, Claim(k, leaseLive)).row.transcript == w.row.transcript
  {
    if w.row.state == Canceled {
      CanceledStaysCanceled(w, Claim(k, leaseLive));
    } else {
      assert ViewCurrent(w.row, w.workers[k]);
    }
  }

  lemma FaultRecordsMarks(w: World, k: WorkerId, code: string)
    requires MarksRecorded(w.row.transcript, w.row.outcomes)
    ensures var v := RecordFaultStep(w, k, code);
      MarksRecorded(v.row.transcript, v.row.outcomes)
  {
    if k in w.workers {
      FailureAddsNoMark(w.row.transcript, w.row.outcomes, w.workers[k].goal, code);
    }
  }

  lemma ApprovalStepRecordsMarks(w: World, request: RequestId, verdicts: seq<Verdict>, quotes: bool)
    requires MarksRecorded(w.row.transcript, w.row.outcomes)
    requires ApprovalAtomic(w, StoreApproved(request, verdicts, quotes))
    ensures var v := StoreApprovedStep(w, request, verdicts, quotes);
      MarksRecorded(v.row.transcript, v.row.outcomes)
  {
    if request in w.approvals {
      ApprovalRecordsMarks(w.approvals[request], verdicts, quotes);
    }
  }

  lemma CommitRecordsMarks(w: World, k: WorkerId, draft: Draft)
    requires k in w.workers && ViewCurrent(w.row, w.workers[k])
    requires MarksRecorded(w.row.transcript, w.row.outcomes)
    ensures var v := CommitActStep(w, k, draft);
      MarksRecorded(v.row.transcript, v.row.outcomes)
  {
    if At(w, k, Acting) {
      RoundRecordsMarks(w.row, w.workers[k].claimed, draft);
    }
  }

  lemma StepRecordsMarks(w: World, e: Event)
    requires Disciplined(w) && Permitted(w, e) && MarksRecorded(w.row.transcript, w.row.outcomes)
    ensures MarksRecorded(Next(w, e).row.transcript, Next(w, e).row.outcomes)
  {
    if e.RecordFault? {
      FaultRecordsMarks(w, e.worker, e.code);
    } else if e.StoreApproved? {
      ApprovalStepRecordsMarks(w, e.request, e.verdicts, e.quotes);
    } else {
      StepGainsEntries(w, e);
      MarksSurvive(w.row.transcript, w.row.outcomes, Next(w, e).row.outcomes);
      if e.Claim? {
        ClaimKeepsTranscript(w, e.worker, e.leaseLive);
      } else if e.CommitAct? {
        if w.row.state == Canceled {
          CanceledStaysCanceled(w, e);
        } else {
          assert ViewCurrent(w.row, w.workers[e.worker]);
          CommitRecordsMarks(w, e.worker, e.draft);
        }
      } else {
        QuietTranscript(w, e);
      }
    }
  }

  // ---------------------------------------------------------------- what an approval settles

  lemma ApprovalKeepsLatest(a: Approval, verdicts: seq<Verdict>, quotes: bool)
    ensures LatestAgent(Approve(a, verdicts, quotes).0) == LatestAgent(a.transcript)
  {
    var t := Approve(a, verdicts, quotes).0;
    assert forall k | 0 <= k < |t| :: t[k].AgentTurn? == a.transcript[k].AgentTurn?;
  }

  lemma EntriesTouchTheLatest(a: Approval, verdicts: seq<Verdict>, quotes: bool, i: int, j: int)
    requires i != LatestAgent(a.transcript)
    ensures Decided(a.outcomes + Approve(a, verdicts, quotes).1, i, j) <==> Decided(a.outcomes, i, j)
  {
    var entries := Approve(a, verdicts, quotes).1;
    ApprovalDecidesFreshSteps(a, verdicts, quotes);
    forall action: Action ensures Has(a.outcomes + entries, i, j, action) <==> Has(a.outcomes, i, j, action) {
      HasAppend(a.outcomes, entries, i, j, action);
    }
  }

  /** The steps an approval leaves open once its latest round carries all its marks are those earlier rounds had open. */
  lemma FullyMarkedLeavesEarlier(a: Approval, verdicts: seq<Verdict>, quotes: bool, kinds: bool)
    requires MarksRecorded(a.transcript, a.outcomes)
    requires !JobUpdates.Waiting(Approve(a, verdicts, quotes).0)
    ensures var (t, entries) := Approve(a, verdicts, quotes);
      Open(t, a.outcomes + entries, kinds) <==> EarlierOpen(a.transcript, a.outcomes, kinds)
  {
    var (t, entries) := Approve(a, verdicts, quotes);
    var turn := LatestAgent(a.transcript);
    ApprovalKeepsLatest(a, verdicts, quotes);
    ApprovalRecordsMarks(a, verdicts, quotes);
    if Open(t, a.outcomes + entries, kinds) {
      var i, j :| OpenAt(t, a.outcomes + entries, i, j, kinds);
      assert i <= turn;
      assert i != turn;
      EntriesTouchTheLatest(a, verdicts, quotes, i, j);
      assert OpenAt(a.transcript, a.outcomes, i, j, kinds);
    }
    if EarlierOpen(a.transcript, a.outcomes, kinds) {
      var i, j :| i < turn && OpenAt(a.transcript, a.outcomes, i, j, kinds);
      EntriesTouchTheLatest(a, verdicts, quotes, i, j);
      assert OpenAt(t, a.outcomes + entries, i, j, kinds);
    }
  }

  /** An approval settles a row that still has a step to decide exactly when every gated step of the latest round ends
      up marked and an earlier round has one undecided: the rule looks at the latest round only. */
  lemma ApprovalSettlesEarlyIff(row: Row, verdicts: seq<Verdict>, quotes: bool, kinds: bool)
    requires MarksRecorded(row.transcript, row.outcomes) && !Live(row.state)
    ensures var (t, entries) := Approve(Approval(row.transcript, row.outcomes), verdicts, quotes);
      var after := StoreApproval(row, t, entries);
      after.state == Succeeded && Open(after.transcript, after.outcomes, kinds)
      <==> !JobUpdates.Waiting(t) && EarlierOpen(row.transcript, row.outcomes, kinds)
  {
    var a := Approval(row.transcript, row.outcomes);
    if !JobUpdates.Waiting(Approve(a, verdicts, quotes).0) {
      FullyMarkedLeavesEarlier(a, verdicts, quotes, kinds);
    }
  }

  /** A gated step of the latest round that was decided without a mark: declined, undone, or applied by hand. */
  ghost predicate DecidedUnmarked(t: Transcript, outcomes: seq<Outcome>) {
    var i := LatestAgent(t);
    i >= 0 && exists j | 0 <= j < |StepsOf(t[i])| ::
      Gated(StepsOf(t[i])[j].kind) && StepsOf(t[i])[j].applied.None? && Decided(outcomes, i, j)
  }

  /** A pass applies this step, given what its service answers: it is a kind of the pass and the service saves it, or a
      subtask, which counts as applied in any case. */
  predicate Applies(s: Step, v: Verdict, quotes: bool) {
    s.applied.None?
    && if quotes then s.kind.QuoteDraft? && v.Saved? else s.kind.Delegate? || (Reversible(s.kind) && v.Saved?)
  }

  /** Every gated step of the latest round that nothing decided is applied by the pass. */
  ghost predicate AppliesAllOpen(a: Approval, verdicts: seq<Verdict>, quotes: bool) {
    var i := LatestAgent(a.transcript);
    forall j | OpenAt(a.transcript, a.outcomes, i, j, true) ::
      Applies(StepsOf(a.transcript[i])[j], VerdictAt(verdicts, j), quotes)
  }

  /** A pass decides a step of the latest round exactly when it applies it, and then marks it. */
  lemma PassDecides(a: Approval, verdicts: seq<Verdict>, quotes: bool, j: nat)
    requires var i := LatestAgent(a.transcript); i >= 0 && j < |StepsOf(a.transcript[i])|
    requires !Decided(a.outcomes, LatestAgent(a.transcript), j)
    ensures var i := LatestAgent(a.transcript);
      Decided(a.outcomes + Approve(a, verdicts, quotes).1, i, j)
      <==> Applies(StepsOf(a.transcript[i])[j], VerdictAt(verdicts, j), quotes)
  {
    var i, entries := LatestAgent(a.transcript), Approve(a, verdicts, quotes).1;
    forall action: Action
      ensures Has(a.outcomes + entries, i, j, action) <==> Has(a.outcomes, i, j, action) || Has(entries, i, j, action)
    {
      HasAppend(a.outcomes, entries, i, j, action);
    }
    if Applies(StepsOf(a.transcript[i])[j], VerdictAt(verdicts, j), quotes) {
      NewMarkIsRecorded(a, i, j, verdicts, quotes);
    } else {
      PassRecordsOnlyApplied(a, verdicts, quotes, j);
    }
  }

  lemma PassRecordsOnlyApplied(a: Approval, verdicts: seq<Verdict>, quotes: bool, j: nat)
    requires var i := LatestAgent(a.transcript);
      i >= 0 && j < |StepsOf(a.transcript[i])| && !Applies(StepsOf(a.transcript[i])[j], VerdictAt(verdicts, j), quotes)
    ensures !Decided(Approve(a, verdicts, quotes).1, LatestAgent(a.transcript), j)
  {
    var i, entries := LatestAgent(a.transcript), Approve(a, verdicts, quotes).1;
    var marks := ApprovalMarks(a, i, verdicts, quotes);
    CollectedSteps(marks);
    forall k | 0 <= k < |entries| && entries[k].step == j ensures entries[k].action == ApplyFailed {
      assert marks[entries[k].step] == Some(entries[k]);
      assert ApproveAt(a, i, j, verdicts, quotes).1.Some?;
    }
  }

  lemma PassKeepsUnmarked(a: Approval, verdicts: seq<Verdict>, quotes: bool, j: nat)
    requires var i := LatestAgent(a.transcript); i >= 0 && j < |StepsOf(a.transcript[i])|
    ensures var i, t := LatestAgent(a.transcript), Approve(a, verdicts, quotes).0;
      var s, u := StepsOf(a.transcript[i])[j], StepsOf(t[i])[j];
      && u.kind == s.kind
      && (u.applied.None? <==>
            s.applied.None? && (Decided(a.outcomes, i, j) || !Applies(s, VerdictAt(verdicts, j), quotes)))
  {
    var i := LatestAgent(a.transcript);
    assert StepsOf(Approve(a, verdicts, quotes).0[i])[j] == ApproveAt(a, i, j, verdicts, quotes).0;
  }

  lemma PassLeavesNothingIff(a: Approval, verdicts: seq<Verdict>, quotes: bool)
    ensures var (t, entries) := Approve(a, verdicts, quotes);
      Open(t, a.outcomes + entries, true)
      <==> EarlierOpen(a.transcript, a.outcomes, true) || !AppliesAllOpen(a, verdicts, quotes)
  {
    if Open(Approve(a, verdicts, quotes).0, a.outcomes + Approve(a, verdicts, quotes).1, true) {
      WhatStaysOpen(a, verdicts, quotes);
    }
    if EarlierOpen(a.transcript, a.outcomes, true) || !AppliesAllOpen(a, verdicts, quotes) {
      ItStaysOpen(a, verdicts, quotes);
    }
  }

  lemma WhatStaysOpen(a: Approval, verdicts: seq<Verdict>, quotes: bool)
    requires Open(Approve(a, verdicts, quotes).0, a.outcomes + Approve(a, verdicts, quotes).1, true)
    ensures EarlierOpen(a.transcript, a.outcomes, true) || !AppliesAllOpen(a, verdicts, quotes)
  {
    var (t, entries) := Approve(a, verdicts, quotes);
    var i, j :| OpenAt(t, a.outcomes + entries, i, j, true);
    ApprovalKeepsLatest(a, verdicts, quotes);
    var turn := LatestAgent(a.transcript);
    if i == turn {
      PassKeepsUnmarked(a, verdicts, quotes, j);
      if !Decided(a.outcomes, i, j) {
        PassDecides(a, verdicts, quotes, j);
        assert OpenAt(a.transcript, a.outcomes, i, j, true);
      } else {
        DecidedGrows(a.outcomes, a.outcomes + entries, i, j);
      }
    } else {
      EntriesTouchTheLatest(a, verdicts, quotes, i, j);
      assert OpenAt(a.transcript, a.outcomes, i, j, true);
    }
  }

  lemma ItStaysOpen(a: Approval, verdicts: seq<Verdict>, quotes: bool)
    requires EarlierOpen(a.transcript, a.outcomes, true) || !AppliesAllOpen(a, verdicts, quotes)
    ensures Open(Approve(a, verdicts, quotes).0, a.outcomes + Approve(a, verdicts, quotes).1, true)
  {
    var (t, entries) := Approve(a, verdicts, quotes);
    var turn := LatestAgent(a.transcript);
    if EarlierOpen(a.transcript, a.outcomes, true) {
      var i, j :| i < turn && OpenAt(a.transcript, a.outcomes, i, j, true);
      EntriesTouchTheLatest(a, verdicts, quotes, i, j);
      assert OpenAt(t, a.outcomes + entries, i, j, true);
    } else {
      var j :| OpenAt(a.transcript, a.outcomes, turn, j, true)
        && !Applies(StepsOf(a.transcript[turn])[j], VerdictAt(verdicts, j), quotes);
      PassKeepsUnmarked(a, verdicts, quotes, j);
      PassDecides(a, verdicts, quotes, j);
      assert OpenAt(t, a.outcomes + entries, turn, j, true);
    }
  }

  /** Once nothing is open, the latest round lacks a mark exactly where a step was decided without one before. */
  lemma WaitsIffDecidedUnmarked(a: Approval, verdicts: seq<Verdict>, quotes: bool)
    requires AppliesAllOpen(a, verdicts, quotes)
    ensures JobUpdates.Waiting(Approve(a, verdicts, quotes).0) <==> DecidedUnmarked(a.transcript, a.outcomes)
  {
    var t, i := Approve(a, verdicts, quotes).0, LatestAgent(a.transcript);
    ApprovalKeepsLatest(a, verdicts, quotes);
    if JobUpdates.Waiting(t) {
      var j :| 0 <= j < |StepsOf(t[i])| && Gated(StepsOf(t[i])[j].kind) && StepsOf(t[i])[j].applied.None?;
      PassKeepsUnmarked(a, verdicts, quotes, j);
      assert OpenAt(a.transcript, a.outcomes, i, j, true) || Decided(a.outcomes, i, j);
    }
    if DecidedUnmarked(a.transcript, a.outcomes) {
      var j :| 0 <= j < |StepsOf(a.transcript[i])| && Gated(StepsOf(a.transcript[i])[j].kind)
        && StepsOf(a.transcript[i])[j].applied.None? && Decided(a.outcomes, i, j);
      PassKeepsUnmarked(a, verdicts, quotes, j);
    }
  }

  /** An approval leaves a row waiting that has nothing left to decide exactly when no earlier round has a step open,
      the pass applies every open step of the latest round, and some step of that round had been decided without a
      mark: the rule looks at the marks, not at the decisions. */
  lemma ApprovalWaitsForNothingIff(row: Row, verdicts: seq<Verdict>, quotes: bool)
    requires !Live(row.state)
    ensures var a := Approval(row.transcript, row.outcomes);
      var (t, entries) := Approve(a, verdicts, quotes);
      var after := StoreApproval(row, t, entries);
      after.state == WaitingForApproval && !PendingForAct(after.transcript, after.outcomes)
      <==> !EarlierOpen(row.transcript, row.outcomes, true) && AppliesAllOpen(a, verdicts, quotes)
           && DecidedUnmarked(row.transcript, row.outcomes)
  {
    var a := Approval(row.transcript, row.outcomes);
    var (t, entries) := Approve(a, verdicts, quotes);
    OpenIsPending(t, row.outcomes + entries);
    PassLeavesNothingIff(a, verdicts, quotes);
    if AppliesAllOpen(a, verdicts, quotes) {
      WaitsIffDecidedUnmarked(a, verdicts, quotes);
    }
  }

  const WINDOW := Step(ProjectOps, 0, None, false, None, false)

  /** Two rounds of one window each; approving the second settles the row with the first undecided. */
  lemma ApprovalSettlesEarly()
    ensures var row := Row(WaitingForApproval,
        [UserTurn(""), AgentTurn([WINDOW], 0), UserTurn(""), AgentTurn([WINDOW], 0)], []);
      var (t, entries) := Approve(Approval(row.transcript, row.outcomes), [Saved(NO_RECEIPT)], false);
      var after := StoreApproval(row, t, entries);
      entries != [] && after.state == Succeeded && !AllDecided(after.transcript, after.outcomes)
  {
    var t := [UserTurn(""), AgentTurn([WINDOW], 0), UserTurn(""), AgentTurn([WINDOW], 0)];
    var row := Row(WaitingForApproval, t, []);
    var a, verdicts := Approval(t, []), [Saved(NO_RECEIPT)];
    assert LatestAgent(t) == 3;
    var marks := ApprovalMarks(a, 3, verdicts, false);
    assert marks[0].Some?;
    CollectFinds(marks, 0);
    assert OpenAt(t, [], 1, 0, false);
    assert EarlierOpen(t, [], false);
    var after := Approve(a, verdicts, false).0;
    assert LatestAgent(after) == 3;
    assert StepsOf(after[3])[0] == ApproveAt(a, 3, 0, verdicts, false).0;
    assert !JobUpdates.Waiting(after);
    ApprovalSettlesEarlyIff(row, verdicts, false, false);
    OpenIsPending(after, [] + Approve(a, verdicts, false).1);
  }

  /** Two windows, the first declined; approving the second leaves the row waiting with nothing to decide. */
  lemma ApprovalWaitsForNothing()
    ensures var row := Row(WaitingForApproval, [UserTurn(""), AgentTurn([WINDOW, WINDOW], 0)],
                           [Outcome(1, 0, Declined, None)]);
      var (t, entries) := Approve(Approval(row.transcript, row.outcomes), [Refused, Saved(NO_RECEIPT)], false);
      var after := StoreApproval(row, t, entries);
      entries != [] && after.state == WaitingForApproval && !PendingForAct(after.transcript, after.outcomes)
  {
    var t, outcomes := [UserTurn(""), AgentTurn([WINDOW, WINDOW], 0)], [Outcome(1, 0, Declined, None)];
    var a, verdicts := Approval(t, outcomes), [Refused, Saved(NO_RECEIPT)];
    assert LatestAgent(t) == 1 && outcomes[0].action == Declined;
    assert Decided(outcomes, 1, 0) && !Decided(outcomes, 1, 1);
    var marks := ApprovalMarks(a, 1, verdicts, false);
    assert marks[1] == Some(Outcome(1, 1, Applied, None));
    CollectFinds(marks, 1);
    assert StepsOf(t[1])[0] == WINDOW && DecidedUnmarked(t, outcomes);
    ApprovalWaitsForNothingIff(Row(WaitingForApproval, t, outcomes), verdicts, false);
  }

  // ---------------------------------------------------------------- SUCCEEDED over whole runs

  /** An approval that settles the row while an earlier round still has a step a report could decide. */
  ghost predicate ApprovesEarly(w: World, e: Event) {
    && e.StoreApproved? && e.request in w.approvals && !Live(w.row.state)
    && var a := w.approvals[e.request];
       && Approve(a, e.verdicts, e.quotes).1 != []
       && !JobUpdates.Waiting(Approve(a, e.verdicts, e.quotes).0)
       && EarlierOpen(a.transcript, a.outcomes, false)
  }

  ghost predicate NeverApprovesEarly(w: World, events: seq<Event>)
    decreases |events|
  {
    events == [] || (!ApprovesEarly(w, events[0]) && NeverApprovesEarly(Next(w, events[0]), events[1..]))
  }

  /** A succeeded row has decided every step a report knows; what workers claimed was recorded before. */
  ghost predicate SettledSound(w: World) {
    && MarksRecorded(w.row.transcript, w.row.outcomes)
    && (forall k | k in w.workers :: w.workers[k].claimed.outcomes <= w.row.outcomes)
    && (w.row.state == Succeeded ==> AllDecided(w.row.transcript, w.row.outcomes))
  }

  lemma ClaimedOutcomes(w: World, e: Event, k: WorkerId)
    requires k in Next(w, e).workers
    ensures Next(w, e).workers[k].claimed.outcomes == w.row.outcomes
         || (k in w.workers && Next(w, e).workers[k].claimed.outcomes == w.workers[k].claimed.outcomes)
  {
    if k !in w.workers {
      OnlyThePickUpAddsWorkers(w, e, k);
    } else if Actor(e) != Some(k) {
      OthersLeaveWorker(w, e, k);
    } else if e.CommitAct? || e.RecordFault? || e.RecordCancel? {
      LateClaimedOutcomes(w, e, k);
    } else if FromAct(e) {
      LeavingClaimedOutcomes(w, e, k);
    } else if e.Claim? {
      ClaimClaimsOutcomes(w, k, e.leaseLive);
    } else {
      EarlyClaimedOutcomes(w, e, k);
    }
  }

  lemma LateClaimedOutcomes(w: World, e: Event, k: WorkerId)
    requires k in w.workers && (e.CommitAct? || e.RecordFault? || e.RecordCancel?) && Actor(e) == Some(k)
    ensures k in Next(w, e).workers && Next(w, e).workers[k].claimed.outcomes == w.workers[k].claimed.outcomes
  {
  }

  lemma LeavingClaimedOutcomes(w: World, e: Event, k: WorkerId)
    requires k in w.workers && (e.Fault? || e.Return? || e.CleanUp?) && Actor(e) == Some(k)
    ensures k in Next(w, e).workers && Next(w, e).workers[k].claimed.outcomes == w.workers[k].claimed.outcomes
  {
  }

  lemma ClaimClaimsOutcomes(w: World, k: WorkerId, leaseLive: bool)
    requires k in w.workers
    ensures var v := ClaimStep(w, k, leaseLive);
      k in v.workers && v.workers[k].claimed.outcomes in {w.row.outcomes, w.workers[k].claimed.outcomes}
  {
  }

  lemma EarlyClaimedOutcomes(w: World, e: Event, k: WorkerId)
    requires k in w.workers && UpToAct(e) && !e.Claim? && Actor(e) == Some(k)
    ensures k in Next(w, e).workers && Next(w, e).workers[k].claimed.outcomes == w.workers[k].claimed.outcomes
  {
  }

  /** The other events neither settle a row as SUCCEEDED nor touch the transcript of one. */
  lemma OthersDoNotSettle(w: World, e: Event)
    requires !e.Report? && !e.CommitAct? && !e.StoreApproved? && Next(w, e).row.state == Succeeded
    ensures w.row.state == Succeeded && Next(w, e).row.transcript == w.row.transcript
  {
    if UpToAct(e) {
      EarlyStepsDoNotSettle(w, e);
    }
  }

  lemma EarlyStepsDoNotSettle(w: World, e: Event)
    requires UpToAct(e) && Next(w, e).row.state == Succeeded
    ensures w.row.state == Succeeded && Next(w, e).row.transcript == w.row.transcript
  {
  }

  lemma CommitSettlesDecided(row: Row, claimed: Row, draft: Draft)
    requires claimed.transcript == row.transcript && claimed.outcomes <= row.outcomes
    requires Act(claimed, draft).state == Succeeded
    ensures var r := Act(claimed, draft);
      AllDecided(row.transcript + r.turns, row.outcomes + r.outcomes)
  {
    var r := Act(claimed, draft);
    SucceededLeavesNothingPending(claimed, draft);
    var t, known := claimed.transcript + r.turns, claimed.outcomes + r.outcomes;
    forall i, j | 0 <= i < |t| && 0 <= j < |StepsOf(t[i])| && Reportable(StepsOf(t[i])[j].kind)
      ensures Decided(row.outcomes + r.outcomes, i, j)
    {
      assert Decided(known, i, j);
      var action :| action in {Applied, Declined, Undone} && Has(known, i, j, action);
      HasAppend(claimed.outcomes, r.outcomes, i, j, action);
      HasAppend(row.outcomes, r.outcomes, i, j, action);
      if Has(claimed.outcomes, i, j, action) {
        HasGrows(claimed.outcomes, row.outcomes, i, j, action);
      }
    }
  }

  lemma ApprovalSettlesDecided(row: Row, verdicts: seq<Verdict>, quotes: bool)
    requires MarksRecorded(row.transcript, row.outcomes) && !Live(row.state)
    requires var a := Approval(row.transcript, row.outcomes);
      !JobUpdates.Waiting(Approve(a, verdicts, quotes).0) && !EarlierOpen(a.transcript, a.outcomes, false)
    ensures var (t, entries) := Approve(Approval(row.transcript, row.outcomes), verdicts, quotes);
      AllDecided(t, row.outcomes + entries)
  {
    var a := Approval(row.transcript, row.outcomes);
    var (t, entries) := Approve(a, verdicts, quotes);
    FullyMarkedLeavesEarlier(a, verdicts, quotes, false);
    OpenIsPending(t, row.outcomes + entries);
  }

  lemma ApprovalStepSettlesDecided(w: World, request: RequestId, verdicts: seq<Verdict>, quotes: bool)
    requires MarksRecorded(w.row.transcript, w.row.outcomes) && w.row.state != Succeeded
    requires ApprovalAtomic(w, StoreApproved(request, verdicts, quotes))
    requires !ApprovesEarly(w, StoreApproved(request, verdicts, quotes))
    requires StoreApprovedStep(w, request, verdicts, quotes).row.state == Succeeded
    ensures var v := StoreApprovedStep(w, request, verdicts, quotes);
      AllDecided(v.row.transcript, v.row.outcomes)
  {
    ApprovalSettlesDecided(w.row, verdicts, quotes);
  }

  lemma CommitStepSettlesDecided(w: World, k: WorkerId, draft: Draft)
    requires SettledSound(w) && w.row.state != Succeeded
    requires k in w.workers && ViewCurrent(w.row, w.workers[k])
    requires CommitActStep(w, k, draft).row.state == Succeeded
    ensures var v := CommitActStep(w, k, draft);
      AllDecided(v.row.transcript, v.row.outcomes)
  {
    CommitSettlesDecided(w.row, w.workers[k].claimed, draft);
  }

  /** An approval of a succeeded row keeps its steps in place. */
  lemma SucceededTranscriptStays(w: World, e: Event)
    requires Disciplined(w) && Permitted(w, e) && w.row.state == Succeeded && Next(w, e).row.state == Succeeded
    ensures |Next(w, e).row.transcript| == |w.row.transcript| && Grows(w.row.transcript, Next(w, e).row.transcript)
  {
    if e.StoreApproved? {
      if e.request in w.approvals {
        ApprovalKeepsTurns(w.approvals[e.request], e.verdicts, e.quotes);
      }
    } else if !e.Report? && !e.CommitAct? {
      OthersDoNotSettle(w, e);
    }
  }

  lemma AllDecidedStays(t: Transcript, u: Transcript, before: seq<Outcome>, after: seq<Outcome>)
    requires AllDecided(t, before) && before <= after && Grows(t, u) && |t| == |u|
    ensures AllDecided(u, after)
  {
    forall i, j | 0 <= i < |u| && 0 <= j < |StepsOf(u[i])| && Reportable(StepsOf(u[i])[j].kind)
      ensures Decided(after, i, j)
    {
      assert BareTurn(t[i]) == BareTurn(u[i]);
      assert BareTurn(t[i]).steps[j] == BareStep(StepsOf(t[i])[j]) && BareTurn(u[i]).steps[j] == BareStep(StepsOf(u[i])[j]);
      DecidedGrows(before, after, i, j);
    }
  }

  lemma StepSettlesDecided(w: World, e: Event)
    requires Disciplined(w) && Permitted(w, e) && SettledSound(w) && !ApprovesEarly(w, e)
    requires Next(w, e).row.state == Succeeded
    ensures AllDecided(Next(w, e).row.transcript, Next(w, e).row.outcomes)
  {
    if w.row.state == Succeeded {
      StepGainsEntries(w, e);
      SucceededTranscriptStays(w, e);
      AllDecidedStays(w.row.transcript, Next(w, e).row.transcript, w.row.outcomes, Next(w, e).row.outcomes);
    } else if e.StoreApproved? {
      ApprovalStepSettlesDecided(w, e.request, e.verdicts, e.quotes);
    } else if e.CommitAct? {
      assert w.row.state != Canceled by {
        if w.row.state == Canceled {
          CanceledStaysCanceled(w, e);
        }
      }
      CommitStepSettlesDecided(w, e.worker, e.draft);
    } else if !e.Report? {
      OthersDoNotSettle(w, e);
    }
  }

  lemma StepKeepsSettled(w: World, e: Event)
    requires Disciplined(w) && Permitted(w, e) && SettledSound(w) && !ApprovesEarly(w, e)
    ensures SettledSound(Next(w, e))
  {
    StepRecordsMarks(w, e);
    StepGainsEntries(w, e);
    forall k | k in Next(w, e).workers ensures Next(w, e).workers[k].claimed.outcomes <= Next(w, e).row.outcomes {
      ClaimedOutcomes(w, e, k);
    }
    if Next(w, e).row.state == Succeeded {
      StepSettlesDecided(w, e);
    }
  }

  lemma {:induction false} RunKeepsSettled(w: World, events: seq<Event>)
    requires Disciplined(w) && Orderly(w, events) && SettledSound(w) && NeverApprovesEarly(w, events)
    ensures SettledSound(Run(w, events))
    decreases |events|
  {
    if events != [] {
      StepKeepsSettled(w, events[0]);
      StepKeepsDiscipline(w, events[0]);
      RunKeepsSettled(Next(w, events[0]), events[1..]);
    }
  }

  /** In every orderly run in which no approval settles early, a SUCCEEDED row has every gated step of its whole
      transcript decided, quote drafts aside: whoever settled it, a report, a round or an approval. */
  lemma SucceededIsDecided(goal: string, events: seq<Event>)
    requires Orderly(Init(goal), events) && NeverApprovesEarly(Init(goal), events)
    ensures var row := Run(Init(goal), events).row;
      row.state == Succeeded ==>
        AllDecided(row.transcript, row.outcomes)
        && (PendingForAct(row.transcript, row.outcomes) <==> OpenQuote(row.transcript, row.outcomes))
  {
    InitDisciplined(goal);
    RunKeepsSettled(Init(goal), events);
    var row := Run(Init(goal), events).row;
    if row.state == Succeeded {
      PendingIsOpenQuote(row.transcript, row.outcomes);
    }
  }

  lemma {:induction false} RunRecordsMarks(w: World, events: seq<Event>)
    requires Disciplined(w) && Orderly(w, events) && MarksRecorded(w.row.transcript, w.row.outcomes)
    ensures var v := Run(w, events);
      Disciplined(v) && MarksRecorded(v.row.transcript, v.row.outcomes)
    decreases |events|
  {
    if events != [] {
      StepRecordsMarks(w, events[0]);
      StepKeepsDiscipline(w, events[0]);
      RunRecordsMarks(Next(w, events[0]), events[1..]);
    }
  }

  /** What an approval over exactly what it read writes, and when it settles early. */
  lemma AtomicApprovalSettlesEarlyIff(w: World, e: Event)
    requires MarksRecorded(w.row.transcript, w.row.outcomes) && !Live(w.row.state)
    requires e.StoreApproved? && ApprovalAtomic(w, e) && Next(w, e) != w
    ensures var row := Next(w, e).row;
      row.state == Succeeded && !AllDecided(row.transcript, row.outcomes) <==> ApprovesEarly(w, e)
  {
    var row := Next(w, e).row;
    OpenIsPending(row.transcript, row.outcomes);
    ApprovalSettlesEarlyIff(w.row, e.verdicts, e.quotes, false);
  }

  /** In every orderly run, an approval leaves an undecided step behind on a SUCCEEDED row exactly when it settles
      early: the condition of the theorem above is the exact one, approval by approval. */
  lemma SettledEarlyIff(goal: string, past: seq<Event>, e: Event)
    requires Orderly(Init(goal), past + [e]) && e.StoreApproved?
    requires Next(Run(Init(goal), past), e) != Run(Init(goal), past) && !Live(Run(Init(goal), past).row.state)
    ensures var w := Run(Init(goal), past);
      var v := Next(w, e);
      v.row.state == Succeeded && !AllDecided(v.row.transcript, v.row.outcomes) <==> ApprovesEarly(w, e)
  {
    InitDisciplined(goal);
    OrderlyParts(Init(goal), past, [e]);
    RunRecordsMarks(Init(goal), past);
    assert ApprovalAtomic(Run(Init(goal), past), e);
    AtomicApprovalSettlesEarlyIff(Run(Init(goal), past), e);
  }
}
