/** The recorded outcomes of a job: what they point at and how they may follow one another, over orderly runs. */
module JobOutcomes {
  import opened Basics
  import opened JobTypes
  import opened JobUpdates
  import opened AgentRounds
  import opened Approvals
  import opened JobProtocol
  import opened JobSafety
  import opened JobOrderly

  predicate SameStep(a: Outcome, b: Outcome) {
    a.turn == b.turn && a.step == b.step
  }

  predicate Decides(o: Outcome) {
    o.action in {Applied, Declined}
  }

  /** Each outcome points at a gated step of the stored transcript. */
  ghost predicate PointAtSteps(t: Transcript, outcomes: seq<Outcome>) {
    forall i | 0 <= i < |outcomes| :: PointsAtStep(t, outcomes[i])
  }

  predicate PointsAtStep(t: Transcript, o: Outcome) {
    var s := StepAt(t, o.turn, o.step);
    s.Some? && Gated(s.value.kind)
  }

  /** No step is decided twice. */
  ghost predicate DecidedOnce(outcomes: seq<Outcome>) {
    forall i, j | 0 <= i < j < |outcomes| ::
      SameStep(outcomes[i], outcomes[j]) ==> !(Decides(outcomes[i]) && Decides(outcomes[j]))
  }

  /** What is undone was applied before. */
  ghost predicate UndoneWasApplied(outcomes: seq<Outcome>) {
    forall j | 0 <= j < |outcomes| && outcomes[j].action == Undone ::
      Has(outcomes[..j], outcomes[j].turn, outcomes[j].step, Applied)
  }

  ghost predicate Integrity(row: Row) {
    PointAtSteps(row.transcript, row.outcomes) && DecidedOnce(row.outcomes) && UndoneWasApplied(row.outcomes)
  }

  /** New entries that undo only what was applied before them. */
  ghost predicate UndoesApplied(outcomes: seq<Outcome>, added: seq<Outcome>) {
    forall k | 0 <= k < |added| && added[k].action == Undone :: Has(outcomes, added[k].turn, added[k].step, Applied)
  }

  /** New entries that keep the record sound: on gated steps, deciding only what is undecided and once, undoing
      only what was applied. */
  ghost predicate Admissible(outcomes: seq<Outcome>, t: Transcript, added: seq<Outcome>) {
    && (forall k | 0 <= k < |added| :: PointsAtStep(t, added[k]))
    && (forall k | 0 <= k < |added| && Decides(added[k]) ::
          !Has(outcomes, added[k].turn, added[k].step, Applied) && !Has(outcomes, added[k].turn, added[k].step, Declined))
    && (forall k, l | 0 <= k < l < |added| :: SameStep(added[k], added[l]) ==> !(Decides(added[k]) && Decides(added[l])))
    && UndoesApplied(outcomes, added)
  }

  lemma AddedKeepsDecidedOnce(outcomes: seq<Outcome>, t: Transcript, added: seq<Outcome>)
    requires DecidedOnce(outcomes) && Admissible(outcomes, t, added)
    ensures DecidedOnce(outcomes + added)
  {
    var all := outcomes + added;
    forall i, j | 0 <= i < j < |all| && SameStep(all[i], all[j]) && Decides(all[i]) ensures !Decides(all[j]) {
      if i < |outcomes| <= j {
        var o := added[j - |outcomes|];
        assert outcomes[i].turn == o.turn && outcomes[i].step == o.step;
        assert Has(outcomes, o.turn, o.step, outcomes[i].action);
      } else if |outcomes| <= i {
        assert all[i] == added[i - |outcomes|] && all[j] == added[j - |outcomes|];
      }
    }
  }

  lemma AddedKeepsUndone(outcomes: seq<Outcome>, added: seq<Outcome>)
    requires UndoneWasApplied(outcomes) && UndoesApplied(outcomes, added)
    ensures UndoneWasApplied(outcomes + added)
  {
    var all := outcomes + added;
    forall j | 0 <= j < |all| && all[j].action == Undone
      ensures Has(all[..j], all[j].turn, all[j].step, Applied)
    {
      if j < |outcomes| {
        assert all[..j] == outcomes[..j];
      } else {
        assert all[..j] == outcomes + added[..j - |outcomes|];
        HasAppend(outcomes, added[..j - |outcomes|], all[j].turn, all[j].step, Applied);
      }
    }
  }

  lemma AddedKeepsIntegrity(row: Row, t: Transcript, added: seq<Outcome>, state: JobState)
    requires Integrity(row) && Grows(row.transcript, t) && Admissible(row.outcomes, t, added)
    ensures Integrity(Row(state, t, row.outcomes + added))
  {
    AddedKeepsDecidedOnce(row.outcomes, t, added);
    AddedKeepsUndone(row.outcomes, added);
    forall i | 0 <= i < |row.outcomes + added| ensures PointsAtStep(t, (row.outcomes + added)[i]) {
      if i < |row.outcomes| {
        var o := row.outcomes[i];
        assert PointsAtStep(row.transcript, o);
        GrowsKeepsSteps(row.transcript, t, o.turn, o.step);
      } else {
        assert (row.outcomes + added)[i] == added[i - |row.outcomes|];
      }
    }
  }

  // ---------------------------------------------------------------- the four writers

  lemma ReportIsAdmissible(row: Row, turn: int, step: int, action: Action)
    requires Integrity(row)
    ensures Integrity(RecordOutcome(row, turn, step, action).0)
  {
    var (after, reply) := RecordOutcome(row, turn, step, action);
    if reply == Recorded {
      ReportIsFirstDecision(row, turn, step, action);
      GrowsAppend(row.transcript, []);
      assert row.transcript + [] == row.transcript;
      AddedKeepsIntegrity(row, row.transcript, [Outcome(turn, step, action, None)], after.state);
    }
  }

  lemma UndoIsAdmissible(w: World, entries: seq<Outcome>)
    requires Integrity(w.row)
    ensures Integrity(UndoAllStep(w, entries).row)
  {
    if UndoAllStep(w, entries) != w {
      forall k | 0 <= k < |entries| ensures PointsAtStep(w.row.transcript, entries[k]) {
        assert Has(w.row.outcomes, entries[k].turn, entries[k].step, Applied);
        var i :| 0 <= i < |w.row.outcomes| && w.row.outcomes[i].turn == entries[k].turn
          && w.row.outcomes[i].step == entries[k].step;
        assert PointsAtStep(w.row.transcript, w.row.outcomes[i]);
      }
      GrowsAppend(w.row.transcript, []);
      assert w.row.transcript + [] == w.row.transcript;
      AddedKeepsIntegrity(w.row, w.row.transcript, entries, w.row.state);
    }
  }

  lemma ApprovalIsAdmissible(row: Row, a: Approval, verdicts: seq<Verdict>, quotes: bool)
    requires Integrity(row) && a == Approval(row.transcript, row.outcomes)
    ensures Integrity(StoreApproval(row, Approve(a, verdicts, quotes).0, Approve(a, verdicts, quotes).1))
  {
    var (t, entries) := Approve(a, verdicts, quotes);
    ApprovalKeepsTurns(a, verdicts, quotes);
    ApprovalDecidesFreshSteps(a, verdicts, quotes);
    forall k | 0 <= k < |entries| ensures PointsAtStep(t, entries[k]) {
      GrowsKeepsSteps(row.transcript, t, entries[k].turn, entries[k].step);
    }
    if !Live(row.state) {
      AddedKeepsIntegrity(row, t, entries, StoreApproval(row, t, entries).state);
    }
  }

  /** A turn the row does not have yet has no outcome. */
  lemma NothingDecidedAhead(row: Row, turn: int, step: int, action: Action)
    requires Integrity(row) && turn >= |row.transcript|
    ensures !Has(row.outcomes, turn, step, action)
  {
    assert forall i | 0 <= i < |row.outcomes| :: PointsAtStep(row.transcript, row.outcomes[i]);
  }

  /** Applied entries of one new turn, on distinct gated steps of it. */
  lemma NewTurnEntries(outcomes: seq<Outcome>, t: Transcript, turn: nat, c: seq<Outcome>)
    requires turn < |t| && NamesSavedSteps(c, StepsOf(t[turn]), turn) && StepsDiffer(c)
    requires forall step, action :: !Has(outcomes, turn, step, action)
    ensures Admissible(outcomes, t, c)
  {
  }

  lemma RoundEntries(row: Row, claimed: Row, draft: Draft)
    requires Integrity(row) && claimed.transcript == row.transcript
    ensures var r := Act(claimed, draft); Admissible(row.outcomes, row.transcript + r.turns, r.outcomes)
  {
    var r, turn := Act(claimed, draft), |row.transcript| + 1;
    OutcomesMatchSavedSteps(draft, turn);
    assert (row.transcript + r.turns)[turn] == r.turns[1];
    forall step, action ensures !Has(row.outcomes, turn, step, action) {
      NothingDecidedAhead(row, turn, step, action);
    }
    NewTurnEntries(row.outcomes, row.transcript + r.turns, turn, r.outcomes);
  }

  lemma RoundIsAdmissible(row: Row, claimed: Row, draft: Draft)
    requires Integrity(row) && claimed.transcript == row.transcript
    ensures var r := Act(claimed, draft);
      Integrity(Row(r.state, row.transcript + r.turns, row.outcomes + r.outcomes))
  {
    var r := Act(claimed, draft);
    RoundEntries(row, claimed, draft);
    GrowsAppend(row.transcript, r.turns);
    AddedKeepsIntegrity(row, row.transcript + r.turns, r.outcomes, r.state);
  }

  // ---------------------------------------------------------------- every run, orderly or not

  /** The other events add no outcome. */
  lemma QuietOutcomes(w: World, e: Event)
    requires !e.Report? && !e.UndoAll? && !e.StoreApproved? && !e.CommitAct?
    ensures Next(w, e).row.outcomes == w.row.outcomes
  {
    if UpToAct(e) {
      EarlyStepsRecordNothing(w, e);
    }
  }

  lemma EarlyStepsRecordNothing(w: World, e: Event)
    requires UpToAct(e)
    ensures Next(w, e).row.outcomes == w.row.outcomes
  {
  }

  /** Whatever is written, the record only gains entries, and they undo only what was applied. */
  ghost predicate GainsEntries(before: seq<Outcome>, after: seq<Outcome>) {
    && |before| <= |after| && after[..|before|] == before
    && UndoesApplied(before, after[|before|..])
  }

  lemma AppendedGains(before: seq<Outcome>, added: seq<Outcome>)
    requires UndoesApplied(before, added)
    ensures GainsEntries(before, before + added)
  {
    assert (before + added)[|before|..] == added;
  }

  lemma ReportGainsEntries(row: Row, turn: int, step: int, action: Action)
    ensures GainsEntries(row.outcomes, RecordOutcome(row, turn, step, action).0.outcomes)
  {
    if RecordOutcome(row, turn, step, action).1 == Recorded {
      ReportIsFirstDecision(row, turn, step, action);
      AppendedGains(row.outcomes, [Outcome(turn, step, action, None)]);
    } else {
      assert row.outcomes + [] == row.outcomes;
      AppendedGains(row.outcomes, []);
    }
  }

  lemma ApprovalGainsEntries(row: Row, a: Approval, verdicts: seq<Verdict>, quotes: bool)
    ensures var (t, entries) := Approve(a, verdicts, quotes);
      GainsEntries(row.outcomes, StoreApproval(row, t, entries).outcomes)
  {
    ApprovalDecidesFreshSteps(a, verdicts, quotes);
    AppendedGains(row.outcomes, Approve(a, verdicts, quotes).1);
    assert row.outcomes + [] == row.outcomes;
    AppendedGains(row.outcomes, []);
  }

  lemma NothingGained(before: seq<Outcome>)
    ensures GainsEntries(before, before)
  {
    AppendedGains(before, []);
    assert before + [] == before;
  }

  lemma UndoAllGainsEntries(w: World, entries: seq<Outcome>)
    ensures GainsEntries(w.row.outcomes, UndoAllStep(w, entries).row.outcomes)
  {
    NothingGained(w.row.outcomes);
    if UndoAllStep(w, entries) != w {
      AppendedGains(w.row.outcomes, entries);
    }
  }

  lemma CommitGainsEntries(w: World, k: WorkerId, draft: Draft)
    ensures GainsEntries(w.row.outcomes, CommitActStep(w, k, draft).row.outcomes)
  {
    NothingGained(w.row.outcomes);
    if At(w, k, Acting) && w.row.state == Running {
      var claimed := w.workers[k].claimed;
      OutcomesMatchSavedSteps(draft, |claimed.transcript| + 1);
      AppendedGains(w.row.outcomes, Act(claimed, draft).outcomes);
    }
  }

  lemma StepGainsEntries(w: World, e: Event)
    ensures GainsEntries(w.row.outcomes, Next(w, e).row.outcomes)
  {
    NothingGained(w.row.outcomes);
    match e
    case Report(turn, step, action) => ReportGainsEntries(w.row, turn, step, action);
    case UndoAll(entries) => UndoAllGainsEntries(w, entries);
    case StoreApproved(request, verdicts, quotes) =>
      if request in w.approvals {
        ApprovalGainsEntries(w.row, w.approvals[request], verdicts, quotes);
      }
    case CommitAct(k, draft) => CommitGainsEntries(w, k, draft);
    case _ => QuietOutcomes(w, e);
  }

  lemma GainsKeepUndone(before: seq<Outcome>, after: seq<Outcome>)
    requires UndoneWasApplied(before) && GainsEntries(before, after)
    ensures UndoneWasApplied(after) && before <= after
  {
    AddedKeepsUndone(before, after[|before|..]);
    assert before + after[|before|..] == after;
  }

  lemma {:induction false} RunKeepsUndone(w: World, events: seq<Event>)
    requires UndoneWasApplied(w.row.outcomes)
    ensures UndoneWasApplied(Run(w, events).row.outcomes)
    ensures w.row.outcomes <= Run(w, events).row.outcomes
    decreases |events|
  {
    if events != [] {
      StepGainsEntries(w, events[0]);
      GainsKeepUndone(w.row.outcomes, Next(w, events[0]).row.outcomes);
      RunKeepsUndone(Next(w, events[0]), events[1..]);
    }
  }

  /** In every run whatever, stale workers, stale approvals and replays included, no recorded outcome is ever dropped
      or changed, and what is undone was recorded as applied before. */
  lemma RecordOnlyGrows(goal: string, past: seq<Event>, future: seq<Event>)
    ensures Run(Init(goal), past).row.outcomes <= Run(Init(goal), past + future).row.outcomes
    ensures UndoneWasApplied(Run(Init(goal), past + future).row.outcomes)
  {
    RunAppend(Init(goal), past, future);
    RunKeepsUndone(Init(goal), past);
    RunKeepsUndone(Run(Init(goal), past), future);
  }

  // ---------------------------------------------------------------- every step, every orderly run

  lemma QuietKeepsIntegrity(before: Row, after: Row)
    requires Integrity(before) && Grows(before.transcript, after.transcript) && after.outcomes == before.outcomes
    ensures Integrity(after)
  {
    AddedKeepsIntegrity(before, after.transcript, [], after.state);
    assert before.outcomes + [] == before.outcomes;
  }

  lemma StepKeepsIntegrity(w: World, e: Event)
    requires Disciplined(w) && Permitted(w, e) && Integrity(w.row)
    ensures Integrity(Next(w, e).row)
  {
    StepGrows(w, e);
    match e
    case Report(turn, step, action) => ReportIsAdmissible(w.row, turn, step, action);
    case UndoAll(entries) => UndoIsAdmissible(w, entries);
    case StoreApproved(request, verdicts, quotes) =>
      if request in w.approvals {
        ApprovalIsAdmissible(w.row, w.approvals[request], verdicts, quotes);
      }
    case CommitAct(k, draft) =>
      if At(w, k, Acting) && w.row.state == Running {
        assert ViewCurrent(w.row, w.workers[k]);
        RoundIsAdmissible(w.row, w.workers[k].claimed, draft);
      }
    case _ =>
      QuietOutcomes(w, e);
      QuietKeepsIntegrity(w.row, Next(w, e).row);
  }

  lemma {:induction false} RunKeepsIntegrity(w: World, events: seq<Event>)
    requires Disciplined(w) && Orderly(w, events) && Integrity(w.row)
    ensures Integrity(Run(w, events).row)
    decreases |events|
  {
    if events != [] {
      StepKeepsIntegrity(w, events[0]);
      StepKeepsDiscipline(w, events[0]);
      RunKeepsIntegrity(Next(w, events[0]), events[1..]);
    }
  }

  /** In every orderly run each outcome points at a gated step of the stored transcript, no step is decided twice,
      and what is undone was applied before. */
  lemma OutcomesStaySound(goal: string, events: seq<Event>)
    requires Orderly(Init(goal), events)
    ensures Integrity(Run(Init(goal), events).row)
  {
    InitDisciplined(goal);
    RunKeepsIntegrity(Init(goal), events);
  }
}
