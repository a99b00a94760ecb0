/** Each rule of the discipline is needed: dropping any one of them, and keeping the others, there is a run in
    which the stored transcript loses turns. */
module JobHazards {
  import opened Basics
  import opened JobTypes
  import opened JobUpdates
  import opened AgentRounds
  import opened Approvals
  import opened JobProtocol
  import opened JobSafety
  import opened JobOrderly

  datatype Rule = LeaseRule | ReplayRule | LateLeaseRule | LateFaultRule | AtomicApprovalRule | CanceledApprovalRule

  /** Every rule but one. */
  ghost predicate PermittedBut(w: World, e: Event, rule: Rule) {
    && (rule.LeaseRule? || LeaseRespected(w, e))
    && (rule.ReplayRule? || NoReplay(w, e))
    && (rule.LateLeaseRule? || NoLateLeaseLoss(w, e))
    && (rule.LateFaultRule? || NoLateFault(w, e))
    && (rule.AtomicApprovalRule? || ApprovalAtomic(w, e))
    && (rule.CanceledApprovalRule? || ApprovalNotCanceled(w, e))
  }

  ghost predicate OrderlyBut(w: World, events: seq<Event>, rule: Rule)
    decreases |events|
  {
    events == [] || (PermittedBut(w, events[0], rule) && OrderlyBut(Next(w, events[0]), events[1..], rule))
  }

  /** A run that keeps every other rule and loses turns it had stored. */
  ghost predicate Loses(rule: Rule, past: seq<Event>, future: seq<Event>) {
    && OrderlyBut(Init(""), past + future, rule)
    && !Grows(Run(Init(""), past).row.transcript, Run(Init(""), past + future).row.transcript)
  }

  // ---------------------------------------------------------------- building a run step by step

  lemma {:induction false} OrderlyButParts(w: World, a: seq<Event>, b: seq<Event>, rule: Rule)
    ensures OrderlyBut(w, a + b, rule) <==> OrderlyBut(w, a, rule) && OrderlyBut(Run(w, a), b, rule)
    decreases |a|
  {
    if a == [] {
      assert a + b == b;
    } else {
      assert (a + b)[1..] == a[1..] + b;
      OrderlyButParts(Next(w, a[0]), a[1..], b, rule);
    }
  }

  /** The run that reached world `w` keeps all rules but one. */
  ghost predicate Reached(rule: Rule, past: seq<Event>, w: World) {
    OrderlyBut(Init(""), past, rule) && Run(Init(""), past) == w
  }

  lemma Step(rule: Rule, past: seq<Event>, w: World, e: Event) returns (v: World, events: seq<Event>)
    requires Reached(rule, past, w) && PermittedBut(w, e, rule)
    ensures v == Next(w, e) && events == past + [e] && Reached(rule, events, v)
  {
    v, events := Next(w, e), past + [e];
    OrderlyButParts(Init(""), past, [e], rule);
    RunAppend(Init(""), past, [e]);
    assert [e][1..] == [];
  }

  lemma Lost(rule: Rule, past: seq<Event>, w: World, all: seq<Event>, v: World)
    requires Reached(rule, past, w) && Reached(rule, all, v) && past <= all
    requires !Grows(w.row.transcript, v.row.transcript)
    ensures Loses(rule, past, all[|past|..])
  {
    assert past + all[|past|..] == all;
  }

  /** A worker inside its act transaction, having claimed the row as it is now. */
  function ActingOn(w: World, run: RunId, k: WorkerId, mode: Mode, text: string): World {
    var row := w.row.(state := Running);
    w.(row := row,
       runs := w.runs[run := QueuedRun(mode, text, Held(k))],
       workers := w.workers[k := Worker(run, mode, text, Acting, if mode.New? then [] else w.row.transcript,
                                        w.row.(state := Planning))],
       episode := w.episode + 1)
  }

  // One lemma per event, giving the world it leads to.

  lemma PicksUp(rule: Rule, past: seq<Event>, w: World, k: WorkerId, run: RunId) returns (v: World, events: seq<Event>)
    requires Reached(rule, past, w)
    requires k !in w.workers && run in w.runs && w.runs[run].phase == Waiting
    ensures var r := w.runs[run];
      v == w.(runs := w.runs[run := r.(phase := Held(k))],
              workers := w.workers[k := Worker(run, r.mode, r.goal, PickedUp, [], w.row)])
    ensures Reached(rule, events, v) && past <= events
  {
    v, events := Step(rule, past, w, PickUp(k, run));
  }

  lemma Reads(rule: Rule, past: seq<Event>, w: World, k: WorkerId) returns (v: World, events: seq<Event>)
    requires Reached(rule, past, w) && HoldsLease(w, k)
    requires w.workers[k].pc == PickedUp && w.workers[k].mode.FollowUp?
    ensures v == w.(workers := w.workers[k := w.workers[k].(pc := PriorRead, before := w.row.transcript)])
    ensures Reached(rule, events, v) && past <= events
  {
    v, events := Step(rule, past, w, ReadPrior(k));
  }

  /** The row a claim leaves: a follow-up writes back the transcript it read. */
  function ClaimedRow(w: World, k: WorkerId): Row
    requires k in w.workers
  {
    var x := w.workers[k];
    w.row.(state := Planning, transcript := if x.mode.New? then w.row.transcript else x.before)
  }

  lemma Claims(rule: Rule, past: seq<Event>, w: World, k: WorkerId) returns (v: World, events: seq<Event>)
    requires Reached(rule, past, w) && HoldsLease(w, k)
    requires w.row.state == Queued && !w.signal
    requires w.workers[k].pc == if w.workers[k].mode.New? then PickedUp else PriorRead
    ensures v == w.(row := ClaimedRow(w, k),
                    workers := w.workers[k := w.workers[k].(pc := Claimed, claimed := ClaimedRow(w, k))])
    ensures Reached(rule, events, v) && past <= events
  {
    assert LeaseLive(w) by { assert w.workers[k].run in w.runs; }
    v, events := Step(rule, past, w, Claim(k, true));
  }

  lemma Marks(rule: Rule, past: seq<Event>, w: World, k: WorkerId) returns (v: World, events: seq<Event>)
    requires Reached(rule, past, w) && HoldsLease(w, k)
    requires w.row.state == Planning && w.workers[k].pc == Claimed
    ensures v == w.(row := w.row.(state := Running), episode := w.episode + 1,
                    workers := w.workers[k := w.workers[k].(pc := Marked)])
    ensures Reached(rule, events, v) && past <= events
  {
    v, events := Step(rule, past, w, Mark(k));
  }

  lemma Begins(rule: Rule, past: seq<Event>, w: World, k: WorkerId) returns (v: World, events: seq<Event>)
    requires Reached(rule, past, w) && HoldsLease(w, k)
    requires w.row.state == Running && w.workers[k].pc == Marked
    ensures v == w.(workers := w.workers[k := w.workers[k].(pc := Acting)])
    ensures Reached(rule, events, v) && past <= events
  {
    v, events := Step(rule, past, w, BeginAct(k));
  }

  lemma Sends(rule: Rule, past: seq<Event>, w: World, text: string, run: RunId) returns (v: World, events: seq<Event>)
    requires Reached(rule, past, w) && Resumable(w.row.state) && run !in w.runs
    ensures v == w.(row := w.row.(state := Queued), runs := w.runs[run := QueuedRun(FollowUp, text, Waiting)])
    ensures Reached(rule, events, v) && past <= events
  {
    v, events := Step(rule, past, w, Message(text, run, false));
  }

  /** The claim, the mark and the start of the act transaction. */
  lemma Starts(rule: Rule, past: seq<Event>, w: World, k: WorkerId) returns (v: World, events: seq<Event>)
    requires Reached(rule, past, w) && HoldsLease(w, k)
    requires w.row.state == Queued && !w.signal
    requires w.workers[k].pc == if w.workers[k].mode.New? then PickedUp else PriorRead
    ensures v == w.(row := ClaimedRow(w, k).(state := Running), episode := w.episode + 1,
                    workers := w.workers[k := w.workers[k].(pc := Acting, claimed := ClaimedRow(w, k))])
    ensures Reached(rule, events, v) && past <= events
  {
    var claimed := ClaimedRow(w, k);
    v, events := Claims(rule, past, w, k);
    v, events := Marks(rule, events, v, k);
    v, events := Begins(rule, events, v, k);
    assert v.workers == w.workers[k := w.workers[k].(pc := Acting, claimed := claimed)];
  }

  lemma FirstRunActs(rule: Rule) returns (v: World, events: seq<Event>)
    ensures v == ActingOn(Init(""), 0, 1, New, "") && Reached(rule, events, v)
  {
    var w := Init("");
    var w1, e1 := PicksUp(rule, [], w, 1, 0);
    v, events := Starts(rule, e1, w1, 1);
    assert v.workers == ActingOn(w, 0, 1, New, "").workers;
  }

  /** A follow-up from a settled row, up to its act transaction. */
  lemma FollowUpActs(rule: Rule, past: seq<Event>, w: World, text: string, run: RunId, k: WorkerId)
    returns (v: World, events: seq<Event>)
    requires Reached(rule, past, w)
    requires Resumable(w.row.state) && !w.signal && run !in w.runs && k !in w.workers
    ensures v == ActingOn(w, run, k, FollowUp, text)
    ensures Reached(rule, events, v) && past <= events
  {
    var w1, e1 := Sends(rule, past, w, text, run);
    var w2, e2 := PicksUp(rule, e1, w1, k, run);
    var w3, e3 := Reads(rule, e2, w2, k);
    v, events := Starts(rule, e3, w3, k);
    var u := ActingOn(w, run, k, FollowUp, text);
    LastWriteStands(w.runs, run, w1.runs[run], u.runs[run]);
    LastWriteStands(w.workers, k, w2.workers[k], w3.workers[k]);
    LastWriteStands(w.workers, k, w3.workers[k], u.workers[k]);
    assert v.workers == u.workers;
  }

  lemma LastWriteStands<X, Y>(m: map<X, Y>, x: X, first: Y, last: Y)
    ensures m[x := first][x := last] == m[x := last]
  {
  }

  const WINDOW := JobTypes.Step(ProjectOps, 0, None, false, None, false)

  /** A round with one window step left for approval, or with nothing to decide. */
  function Answer(goal: string, open: bool): Draft {
    Draft(goal, false, if open then [Proposal(ProjectOps, 0, None, false)] else [], [], false, false, false, false, 0)
  }

  function Reply(open: bool): Turn {
    AgentTurn(if open then [WINDOW] else [], 0)
  }

  lemma AnswerTurns(claimed: Row, goal: string, open: bool)
    requires |goal| <= 1
    ensures var r := Act(claimed, Answer(goal, open));
      r.turns == [UserTurn(goal), Reply(open)] && r.outcomes == [] && Resumable(r.state)
  {
    NothingSaved(Answer(goal, open), |claimed.transcript| + 1);
    assert SavedSteps(Answer(goal, open)) == Reply(open).steps;
  }

  /** The act transaction of a worker commits: the row settles with its transcript. */
  lemma Commits(rule: Rule, past: seq<Event>, w: World, k: WorkerId, goal: string, open: bool)
    returns (v: World, events: seq<Event>)
    requires Reached(rule, past, w) && At(w, k, Acting) && w.row.state == Running && |goal| <= 1
    requires rule.LeaseRule? || HoldsLease(w, k)
    ensures Resumable(v.row.state) && v.row.outcomes == w.row.outcomes
    ensures v.row.transcript == w.workers[k].claimed.transcript + [UserTurn(goal), Reply(open)]
    ensures v.workers == w.workers[k := w.workers[k].(pc := Committed)]
    ensures v.runs == w.runs && v.approvals == w.approvals && v.signal == w.signal
    ensures |v.rounds| == |w.rounds| + 1 && v.rounds[|w.rounds|].worker == k
    ensures Reached(rule, events, v) && past <= events
  {
    AnswerTurns(w.workers[k].claimed, goal, open);
    v, events := Step(rule, past, w, CommitAct(k, Answer(goal, open)));
    assert v.row.outcomes == w.row.outcomes;
  }

  lemma Faults(rule: Rule, past: seq<Event>, w: World, k: WorkerId) returns (v: World, events: seq<Event>)
    requires Reached(rule, past, w) && HoldsLease(w, k) && w.workers[k].pc in {PickedUp, Committed}
    requires rule.LateFaultRule? || w.workers[k].pc == PickedUp
    ensures v == w.(workers := w.workers[k := w.workers[k].(pc := Failing(w.workers[k].pc == Committed))])
    ensures Reached(rule, events, v) && past <= events
  {
    v, events := Step(rule, past, w, Fault(k));
  }

  /** A first run records its failure on a live row. */
  lemma FailsFirst(rule: Rule, past: seq<Event>, w: World, k: WorkerId, code: string)
    returns (v: World, events: seq<Event>)
    requires Reached(rule, past, w) && HoldsLease(w, k) && w.workers[k].pc.Failing? && w.workers[k].mode.New?
    requires Live(w.row.state) && |code| <= 1 && w.workers[k].goal == ""
    ensures v == w.(row := Row(FailedRetryable, [UserTurn(""), ErrorTurn(code)], w.row.outcomes),
                    workers := w.workers[k := w.workers[k].(pc := Leaving(false))])
    ensures Reached(rule, events, v) && past <= events
  {
    v, events := Step(rule, past, w, RecordFault(k, code));
  }

  lemma CleansUp(rule: Rule, past: seq<Event>, w: World, k: WorkerId) returns (v: World, events: seq<Event>)
    requires Reached(rule, past, w) && HoldsLease(w, k) && w.workers[k].pc == Leaving(false)
    ensures var run := w.workers[k].run;
      v == w.(signal := false, runs := w.runs[run := w.runs[run].(phase := Over(true))],
              workers := w.workers[k := w.workers[k].(pc := Gone)])
    ensures Reached(rule, events, v) && past <= events
  {
    v, events := Step(rule, past, w, CleanUp(k));
  }

  lemma GivesUp(rule: Rule, past: seq<Event>, w: World, run: RunId) returns (v: World, events: seq<Event>)
    requires Reached(rule, past, w) && run in w.runs && w.runs[run].phase.Held? && Live(w.row.state)
    requires rule.LateLeaseRule? || InPlay(w, run)
    ensures v == w.(row := w.row.(state := FailedRetryable), runs := w.runs[run := w.runs[run].(phase := Over(true))])
    ensures Reached(rule, events, v) && past <= events
  {
    v, events := Step(rule, past, w, LoseLease(run, true));
  }

  lemma Opens(rule: Rule, past: seq<Event>, w: World, request: RequestId) returns (v: World, events: seq<Event>)
    requires Reached(rule, past, w) && !Live(w.row.state) && request !in w.approvals
    ensures v == w.(approvals := w.approvals[request := Approval(w.row.transcript, w.row.outcomes)])
    ensures Reached(rule, events, v) && past <= events
  {
    v, events := Step(rule, past, w, OpenApproval(request));
  }

  /** Approving the one open window of a two-turn transcript leaves an entry and two turns. */
  lemma ApprovesTheWindow(a: Approval, verdicts: seq<Verdict>)
    requires |a.transcript| == 2 && a.transcript[1] == Reply(true) && a.outcomes == []
    requires verdicts == [Saved(NO_RECEIPT)]
    ensures var (t, entries) := Approve(a, verdicts, false);
      |t| == 2 && t[0] == a.transcript[0] && entries != []
  {
    var marks := ApprovalMarks(a, 1, verdicts, false);
    assert marks[0].Some?;
    CollectFinds(marks, 0);
  }

  /** The approval of that window is stored over whatever settled row it finds. */
  lemma Stores(rule: Rule, past: seq<Event>, w: World, request: RequestId) returns (v: World, events: seq<Event>)
    requires Reached(rule, past, w) && !Live(w.row.state) && request in w.approvals
    requires var a := w.approvals[request]; |a.transcript| == 2 && a.transcript[1] == Reply(true) && a.outcomes == []
    requires rule.AtomicApprovalRule? || w.approvals[request] == Approval(w.row.transcript, w.row.outcomes)
    requires rule.CanceledApprovalRule? || w.row.state != Canceled
    ensures |v.row.transcript| == 2 && v.row.transcript[0] == w.approvals[request].transcript[0]
    ensures Resumable(v.row.state) && v.runs == w.runs && v.workers == w.workers && v.signal == w.signal
    ensures v.rounds == w.rounds
    ensures Reached(rule, events, v) && past <= events
  {
    var verdicts := [Saved(NO_RECEIPT)];
    ApprovesTheWindow(w.approvals[request], verdicts);
    v, events := Step(rule, past, w, StoreApproved(request, verdicts, false));
  }

  lemma Cancels(rule: Rule, past: seq<Event>, w: World) returns (v: World, events: seq<Event>)
    requires Reached(rule, past, w) && !Terminal(w.row.state)
    ensures v == w.(row := w.row.(state := Canceled))
    ensures Reached(rule, events, v) && events == past + [Cancel(false)]
  {
    v, events := Step(rule, past, w, Cancel(false));
  }

  // ---------------------------------------------------------------- the hazards

  /** A first run fails after its round committed: its failure record replaces the transcript of a follow-up. */
  lemma LateFaultLosesTurns() returns (past: seq<Event>, future: seq<Event>)
    ensures Loses(LateFaultRule, past, future)
  {
    var rule := LateFaultRule;
    var w0, e0 := FirstRunActs(rule);
    var w1, e1 := Commits(rule, e0, w0, 1, "", false);
    var w2, e2 := Sends(rule, e1, w1, "b", 1);
    var w3, e3 := Faults(rule, e2, w2, 1);
    var w4, e4 := FailsFirst(rule, e3, w3, 1, "x");
    assert w1.row.transcript[1] == Reply(false) && w4.row.transcript[1] == ErrorTurn("x");
    assert BareTurn(w1.row.transcript[1]) != BareTurn(w4.row.transcript[1]);
    Lost(rule, e1, w1, e4, w4);
    past, future := e1, e4[|e1|..];
  }

  /** The first run failed and its worker left; a retry waits. */
  lemma FirstRunFailed() returns (v: World, events: seq<Event>)
    ensures v.row == Row(FailedRetryable, [UserTurn(""), ErrorTurn("x")], [])
    ensures v.runs == map[0 := QueuedRun(New, "", Over(true))] && 2 !in v.workers && !v.signal
    ensures Reached(ReplayRule, events, v)
  {
    var rule := ReplayRule;
    var w0, e0 := PicksUp(rule, [], Init(""), 1, 0);
    var w1, e1 := Faults(rule, e0, w0, 1);
    var w2, e2 := FailsFirst(rule, e1, w1, 1, "x");
    v, events := CleansUp(rule, e2, w2, 1);
    assert v.runs == map[0 := QueuedRun(New, "", Over(true))];
  }

  /** The retry waits, the first request is sent again, and its run fails once more. */
  lemma ReplayFails(past: seq<Event>, w: World) returns (v: World, events: seq<Event>)
    requires Reached(ReplayRule, past, w) && w.row == Row(FailedRetryable, [UserTurn(""), ErrorTurn("x")], [])
    requires w.runs == map[0 := QueuedRun(New, "", Over(true))] && 2 !in w.workers && !w.signal
    ensures Reached(ReplayRule, events, v) && past <= events
    ensures v.row.transcript == [UserTurn(""), ErrorTurn("y")]
  {
    var rule := ReplayRule;
    var w1, e1 := Sends(rule, past, w, "", 1);
    var w2, e2 := Step(rule, e1, w1, Resubmit(0));
    var w3, e3 := PicksUp(rule, e2, w2, 2, 0);
    var w4, e4 := Faults(rule, e3, w3, 2);
    v, events := FailsFirst(rule, e4, w4, 2, "y");
  }

  /** The first request is sent again while a retry of its failure waits: the replayed run fails over the retry. */
  lemma ReplayLosesTurns() returns (past: seq<Event>, future: seq<Event>)
    ensures Loses(ReplayRule, past, future)
  {
    var rule := ReplayRule;
    var w0, e0 := FirstRunFailed();
    var w5, e5 := ReplayFails(e0, w0);
    assert BareTurn(w0.row.transcript[1]) != BareTurn(w5.row.transcript[1]);
    Lost(rule, e0, w0, e5, w5);
    past, future := e0, e5[|e0|..];
  }

  /** A worker whose run was given up finishes over a later round. */
  lemma StaleWorkerLosesTurns() returns (past: seq<Event>, future: seq<Event>)
    ensures Loses(LeaseRule, past, future)
  {
    var rule := LeaseRule;
    var w0, e0 := FirstRunActs(rule);
    var w1, e1 := GivesUp(rule, e0, w0, 0);
    var w2, e2 := FollowUpActs(rule, e1, w1, "b", 1, 2);
    var w3, e3 := Commits(rule, e2, w2, 2, "b", false);
    var w4, e4 := FollowUpActs(rule, e3, w3, "c", 2, 3);
    var w5, e5 := Commits(rule, e4, w4, 1, "", false);
    assert w3.row.transcript[0] == UserTurn("b") && w5.row.transcript[0] == UserTurn("");
    assert BareTurn(w3.row.transcript[0]) != BareTurn(w5.row.transcript[0]);
    Lost(rule, e3, w3, e5, w5);
    past, future := e3, e5[|e3|..];
  }

  /** The queue gives up on a run whose round is over and settles another run's row: that run's slow claim later
      writes an old transcript back. */
  lemma LateLeaseLossLosesTurns() returns (past: seq<Event>, future: seq<Event>)
    ensures Loses(LateLeaseRule, past, future)
  {
    var rule := LateLeaseRule;
    var w0, e0 := FirstRunActs(rule);
    var w1, e1 := Commits(rule, e0, w0, 1, "", false);
    var w2, e2 := Sends(rule, e1, w1, "b", 1);
    var w3, e3 := PicksUp(rule, e2, w2, 2, 1);
    var w4, e4 := Reads(rule, e3, w3, 2);
    var w5, e5 := GivesUp(rule, e4, w4, 0);
    var w6, e6 := FollowUpActs(rule, e5, w5, "c", 2, 3);
    var w7, e7 := Commits(rule, e6, w6, 3, "c", false);
    var w8, e8 := Sends(rule, e7, w7, "d", 3);
    var w9, e9 := Claims(rule, e8, w8, 2);
    assert |w7.row.transcript| == 4 && |w9.row.transcript| == 2;
    Lost(rule, e7, w7, e9, w9);
    past, future := e7, e9[|e7|..];
  }

  /** An approval stores the transcript it read before a follow-up committed. */
  lemma StaleApprovalLosesTurns() returns (past: seq<Event>, future: seq<Event>)
    ensures Loses(AtomicApprovalRule, past, future)
  {
    var rule := AtomicApprovalRule;
    var w0, e0 := FirstRunActs(rule);
    var w1, e1 := Commits(rule, e0, w0, 1, "", true);
    var w2, e2 := Opens(rule, e1, w1, 0);
    var w3, e3 := FollowUpActs(rule, e2, w2, "b", 1, 2);
    var w4, e4 := Commits(rule, e3, w3, 2, "b", false);
    var w5, e5 := Stores(rule, e4, w4, 0);
    assert |w4.row.transcript| == 4;
    Lost(rule, e4, w4, e5, w5);
    past, future := e4, e5[|e4|..];
  }

  /** A follow-up is in its act transaction, its job was canceled, and an approval revived the row. */
  lemma RevivedInFlight() returns (w: World, past: seq<Event>, v: World, events: seq<Event>)
    ensures Reached(CanceledApprovalRule, past, w) && At(w, 2, Acting)
    ensures RequestCancel(w.row, w.signal, false).2 == CanceledNow
    ensures |v.row.transcript| == 2 && Resumable(v.row.state) && !v.signal
    ensures v.runs.Keys == {0, 1} && v.workers.Keys == {1, 2}
    ensures At(v, 2, Acting) && HoldsLease(v, 2) && |v.workers[2].claimed.transcript| == 2
    ensures Reached(CanceledApprovalRule, events, v) && past + [Cancel(false)] <= events && v.rounds == w.rounds
  {
    var rule := CanceledApprovalRule;
    var w0, e0 := FirstRunActs(rule);
    var w1, e1 := Commits(rule, e0, w0, 1, "", true);
    w, past := FollowUpActs(rule, e1, w1, "b", 1, 2);
    var w3, e3 := Cancels(rule, past, w);
    var w4, e4 := Opens(rule, e3, w3, 0);
    v, events := Stores(rule, e4, w4, 0);
  }

  /** Without that condition a cancel is not final: after it answered «canceled», an approval revives the row, a
      new follow-up runs, and the canceled round commits into the new one's episode. */
  lemma CanceledRoundMayCommit() returns (past: seq<Event>, future: seq<Event>)
    ensures var w, v := Run(Init(""), past), Run(Init(""), past + [Cancel(false)] + future);
      At(w, 2, Acting)
      && RequestCancel(w.row, w.signal, false).2 == CanceledNow
      && |v.rounds| > |w.rounds| && v.rounds[|w.rounds|].worker == 2
  {
    var rule := CanceledApprovalRule;
    var w, e, w5, e5 := RevivedInFlight();
    var w6, e6 := FollowUpActs(rule, e5, w5, "c", 2, 3);
    var w7, e7 := Commits(rule, e6, w6, 2, "b", false);
    past, future := e, e7[|e| + 1..];
    assert past + [Cancel(false)] + future == e7;
  }

  /** An approval revives a canceled row while the canceled round is still in flight: two rounds are then in
      flight, and the second to commit drops the turns of the first. */
  lemma CanceledApprovalLosesTurns() returns (past: seq<Event>, future: seq<Event>)
    ensures Loses(CanceledApprovalRule, past, future)
  {
    var rule := CanceledApprovalRule;
    var _, _, w5, e5 := RevivedInFlight();
    var w6, e6 := FollowUpActs(rule, e5, w5, "c", 2, 3);
    var w7, e7 := Commits(rule, e6, w6, 2, "b", false);
    var w8, e8 := FollowUpActs(rule, e7, w7, "d", 3, 4);
    var w9, e9 := Commits(rule, e8, w8, 3, "c", false);
    assert w7.row.transcript[2] == UserTurn("b") && w9.row.transcript[2] == UserTurn("c");
    assert BareTurn(w7.row.transcript[2]) != BareTurn(w9.row.transcript[2]);
    Lost(rule, e7, w7, e9, w9);
    past, future := e7, e9[|e7|..];
  }

  /** No rule of the discipline can be dropped. */
  lemma EachRuleIsNeeded(rule: Rule)
    ensures exists past, future :: Loses(rule, past, future)
  {
    var past, future;
    match rule {
      case LeaseRule => past, future := StaleWorkerLosesTurns();
      case ReplayRule => past, future := ReplayLosesTurns();
      case LateLeaseRule => past, future := LateLeaseLossLosesTurns();
      case LateFaultRule => past, future := LateFaultLosesTurns();
      case AtomicApprovalRule => past, future := StaleApprovalLosesTurns();
      case CanceledApprovalRule => past, future := CanceledApprovalLosesTurns();
    }
  }
}
