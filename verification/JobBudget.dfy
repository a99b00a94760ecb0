/** When the error budget is lost: exactly by an approval that decides something on a FAILED row while something that
    may still be written back carries three errors. */
module JobBudget {
  import opened Basics
  import opened JobTypes
  import opened JobUpdates
  import opened AgentRounds
  import opened Approvals
  import opened JobProtocol
  import opened JobSafety
  import opened JobOrderly
  import opened JobHazards

  /** Whatever comes next, short of approving the failed row, the budget holds. */
  ghost predicate BudgetHoldsFrom(w: World) {
    forall events | NeverApprovesFailed(w, events) :: WithinBudget(Run(w, events).row)
  }

  lemma {:induction false} FreshKey(keys: set<nat>) returns (n: nat)
    ensures forall k | k in keys :: k < n
    decreases |keys|
  {
    if keys == {} {
      n := 0;
    } else {
      var k :| k in keys;
      n := FreshKey(keys - {k});
      if n <= k {
        n := k + 1;
      }
      forall j | j in keys ensures j < n {
        assert j == k || j in keys - {k};
      }
    }
  }

  // ---------------------------------------------------------------- worlds reached without such an approval

  /** Some continuation without such an approval leads there. */
  ghost predicate Leads(v: World, u: World) {
    exists events :: NeverApprovesFailed(v, events) && Run(v, events) == u
  }

  lemma {:induction false} NeverParts(w: World, a: seq<Event>, e: Event)
    requires NeverApprovesFailed(w, a) && !ApprovesFailed(Run(w, a), e)
    ensures NeverApprovesFailed(w, a + [e])
    decreases |a|
  {
    if a == [] {
      assert (a + [e])[0] == e && (a + [e])[1..] == [];
    } else {
      assert (a + [e])[1..] == a[1..] + [e];
      NeverParts(Next(w, a[0]), a[1..], e);
    }
  }

  lemma LeadsNowhere(v: World)
    ensures Leads(v, v)
  {
    assert NeverApprovesFailed(v, []) && Run(v, []) == v;
  }

  lemma LeadsOn(v: World, u: World, e: Event)
    requires Leads(v, u) && u.row.state != Failed
    ensures Leads(v, Next(u, e))
  {
    var events :| NeverApprovesFailed(v, events) && Run(v, events) == u;
    NeverParts(v, events, e);
    RunAppend(v, events, [e]);
    assert [e][1..] == [];
    assert Run(v, events + [e]) == Next(u, e);
  }

  lemma LeadsToALoss(v: World, u: World)
    requires Leads(v, u) && !WithinBudget(u.row)
    ensures !BudgetHoldsFrom(v)
  {
    var events :| NeverApprovesFailed(v, events) && Run(v, events) == u;
  }

  // ---------------------------------------------------------------- a follow-up at work

  /** The workers of `v` stand in `u` as they stood. */
  predicate KeepsWorkers(v: World, u: World) {
    forall k | k in v.workers :: k in u.workers && u.workers[k] == v.workers[k]
  }

  /** A follow-up's run, leased by a worker that `v` did not have. */
  predicate Leased(v: World, u: World, run: RunId, k: WorkerId, pc: Pc) {
    && k !in v.workers && k in u.workers && run in u.runs
    && u.runs[run].phase == Held(k) && u.runs[run].mode.FollowUp?
    && u.workers[k].run == run && u.workers[k].mode.FollowUp? && u.workers[k].pc == pc
  }

  lemma Sent(v: World) returns (u: World, run: RunId)
    requires Resumable(v.row.state)
    ensures Leads(v, u) && u.row == v.row.(state := Queued) && u.workers == v.workers && u.signal == v.signal
    ensures run in u.runs && u.runs[run] == QueuedRun(FollowUp, "", Waiting)
  {
    run := FreshKey(v.runs.Keys);
    LeadsNowhere(v);
    u := FollowUpStep(v, "", run, false);
    LeadsOn(v, v, Message("", run, false));
  }

  lemma Taken(v: World, u0: World, run: RunId) returns (u: World, k: WorkerId)
    requires Leads(v, u0) && u0.row.state == Queued && KeepsWorkers(v, u0)
    requires run in u0.runs && u0.runs[run].phase == Waiting && u0.runs[run].mode.FollowUp?
    ensures Leads(v, u) && u.row == u0.row && u.signal == u0.signal && KeepsWorkers(v, u)
    ensures Leased(v, u, run, k, PickedUp)
  {
    k := FreshKey(u0.workers.Keys);
    u := PickUpStep(u0, k, run);
    LeadsOn(v, u0, PickUp(k, run));
  }

  lemma Released(v: World, u0: World, run: RunId, k: WorkerId) returns (u: World)
    requires Leads(v, u0) && u0.row.state == Queued && KeepsWorkers(v, u0) && Leased(v, u0, run, k, PickedUp)
    ensures Leads(v, u) && u == u0.(runs := u0.runs[run := u0.runs[run].(phase := Waiting)])
  {
    u := LoseLeaseStep(u0, run, false);
    LeadsOn(v, u0, LoseLease(run, false));
  }

  lemma Faulted(v: World, u0: World, k: WorkerId) returns (u: World)
    requires Leads(v, u0) && u0.row.state == Queued && At(u0, k, PickedUp)
    ensures Leads(v, u) && u == Move(u0, k, Failing(false))
  {
    u := FaultStep(u0, k);
    LeadsOn(v, u0, Fault(k));
  }

  /** A follow-up that fails on a QUEUED row writes nothing. */
  lemma FaultIgnored(v: World, u0: World, k: WorkerId) returns (u: World)
    requires Leads(v, u0) && u0.row.state == Queued && At(u0, k, Failing(false)) && u0.workers[k].mode.FollowUp?
    ensures Leads(v, u) && u == Move(u0, k, Leaving(false))
  {
    u := RecordFaultStep(u0, k, "");
    LeadsOn(v, u0, RecordFault(k, ""));
  }

  lemma Left(v: World, u0: World, k: WorkerId) returns (u: World)
    requires Leads(v, u0) && u0.row.state == Queued && At(u0, k, Leaving(false))
    requires var run := u0.workers[k].run; run in u0.runs ==> u0.runs[run].phase != Held(k)
    ensures Leads(v, u) && u == Move(u0, k, Gone).(signal := false)
  {
    u := CleanUpStep(u0, k);
    LeadsOn(v, u0, CleanUp(k));
  }

  /** A worker of the run loses its lease, fails and leaves, and takes the cancel signal with it. */
  lemma Cleared(v: World, u0: World, run: RunId, k: WorkerId) returns (u: World)
    requires Leads(v, u0) && u0.row.state == Queued && KeepsWorkers(v, u0) && Leased(v, u0, run, k, PickedUp)
    ensures Leads(v, u) && u.row == u0.row && !u.signal && KeepsWorkers(v, u)
    ensures run in u.runs && u.runs[run].phase == Waiting && u.runs[run].mode.FollowUp?
  {
    var u1 := Released(v, u0, run, k);
    var u2 := Faulted(v, u1, k);
    var u3 := FaultIgnored(v, u2, k);
    u := Left(v, u3, k);
  }

  /** From a settled row, a follow-up waits to be claimed and no cancel signal stands. */
  lemma Readied(v: World) returns (u: World, run: RunId, k: WorkerId)
    requires Resumable(v.row.state)
    ensures Leads(v, u) && u.row == v.row.(state := Queued) && !u.signal && KeepsWorkers(v, u)
    ensures Leased(v, u, run, k, PickedUp)
  {
    u, run := Sent(v);
    u, k := Taken(v, u, run);
    u := Cleared(v, u, run, k);
    u, k := Taken(v, u, run);
  }

  /** The follow-up reads and claims; the row is PLANNING. */
  lemma Underway(v: World) returns (u: World, run: RunId, k: WorkerId)
    requires Resumable(v.row.state)
    ensures Leads(v, u) && u.row == v.row.(state := Planning) && KeepsWorkers(v, u)
    ensures Leased(v, u, run, k, Claimed)
  {
    var u0;
    u0, run, k := Readied(v);
    LeadsOn(v, u0, ReadPrior(k));
    u := PriorClaims(v, ReadPriorStep(u0, k), run, k);
  }

  lemma PriorClaims(v: World, u0: World, run: RunId, k: WorkerId) returns (u: World)
    requires Leads(v, u0) && u0.row.state == Queued && !u0.signal && KeepsWorkers(v, u0)
    requires Leased(v, u0, run, k, PriorRead) && u0.workers[k].before == u0.row.transcript
    ensures Leads(v, u) && u.row == u0.row.(state := Planning) && KeepsWorkers(v, u)
    ensures Leased(v, u, run, k, Claimed)
  {
    u := ClaimStep(u0, k, true);
    LeadsOn(v, u0, Claim(k, true));
  }

  /** ... and marks it RUNNING. */
  lemma Started(v: World) returns (u: World, run: RunId, k: WorkerId)
    requires Resumable(v.row.state)
    ensures Leads(v, u) && u.row == v.row.(state := Running) && KeepsWorkers(v, u)
    ensures Leased(v, u, run, k, Marked)
  {
    var u0;
    u0, run, k := Underway(v);
    u := MarkStep(u0, k);
    LeadsOn(v, u0, Mark(k));
  }

  // ---------------------------------------------------------------- what loses the budget

  /** A live row with three errors whose run is given up. */
  lemma LiveLoses(v: World, u: World, run: RunId)
    requires Leads(v, u) && Live(u.row.state) && ErrorTurns(u.row.transcript) >= 3
    requires run in u.runs && u.runs[run].phase.Held?
    ensures !BudgetHoldsFrom(v)
  {
    LeadsOn(v, u, LoseLease(run, true));
    LeadsToALoss(v, LoseLeaseStep(u, run, true));
  }

  /** A settled row with three errors. */
  lemma SettledLoses(v: World)
    requires Resumable(v.row.state) && ErrorTurns(v.row.transcript) >= 3
    ensures !BudgetHoldsFrom(v)
  {
    var u, run, k := Readied(v);
    LiveLoses(v, u, run);
  }

  lemma LossIsInherited(v: World, u: World)
    requires Leads(v, u) && !BudgetHoldsFrom(u)
    ensures !BudgetHoldsFrom(v)
  {
    var events :| NeverApprovesFailed(v, events) && Run(v, events) == u;
    var more :| NeverApprovesFailed(u, more) && !WithinBudget(Run(u, more).row);
    NeverJoins(v, events, more);
    RunAppend(v, events, more);
    assert !WithinBudget(Run(v, events + more).row);
  }

  lemma {:induction false} NeverJoins(w: World, a: seq<Event>, b: seq<Event>)
    requires NeverApprovesFailed(w, a) && NeverApprovesFailed(Run(w, a), b)
    ensures NeverApprovesFailed(w, a + b)
    decreases |a|
  {
    if a == [] {
      assert a + b == b;
    } else {
      assert (a + b)[1..] == a[1..] + b;
      NeverJoins(Next(w, a[0]), a[1..], b);
    }
  }

  /** An approval that decides something writes its own errors into a row that then is settled. */
  lemma PassWritesItsErrors(v: World, a: RequestId, verdicts: seq<Verdict>, quotes: bool)
    requires Resumable(v.row.state) && a in v.approvals && Approve(v.approvals[a], verdicts, quotes).1 != []
    ensures var row := StoreApprovedStep(v, a, verdicts, quotes).row;
      Resumable(row.state) && ErrorTurns(row.transcript) == ErrorTurns(v.approvals[a].transcript)
  {
    ApprovalKeepsTurns(v.approvals[a], verdicts, quotes);
    GrowsKeepsErrors(v.approvals[a].transcript, Approve(v.approvals[a], verdicts, quotes).0);
  }

  /** An approval that carries three errors and would decide something. */
  lemma ApprovalLoses(v: World, a: RequestId)
    requires Resumable(v.row.state) && a in v.approvals && !ApprovalBounded(v.approvals[a])
    ensures !BudgetHoldsFrom(v)
  {
    var verdicts, quotes :| Approve(v.approvals[a], verdicts, quotes).1 != [];
    PassWritesItsErrors(v, a, verdicts, quotes);
    var e := StoreApproved(a, verdicts, quotes);
    LeadsNowhere(v);
    LeadsOn(v, v, e);
    SettledLoses(Next(v, e));
    LossIsInherited(v, Next(v, e));
  }

  /** A worker that read three errors and has not claimed. */
  lemma ReaderLoses(v: World, j: WorkerId)
    requires Resumable(v.row.state) && At(v, j, PriorRead) && ErrorTurns(v.workers[j].before) >= 3
    ensures !BudgetHoldsFrom(v)
  {
    var u, run, k := Readied(v);
    LeadsOn(v, u, Claim(j, true));
    LiveLoses(v, ClaimStep(u, j, true), run);
  }

  /** A worker that commits on a RUNNING row writes the errors it claimed into a row that then is settled. */
  lemma CommitWritesItsErrors(u: World, j: WorkerId)
    requires u.row.state == Running && At(u, j, Acting)
    ensures var row := CommitActStep(u, j, Answer("", false)).row;
      Resumable(row.state) && ErrorTurns(row.transcript) == ErrorTurns(u.workers[j].claimed.transcript)
  {
    AnswerTurns(u.workers[j].claimed, "", false);
    RoundAddsNoError(u.workers[j].claimed, Answer("", false));
  }

  /** A worker inside its act that claimed three errors. */
  lemma ActorLoses(v: World, u: World, j: WorkerId)
    requires Leads(v, u) && u.row.state == Running && At(u, j, Acting)
    requires ErrorTurns(u.workers[j].claimed.transcript) >= 3
    ensures !BudgetHoldsFrom(v)
  {
    CommitWritesItsErrors(u, j);
    var e := CommitAct(j, Answer("", false));
    LeadsOn(v, u, e);
    SettledLoses(Next(u, e));
    LossIsInherited(v, Next(u, e));
  }

  lemma MarkedLoses(v: World, u: World, j: WorkerId)
    requires Leads(v, u) && u.row.state == Running && At(u, j, Marked)
    requires ErrorTurns(u.workers[j].claimed.transcript) >= 3
    ensures !BudgetHoldsFrom(v)
  {
    LeadsOn(v, u, BeginAct(j));
    ActorLoses(v, BeginActStep(u, j), j);
  }

  /** A worker between its claim and its act that claimed three errors. */
  lemma ClaimerLoses(v: World, j: WorkerId)
    requires Resumable(v.row.state) && j in v.workers && v.workers[j].pc in {Claimed, Marked, Acting}
    requires ErrorTurns(v.workers[j].claimed.transcript) >= 3
    ensures !BudgetHoldsFrom(v)
  {
    if v.workers[j].pc == Claimed {
      var u, run, k := Underway(v);
      var z := MarkStep(u, j);
      LeadsOn(v, u, Mark(j));
      MarkedLoses(v, z, j);
    } else {
      var u, run, k := Started(v);
      if v.workers[j].pc == Marked {
        MarkedLoses(v, u, j);
      } else {
        ActorLoses(v, u, j);
      }
    }
  }

  // ---------------------------------------------------------------- exactly when

  /** From a settled row the budget holds for good if and only if nothing that may still be written back carries three
      errors. */
  lemma SettledBudgetIff(v: World)
    requires Resumable(v.row.state)
    ensures BudgetHoldsFrom(v) <==> ErrorsBounded(v)
  {
    if ErrorsBounded(v) {
      BoundedHolds(v);
    } else if !BoundedErrors(v.row) {
      SettledLoses(v);
    } else if k :| k in v.workers && !WorkerBounded(v.workers[k]) {
      if v.workers[k].pc == PriorRead {
        ReaderLoses(v, k);
      } else {
        ClaimerLoses(v, k);
      }
    } else {
      var a :| a in v.approvals && !ApprovalBounded(v.approvals[a]);
      ApprovalLoses(v, a);
    }
  }

  lemma BoundedHolds(v: World)
    requires ErrorsBounded(v)
    ensures BudgetHoldsFrom(v)
  {
    forall events | NeverApprovesFailed(v, events) ensures WithinBudget(Run(v, events).row) {
      RunKeepsErrors(v, events);
    }
  }

  /** Three errors are carried past this request: by the approval itself, by another one that would decide something, or
      by a worker that may still write back what it read or claimed. */
  ghost predicate CarriesThree(w: World, request: RequestId)
    requires request in w.approvals
  {
    || ErrorTurns(w.approvals[request].transcript) >= 3
    || (exists a | a in w.approvals :: a != request && !ApprovalBounded(w.approvals[a]))
    || (exists k | k in w.workers :: !WorkerBounded(w.workers[k]))
  }

  /** The approval leaves its own transcript in the row and goes on with it; the rest stays. */
  lemma ApprovedWorld(w: World, e: Event)
    requires ApprovesFailed(w, e)
    ensures var v, a := Next(w, e), w.approvals[e.request];
      && Resumable(v.row.state) && v.workers == w.workers && v.approvals.Keys == w.approvals.Keys
      && ErrorTurns(v.row.transcript) == ErrorTurns(a.transcript)
      && ErrorTurns(v.approvals[e.request].transcript) == ErrorTurns(a.transcript)
      && (forall b | b in w.approvals && b != e.request :: v.approvals[b] == w.approvals[b])
  {
    var a := w.approvals[e.request];
    ApprovalKeepsTurns(a, e.verdicts, e.quotes);
    GrowsKeepsErrors(a.transcript, Approve(a, e.verdicts, e.quotes).0);
  }

  lemma CarriedIsUnbounded(w: World, v: World, request: RequestId)
    requires request in w.approvals && Resumable(v.row.state) && v.workers == w.workers
    requires v.approvals.Keys == w.approvals.Keys
    requires ErrorTurns(v.row.transcript) == ErrorTurns(w.approvals[request].transcript)
    requires forall b | b in w.approvals && b != request :: v.approvals[b] == w.approvals[b]
    requires CarriesThree(w, request)
    ensures !ErrorsBounded(v)
  {
    if b :| b in w.approvals && b != request && !ApprovalBounded(w.approvals[b]) {
      assert !ApprovalBounded(v.approvals[b]);
    } else if k :| k in w.workers && !WorkerBounded(w.workers[k]) {
      assert !WorkerBounded(v.workers[k]);
    }
  }

  lemma UncarriedIsBounded(w: World, v: World, request: RequestId)
    requires request in w.approvals && Resumable(v.row.state) && v.workers == w.workers
    requires v.approvals.Keys == w.approvals.Keys
    requires ErrorTurns(v.row.transcript) == ErrorTurns(w.approvals[request].transcript)
    requires ErrorTurns(v.approvals[request].transcript) == ErrorTurns(w.approvals[request].transcript)
    requires forall b | b in w.approvals && b != request :: v.approvals[b] == w.approvals[b]
    requires !CarriesThree(w, request)
    ensures ErrorsBounded(v)
  {
    forall b | b in v.approvals ensures ApprovalBounded(v.approvals[b]) {
      if b != request {
        assert ApprovalBounded(w.approvals[b]);
      }
    }
  }

  lemma ApprovedWorldIsBoundedIff(w: World, e: Event)
    requires ApprovesFailed(w, e)
    ensures Resumable(Next(w, e).row.state)
    ensures ErrorsBounded(Next(w, e)) <==> !CarriesThree(w, e.request)
  {
    ApprovedWorld(w, e);
    if CarriesThree(w, e.request) {
      CarriedIsUnbounded(w, Next(w, e), e.request);
    } else {
      UncarriedIsBounded(w, Next(w, e), e.request);
    }
  }

  /** From any world reached without one, a step loses the budget for some continuation that approves no FAILED row if
      and only if it is an approval that decides something on a FAILED row and three errors are carried past it. */
  lemma BudgetExactly(goal: string, past: seq<Event>, e: Event)
    requires NeverApprovesFailed(Init(goal), past)
    ensures var w := Run(Init(goal), past);
      BudgetHoldsFrom(Next(w, e)) <==> !(ApprovesFailed(w, e) && CarriesThree(w, e.request))
  {
    var w := Run(Init(goal), past);
    RunKeepsErrors(Init(goal), past);
    if ApprovesFailed(w, e) {
      ApprovedWorldIsBoundedIff(w, e);
      SettledBudgetIff(Next(w, e));
    } else {
      StepKeepsErrors(w, e);
      BoundedHolds(Next(w, e));
    }
  }

  /** An approval that saw the three errors always loses it. */
  lemma ApprovingFailedLosesTheBudget(w: World, e: Event)
    requires ApprovesFailed(w, e) && ErrorTurns(w.approvals[e.request].transcript) >= 3
    ensures !BudgetHoldsFrom(Next(w, e))
  {
    ApprovedWorldIsBoundedIff(w, e);
    SettledBudgetIff(Next(w, e));
  }

  // ---------------------------------------------------------------- a run that fails a fourth time

  lemma OneMoreError(t: Transcript)
    ensures ErrorTurns(t + FailureTurns("", "x")) == ErrorTurns(t) + 1
  {
    ErrorTurnsAppend(t, FailureTurns("", "x"));
    FirstFailureCountsOne("", "x");
  }

  /** A follow-up whose claim is committed. */
  function ClaimedOn(w: World, run: RunId, k: WorkerId): World {
    var row := w.row.(state := Planning);
    w.(row := row,
       runs := w.runs[run := QueuedRun(FollowUp, "", Held(k))],
       workers := w.workers[k := Worker(run, FollowUp, "", Claimed, w.row.transcript, row)])
  }

  lemma FollowUpClaims(rule: Rule, past: seq<Event>, w: World, run: RunId, k: WorkerId)
    returns (v: World, events: seq<Event>)
    requires Reached(rule, past, w)
    requires Resumable(w.row.state) && !w.signal && run !in w.runs && k !in w.workers
    ensures v == ClaimedOn(w, run, k)
    ensures Reached(rule, events, v) && past <= events
  {
    var w1, e1 := Sends(rule, past, w, "", run);
    var w2, e2 := PicksUp(rule, e1, w1, k, run);
    var w3, e3 := Reads(rule, e2, w2, k);
    v, events := Claims(rule, e3, w3, k);
    var u := ClaimedOn(w, run, k);
    LastWriteStands(w.runs, run, w1.runs[run], u.runs[run]);
    LastWriteStands(w.workers, k, w2.workers[k], w3.workers[k]);
    LastWriteStands(w.workers, k, w3.workers[k], u.workers[k]);
    assert v.workers == u.workers;
  }

  lemma ClaimedFaults(rule: Rule, past: seq<Event>, w: World, k: WorkerId) returns (v: World, events: seq<Event>)
    requires Reached(rule, past, w) && HoldsLease(w, k) && w.workers[k].pc == Claimed
    ensures v == w.(workers := w.workers[k := w.workers[k].(pc := Failing(false))])
    ensures Reached(rule, events, v) && past <= events
  {
    v, events := JobHazards.Step(rule, past, w, Fault(k));
  }

  /** A follow-up records its failure over the transcript it read. */
  lemma FailsAgain(rule: Rule, past: seq<Event>, w: World, k: WorkerId) returns (v: World, events: seq<Event>)
    requires Reached(rule, past, w) && HoldsLease(w, k) && w.row.state == Planning
    requires var x := w.workers[k];
      x.pc == Failing(false) && x.mode.FollowUp? && x.before == w.row.transcript && x.goal == ""
    ensures v == w.(row := RecordFailure(w.row, w.row.transcript, "", "x").0,
                    workers := w.workers[k := w.workers[k].(pc := Leaving(false))])
    ensures Reached(rule, events, v) && past <= events
  {
    v, events := JobHazards.Step(rule, past, w, RecordFault(k, "x"));
  }

  /** The row a failed follow-up leaves. */
  function FailedAgain(row: Row): Row {
    var t := row.transcript + FailureTurns("", "x");
    row.(state := if ErrorTurns(t) >= MAX_ERROR_TURNS then Failed else FailedRetryable, transcript := t)
  }

  /** A follow-up that is claimed and fails. */
  lemma FollowUpFails(rule: Rule, past: seq<Event>, w: World, run: RunId, k: WorkerId)
    returns (v: World, events: seq<Event>)
    requires Reached(rule, past, w)
    requires Resumable(w.row.state) && !w.signal && run !in w.runs && k !in w.workers
    ensures v.row == FailedAgain(w.row)
    ensures v.runs.Keys == w.runs.Keys + {run} && v.workers.Keys == w.workers.Keys + {k}
    ensures !v.signal && v.approvals == w.approvals
    ensures Reached(rule, events, v) && past <= events
  {
    var w1, e1 := FollowUpClaims(rule, past, w, run, k);
    var w2, e2 := ClaimedFaults(rule, e1, w1, k);
    v, events := FailsAgain(rule, e2, w2, k);
  }

  /** Three failed follow-ups after a round that left one window open. */
  function FailedRow(n: nat): Row {
    if n == 0 then Row(WaitingForApproval, [UserTurn(""), Reply(true)], []) else FailedAgain(FailedRow(n - 1))
  }

  /** One round, its window open, and n errors behind it. */
  predicate OpenThenErrors(t: Transcript, n: nat) {
    && ErrorTurns(t) == n && |t| >= 2 && t[1] == Reply(true)
    && forall i | 1 < i < |t| :: !t[i].AgentTurn?
  }

  lemma OneMoreFailure(t: Transcript, n: nat)
    requires OpenThenErrors(t, n)
    ensures OpenThenErrors(t + FailureTurns("", "x"), n + 1)
  {
    OneMoreError(t);
    var more := FailureTurns("", "x");
    forall i | 1 < i < |t + more| ensures !(t + more)[i].AgentTurn? {
      assert (t + more)[i] == if i < |t| then t[i] else more[i - |t|];
    }
  }

  lemma {:induction false} FailedRowErrors(n: nat)
    ensures OpenThenErrors(FailedRow(n).transcript, n) && FailedRow(n).outcomes == []
    ensures n > 0 ==> FailedRow(n).state == if n >= 3 then Failed else FailedRetryable
  {
    if n == 0 {
      var t := FailedRow(0).transcript;
      assert t[..1] == [UserTurn("")] && ErrorTurns(t[..1]) == 0 by { assert t[..1][..0] == []; }
    } else {
      FailedRowErrors(n - 1);
      OneMoreFailure(FailedRow(n - 1).transcript, n - 1);
    }
  }

  /** What the approval of a failed row stores. */
  function ApprovedRow(row: Row): Row {
    var (t, entries) := Approve(Approval(row.transcript, row.outcomes), [Saved(NO_RECEIPT)], false);
    StoreApproval(row, t, entries)
  }

  lemma ApprovedRowKeepsErrors(row: Row)
    requires row.state == Failed && row.outcomes == []
    requires |row.transcript| >= 2 && row.transcript[1] == Reply(true)
    requires forall i | 1 < i < |row.transcript| :: !row.transcript[i].AgentTurn?
    ensures Approve(Approval(row.transcript, []), [Saved(NO_RECEIPT)], false).1 != []
    ensures Resumable(ApprovedRow(row).state)
    ensures ErrorTurns(ApprovedRow(row).transcript) == ErrorTurns(row.transcript)
  {
    var a, verdicts := Approval(row.transcript, []), [Saved(NO_RECEIPT)];
    assert LatestAgent(a.transcript) == 1;
    var marks := ApprovalMarks(a, 1, verdicts, false);
    assert marks[0].Some?;
    CollectFinds(marks, 0);
    ApprovalKeepsTurns(a, verdicts, false);
    GrowsKeepsErrors(a.transcript, Approve(a, verdicts, false).0);
  }

  lemma FailedIsApproved(rule: Rule, past: seq<Event>, w: World) returns (v: World, events: seq<Event>)
    requires Reached(rule, past, w) && w.row.state == Failed && 0 !in w.approvals && w.row.outcomes == []
    requires Approve(Approval(w.row.transcript, []), [Saved(NO_RECEIPT)], false).1 != []
    ensures v.row == ApprovedRow(w.row)
    ensures v.runs == w.runs && v.workers == w.workers && v.signal == w.signal
    ensures Reached(rule, events, v) && past <= events
  {
    var u, es := Opens(rule, past, w, 0);
    assert u.approvals[0] == Approval(w.row.transcript, w.row.outcomes);
    v, events := JobHazards.Step(rule, es, u, StoreApproved(0, [Saved(NO_RECEIPT)], false));
  }

  lemma FirstRunWaits(rule: Rule) returns (v: World, events: seq<Event>)
    ensures Resumable(v.row.state) && v.row.(state := WaitingForApproval) == FailedRow(0)
    ensures v.runs.Keys == {0} && v.workers.Keys == {1} && !v.signal && v.approvals == map[]
    ensures Reached(rule, events, v)
  {
    var w, e := FirstRunActs(rule);
    v, events := Commits(rule, e, w, 1, "", true);
  }

  lemma ThreeErrors(rule: Rule) returns (v: World, events: seq<Event>)
    ensures v.row == FailedRow(3)
    ensures v.runs.Keys == {0, 1, 2, 3} && v.workers.Keys == {1, 2, 3, 4} && !v.signal && v.approvals == map[]
    ensures Reached(rule, events, v)
  {
    var w0, e0 := FirstRunWaits(rule);
    var w1, e1 := FollowUpFails(rule, e0, w0, 1, 2);
    assert w1.row == FailedRow(1);
    FailedRowErrors(1);
    var w2, e2 := FollowUpFails(rule, e1, w1, 2, 3);
    assert w2.row == FailedRow(2);
    FailedRowErrors(2);
    v, events := FollowUpFails(rule, e2, w2, 3, 4);
  }

  /** A run from the start, keeping every rule of the discipline but any one, that fails for good with four error
      turns: three failed follow-ups, an approval of the FAILED row, and a fourth. */
  lemma FourthError(rule: Rule) returns (events: seq<Event>)
    ensures OrderlyBut(Init(""), events, rule)
    ensures var row := Run(Init(""), events).row;
      row.state == Failed && ErrorTurns(row.transcript) == 4 && !WithinBudget(row)
  {
    var w, e := ThreeErrors(rule);
    FailedRowErrors(3);
    ApprovedRowKeepsErrors(w.row);
    var w1, e1 := FailedIsApproved(rule, e, w);
    var v, all := FollowUpFails(rule, e1, w1, 4, 5);
    OneMoreError(w1.row.transcript);
    events := all;
  }
}
