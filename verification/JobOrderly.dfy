/** When the stored transcript only grows: the discipline workers, the queue and approvals must keep, and the
    proof that it is enough. `JobHazards` shows that no part of it can be dropped. */
module JobOrderly {
  import opened Basics
  import opened JobTypes
  import opened JobUpdates
  import opened AgentRounds
  import opened Approvals
  import opened JobProtocol
  import opened JobSafety

  // ---------------------------------------------------------------- the discipline

  /** The worker an event belongs to. */
  function Actor(e: Event): Option<WorkerId> {
    match e
    case Reject(k) => Some(k)
    case ReadPrior(k) => Some(k)
    case Claim(k, _) => Some(k)
    case Mark(k) => Some(k)
    case BeginAct(k) => Some(k)
    case PollCancel(k) => Some(k)
    case CommitAct(k, _) => Some(k)
    case Fault(k) => Some(k)
    case RecordFault(k, _) => Some(k)
    case RecordCancel(k) => Some(k)
    case Return(k) => Some(k)
    case CleanUp(k) => Some(k)
    case _ => None
  }

  /** A worker past its lease makes no further step, and the lease a claim reads is the true one. */
  ghost predicate LeaseRespected(w: World, e: Event) {
    && (Actor(e).Some? ==> HoldsLease(w, Actor(e).value))
    && (e.Claim? ==> e.leaseLive == LeaseLive(w))
  }

  /** The worker may still change the row. */
  predicate Active(pc: Pc) {
    pc in {PickedUp, PriorRead, Claimed, Marked, Acting, Failing(false), Canceling}
  }

  /** The run has a round ahead of it: it waits for a worker, or its worker may still change the row. */
  predicate InPlay(w: World, run: RunId) {
    run in w.runs &&
      match w.runs[run].phase
      case Waiting => true
      case Held(k) => k in w.workers && Active(w.workers[k].pc)
      case Over(_) => false
  }

  /** The first request is not replayed over its failed run. */
  ghost predicate NoReplay(w: World, e: Event) {
    e.Resubmit? ==> Next(w, e) == w
  }

  /** No lease is lost once the round is over. */
  ghost predicate NoLateLeaseLoss(w: World, e: Event) {
    e.LoseLease? && e.run in w.runs && w.runs[e.run].phase.Held? ==> InPlay(w, e.run)
  }

  /** A first run does not fail once its round is committed; a follow-up may. */
  ghost predicate NoLateFault(w: World, e: Event) {
    e.Fault? && At(w, e.worker, Committed) ==> w.workers[e.worker].mode.FollowUp?
  }

  /** An approval stores over exactly the transcript and outcomes it read. */
  ghost predicate ApprovalAtomic(w: World, e: Event) {
    e.StoreApproved? && e.request in w.approvals ==>
      w.approvals[e.request] == Approval(w.row.transcript, w.row.outcomes)
  }

  /** No approval is stored over a row somebody canceled. */
  ghost predicate ApprovalNotCanceled(w: World, e: Event) {
    e.StoreApproved? && e.request in w.approvals ==> w.row.state != Canceled
  }

  ghost predicate Permitted(w: World, e: Event) {
    LeaseRespected(w, e) && NoReplay(w, e) && NoLateLeaseLoss(w, e) && NoLateFault(w, e)
    && ApprovalAtomic(w, e) && ApprovalNotCanceled(w, e)
  }

  ghost predicate Orderly(w: World, events: seq<Event>)
    decreases |events|
  {
    events == [] || (Permitted(w, events[0]) && Orderly(Next(w, events[0]), events[1..]))
  }

  // ---------------------------------------------------------------- the invariant

  /** A lease names a worker of that very run. */
  ghost predicate WellLeased(w: World) {
    forall r | r in w.runs && w.runs[r].phase.Held? ::
      var k := w.runs[r].phase.worker;
      k in w.workers && w.workers[k].run == r && w.workers[k].mode == w.runs[r].mode
  }

  /** At most one run has a round ahead of it, and none does once the row is settled. */
  ghost predicate OneInPlay(w: World) {
    && (forall r, s | InPlay(w, r) && InPlay(w, s) :: r == s)
    && (!Live(w.row.state) ==> forall r | r in w.runs :: !InPlay(w, r))
  }

  /** A first run in play has found nothing to lose. */
  ghost predicate FirstRunIsFirst(w: World) {
    forall r | InPlay(w, r) && w.runs[r].mode.New? :: w.row.transcript == []
  }

  /** What the lease holder carries still is what the row holds. */
  ghost predicate ViewCurrent(row: Row, x: Worker) {
    match x.pc
    case PriorRead => x.before == row.transcript
    case Claimed =>
      row.state == Planning && x.claimed.transcript == row.transcript && (x.mode.FollowUp? ==> x.before == row.transcript)
    case Marked =>
      row.state == Running && x.claimed.transcript == row.transcript && (x.mode.FollowUp? ==> x.before == row.transcript)
    case Acting =>
      row.state == Running && x.claimed.transcript == row.transcript && (x.mode.FollowUp? ==> x.before == row.transcript)
    case Committed => x.mode.FollowUp? ==> |x.before| < |row.transcript|
    case Failing(late) => late ==> x.mode.FollowUp? && |x.before| < |row.transcript|
    case _ => true
  }

  ghost predicate HoldersCurrent(w: World) {
    forall k | k in w.workers && HoldsLease(w, k) :: ViewCurrent(w.row, w.workers[k])
  }

  /** On a canceled row no discipline is needed: nothing that is permitted changes it. */
  ghost predicate Disciplined(w: World) {
    && WellLeased(w)
    && (w.row.state != Canceled ==> OneInPlay(w) && FirstRunIsFirst(w) && HoldersCurrent(w))
  }

  // ---------------------------------------------------------------- every permitted step keeps it

  /** A step by someone else leaves a worker as it is. */
  lemma OthersLeaveWorker(w: World, e: Event, k: WorkerId)
    requires k in w.workers && Actor(e) != Some(k)
    ensures k in Next(w, e).workers && Next(w, e).workers[k] == w.workers[k]
  {
    if UpToAct(e) {
      EarlyStepLeavesWorker(w, e, k);
    } else if FromAct(e) {
      LateStepLeavesWorker(w, e, k);
    }
  }

  lemma EarlyStepLeavesWorker(w: World, e: Event, k: WorkerId)
    requires k in w.workers && Actor(e) != Some(k) && UpToAct(e)
    ensures k in Next(w, e).workers && Next(w, e).workers[k] == w.workers[k]
  {
    match e {
      case Claim(j, live) => assert ClaimStep(w, j, live).workers[k] == w.workers[k];
      case _ =>
    }
  }

  lemma LateStepLeavesWorker(w: World, e: Event, k: WorkerId)
    requires k in w.workers && Actor(e) != Some(k) && FromAct(e)
    ensures k in Next(w, e).workers && Next(w, e).workers[k] == w.workers[k]
  {
    match e {
      case CommitAct(j, draft) => assert CommitActStep(w, j, draft).workers[k] == w.workers[k];
      case RecordFault(j, code) => assert RecordFaultStep(w, j, code).workers[k] == w.workers[k];
      case _ =>
    }
  }

  /** Workers come from the queue only. */
  lemma OnlyThePickUpAddsWorkers(w: World, e: Event, k: WorkerId)
    requires k !in w.workers && k in Next(w, e).workers
    ensures e.PickUp? && e.worker == k && e.run in w.runs && w.runs[e.run].phase == Waiting
    ensures Next(w, e).workers[k].run == e.run
  {
    if UpToAct(e) || FromAct(e) {
      WorkersAddNone(w, e, k);
    }
  }

  lemma WorkersAddNone(w: World, e: Event, k: WorkerId)
    requires k !in w.workers && (UpToAct(e) || FromAct(e))
    ensures k !in Next(w, e).workers
  {
    if UpToAct(e) {
      EarlyStepsAddNone(w, e, k);
    }
  }

  lemma EarlyStepsAddNone(w: World, e: Event, k: WorkerId)
    requires k !in w.workers && UpToAct(e)
    ensures k !in Next(w, e).workers
  {
  }

  lemma OwnStepKeepsIdentity(w: World, e: Event, k: WorkerId)
    requires k in w.workers && Actor(e) == Some(k)
    ensures k in Next(w, e).workers
    ensures Next(w, e).workers[k].run == w.workers[k].run && Next(w, e).workers[k].mode == w.workers[k].mode
  {
    if UpToAct(e) {
      EarlyStepKeepsIdentity(w, e, k);
    }
  }

  lemma EarlyStepKeepsIdentity(w: World, e: Event, k: WorkerId)
    requires k in w.workers && Actor(e) == Some(k) && UpToAct(e)
    ensures k in Next(w, e).workers
    ensures Next(w, e).workers[k].run == w.workers[k].run && Next(w, e).workers[k].mode == w.workers[k].mode
  {
  }

  lemma WorkerKeepsIdentity(w: World, e: Event, k: WorkerId)
    requires k in w.workers
    ensures k in Next(w, e).workers
    ensures Next(w, e).workers[k].run == w.workers[k].run && Next(w, e).workers[k].mode == w.workers[k].mode
  {
    if Actor(e) == Some(k) {
      OwnStepKeepsIdentity(w, e, k);
    } else {
      OthersLeaveWorker(w, e, k);
    }
  }

  lemma LeaseComesFrom(w: World, e: Event, r: RunId)
    requires r in Next(w, e).runs && Next(w, e).runs[r].phase.Held?
    ensures (r in w.runs && Next(w, e).runs[r] == w.runs[r])
         || (e.PickUp? && e.run == r && e.worker !in w.workers && r in w.runs
             && Next(w, e).runs[r] == w.runs[r].(phase := Held(e.worker)))
  {
    if UpToAct(e) || FromAct(e) {
      WorkersTakeNoLease(w, e, r);
    }
  }

  lemma WorkersTakeNoLease(w: World, e: Event, r: RunId)
    requires r in Next(w, e).runs && Next(w, e).runs[r].phase.Held? && (UpToAct(e) || FromAct(e))
    ensures r in w.runs && Next(w, e).runs[r] == w.runs[r]
  {
    if e.Reject? || e.CleanUp? {
      EndingTakesNoLease(w, e, r);
    } else if UpToAct(e) {
      EarlyStepsLeaseNothing(w, e);
    } else {
      LateStepsLeaseNothing(w, e);
    }
  }

  lemma EndingTakesNoLease(w: World, e: Event, r: RunId)
    requires r in Next(w, e).runs && Next(w, e).runs[r].phase.Held? && (e.Reject? || e.CleanUp?)
    ensures r in w.runs && Next(w, e).runs[r] == w.runs[r]
  {
  }

  lemma EarlyStepsLeaseNothing(w: World, e: Event)
    requires UpToAct(e) && !e.Reject?
    ensures Next(w, e).runs == w.runs
  {
  }

  lemma LateStepsLeaseNothing(w: World, e: Event)
    requires FromAct(e) && !e.CleanUp?
    ensures Next(w, e).runs == w.runs
  {
  }

  lemma LeaseKept(w: World, e: Event, r: RunId)
    requires WellLeased(w)
    requires r in Next(w, e).runs && Next(w, e).runs[r].phase.Held?
    ensures var v := Next(w, e);
      var k := v.runs[r].phase.worker;
      k in v.workers && v.workers[k].run == r && v.workers[k].mode == v.runs[r].mode
  {
    LeaseComesFrom(w, e, r);
    if r in w.runs && w.runs[r].phase.Held? {
      WorkerKeepsIdentity(w, e, w.runs[r].phase.worker);
    }
  }

  lemma StepKeepsLeases(w: World, e: Event)
    requires WellLeased(w)
    ensures WellLeased(Next(w, e))
  {
    forall r | r in Next(w, e).runs && Next(w, e).runs[r].phase.Held?
      ensures var v := Next(w, e);
        var k := v.runs[r].phase.worker;
        k in v.workers && v.workers[k].run == r && v.workers[k].mode == v.runs[r].mode
    {
      LeaseKept(w, e, r);
    }
  }

  lemma CanceledStaysCanceled(w: World, e: Event)
    requires w.row.state == Canceled && Permitted(w, e)
    ensures Next(w, e).row.state == Canceled && Next(w, e).row.transcript == w.row.transcript
  {
    OnlyApprovalLeavesTheEnd(w, e);
  }

  /** The request that flips the row gives this run its round. */
  predicate Flips(w: World, e: Event, run: RunId) {
    (e.Message? || e.Retry?) && e.run == run && Resumable(w.row.state) && Next(w, e).row.state == Queued
  }

  /** Only the flip puts a run in play. */
  lemma InPlayComesFrom(w: World, e: Event, r: RunId)
    requires WellLeased(w) && Permitted(w, e) && InPlay(Next(w, e), r)
    ensures (InPlay(w, r) && Next(w, e).runs[r].mode == w.runs[r].mode)
         || (Flips(w, e, r) && Next(w, e).runs[r].mode.FollowUp?)
  {
    if Actor(e).Some? {
      WorkerKeepsInPlay(w, e, r);
    }
  }

  lemma WorkerKeepsInPlay(w: World, e: Event, r: RunId)
    requires WellLeased(w) && Permitted(w, e) && InPlay(Next(w, e), r) && Actor(e).Some?
    ensures InPlay(w, r) && Next(w, e).runs[r].mode == w.runs[r].mode
  {
    var k := Actor(e).value;
    assert w.runs[w.workers[k].run].phase == Held(k);
    if r in w.runs && w.runs[r].phase.Held? && w.runs[r].phase.worker == k {
      assert r == w.workers[k].run;
    }
    if UpToAct(e) {
      EarlyStepKeepsInPlay(w, e, r);
    }
  }

  lemma EarlyStepKeepsInPlay(w: World, e: Event, r: RunId)
    requires WellLeased(w) && Permitted(w, e) && InPlay(Next(w, e), r) && UpToAct(e)
    ensures InPlay(w, r) && Next(w, e).runs[r].mode == w.runs[r].mode
  {
    var k := Actor(e).value;
    assert w.runs[w.workers[k].run].phase == Held(k);
    if r in w.runs && w.runs[r].phase.Held? && w.runs[r].phase.worker == k {
      assert r == w.workers[k].run;
    }
  }

  lemma OnlyTheseSettle(w: World, e: Event)
    requires Live(w.row.state) && !Live(Next(w, e).row.state) && Next(w, e).row.state != Canceled
    ensures e.CommitAct? || e.RecordFault? || (e.LoseLease? && e.run in w.runs && w.runs[e.run].phase.Held?)
  {
    if UpToAct(e) {
      EarlyStepsSettleNothing(w, e);
    }
  }

  lemma EarlyStepsSettleNothing(w: World, e: Event)
    requires UpToAct(e) && Live(w.row.state)
    ensures Live(Next(w, e).row.state)
  {
  }

  lemma SettlingWorkerWasActive(w: World, e: Event, k: WorkerId)
    requires k in w.workers && ViewCurrent(w.row, w.workers[k])
    requires (e.CommitAct? || e.RecordFault?) && Actor(e) == Some(k)
    requires Live(w.row.state) && !Live(Next(w, e).row.state)
    ensures Active(w.workers[k].pc) && k in Next(w, e).workers && !Active(Next(w, e).workers[k].pc)
    ensures Next(w, e).runs == w.runs
  {
  }

  /** Whatever settles a live row takes its own run out of play. */
  lemma SettlingEndsTheRound(w: World, e: Event) returns (run: RunId)
    requires WellLeased(w) && Permitted(w, e) && HoldersCurrent(w)
    requires Live(w.row.state) && !Live(Next(w, e).row.state) && Next(w, e).row.state != Canceled
    ensures InPlay(w, run) && !InPlay(Next(w, e), run)
  {
    OnlyTheseSettle(w, e);
    if e.LoseLease? {
      run := e.run;
    } else {
      var k := Actor(e).value;
      assert ViewCurrent(w.row, w.workers[k]);
      SettlingWorkerWasActive(w, e, k);
      run := w.workers[k].run;
    }
  }

  lemma StepKeepsOneInPlay(w: World, e: Event)
    requires Disciplined(w) && Permitted(w, e) && w.row.state != Canceled && Next(w, e).row.state != Canceled
    ensures OneInPlay(Next(w, e)) && FirstRunIsFirst(Next(w, e))
  {
    var v := Next(w, e);
    forall r, s | InPlay(v, r) && InPlay(v, s) ensures r == s {
      InPlayComesFrom(w, e, r);
      InPlayComesFrom(w, e, s);
    }
    if !Live(v.row.state) {
      forall r | r in v.runs ensures !InPlay(v, r) {
        if InPlay(v, r) {
          InPlayComesFrom(w, e, r);
          if Live(w.row.state) {
            var run := SettlingEndsTheRound(w, e);
          }
        }
      }
    }
    forall r | InPlay(v, r) && v.runs[r].mode.New? ensures v.row.transcript == [] {
      InPlayComesFrom(w, e, r);
      FirstRunUntouched(w, e, r);
    }
  }

  /** While a first run stays in play nothing is written before it. */
  lemma FirstRunUntouched(w: World, e: Event, r: RunId)
    requires Disciplined(w) && Permitted(w, e) && w.row.state != Canceled
    requires InPlay(w, r) && InPlay(Next(w, e), r) && w.runs[r].mode.New?
    ensures Next(w, e).row.transcript == w.row.transcript
  {
    if Actor(e).Some? {
      WorkerLeavesFirstRun(w, e, r);
    }
  }

  lemma WorkerLeavesFirstRun(w: World, e: Event, r: RunId)
    requires Disciplined(w) && Permitted(w, e) && w.row.state != Canceled && Actor(e).Some?
    requires InPlay(w, r) && InPlay(Next(w, e), r) && w.runs[r].mode.New?
    ensures Next(w, e).row.transcript == w.row.transcript
  {
    var k := Actor(e).value;
    assert ViewCurrent(w.row, w.workers[k]);
    assert w.workers[k].run in w.runs && w.runs[w.workers[k].run].phase == Held(k);
    if Active(w.workers[k].pc) {
      assert InPlay(w, w.workers[k].run);
    }
  }

  // ---------------------------------------------------------------- holders stay current

  /** While the holder is in its round, another worker that holds a lease has none. */
  lemma OthersAreIdle(w: World, k: WorkerId, other: WorkerId)
    requires WellLeased(w) && OneInPlay(w) && HoldsLease(w, k) && HoldsLease(w, other) && other != k
    requires Active(w.workers[k].pc)
    ensures !Active(w.workers[other].pc) && Live(w.row.state)
  {
    assert InPlay(w, w.workers[k].run);
    var run := w.workers[other].run;
    assert Active(w.workers[other].pc) ==> InPlay(w, run);
  }

  /** A worker outside its round leaves the row as it is. */
  lemma IdleLeavesRow(w: World, e: Event, other: WorkerId)
    requires Permitted(w, e) && Actor(e) == Some(other) && HoldsLease(w, other)
    requires !Active(w.workers[other].pc) && ViewCurrent(w.row, w.workers[other])
    ensures Next(w, e).row == w.row
  {
  }

  /** Requests and the queue leave a live row's transcript, and its state unless they cancel it. */
  lemma RestLeavesLiveRow(w: World, e: Event, k: WorkerId)
    requires WellLeased(w) && OneInPlay(w) && Permitted(w, e) && Actor(e).None?
    requires HoldsLease(w, k) && HoldsLease(Next(w, e), k) && Active(w.workers[k].pc)
    requires Live(w.row.state) && Next(w, e).row.state != Canceled
    ensures Next(w, e).row.transcript == w.row.transcript && Next(w, e).row.state == w.row.state
  {
    if e.LoseLease? {
      assert InPlay(w, w.workers[k].run);
    }
  }

  /** So nobody else changes the row's state or transcript under a holder in its round, except by canceling it. */
  lemma OthersLeaveRow(w: World, e: Event, k: WorkerId)
    requires Disciplined(w) && Permitted(w, e) && w.row.state != Canceled && Next(w, e).row.state != Canceled
    requires HoldsLease(w, k) && HoldsLease(Next(w, e), k) && Actor(e) != Some(k)
    requires Active(w.workers[k].pc)
    ensures Next(w, e).row.transcript == w.row.transcript && Next(w, e).row.state == w.row.state
  {
    assert InPlay(w, w.workers[k].run);
    if Actor(e).Some? {
      var other := Actor(e).value;
      OthersAreIdle(w, k, other);
      IdleLeavesRow(w, e, other);
    } else {
      RestLeavesLiveRow(w, e, k);
    }
  }

  /** Nothing permitted shortens the transcript: it only grows, up to apply marks. */
  lemma StepGrows(w: World, e: Event)
    requires Disciplined(w) && Permitted(w, e)
    ensures Grows(w.row.transcript, Next(w, e).row.transcript)
  {
    if w.row.state == Canceled {
      CanceledStaysCanceled(w, e);
    } else if Quiet(e) {
      QuietTranscript(w, e);
    } else if e.StoreApproved? {
      ApprovalGrows(w, e.request, e.verdicts, e.quotes);
    } else {
      var k := Actor(e).value;
      assert ViewCurrent(w.row, w.workers[k]);
      match e
      case CommitAct(_, draft) => CommitGrows(w, k, draft);
      case RecordFault(_, code) => FaultGrows(w, k, code);
      case Claim(_, leaseLive) => ClaimGrows(w, k, leaseLive);
    }
  }

  lemma ApprovalGrows(w: World, request: RequestId, verdicts: seq<Verdict>, quotes: bool)
    requires ApprovalAtomic(w, StoreApproved(request, verdicts, quotes))
    ensures Grows(w.row.transcript, StoreApprovedStep(w, request, verdicts, quotes).row.transcript)
  {
    if request in w.approvals {
      ApprovalKeepsTurns(w.approvals[request], verdicts, quotes);
    }
  }

  lemma CommitGrows(w: World, k: WorkerId, draft: Draft)
    requires k in w.workers && ViewCurrent(w.row, w.workers[k])
    ensures Grows(w.row.transcript, CommitActStep(w, k, draft).row.transcript)
  {
    GrowsAppend(w.row.transcript, Act(w.workers[k].claimed, draft).turns);
  }

  lemma ClaimGrows(w: World, k: WorkerId, leaseLive: bool)
    requires k in w.workers && ViewCurrent(w.row, w.workers[k])
    ensures Grows(w.row.transcript, ClaimStep(w, k, leaseLive).row.transcript)
  {
  }

  lemma FaultGrows(w: World, k: WorkerId, code: string)
    requires Disciplined(w) && w.row.state != Canceled && HoldsLease(w, k)
    ensures Grows(w.row.transcript, RecordFaultStep(w, k, code).row.transcript)
  {
    assert ViewCurrent(w.row, w.workers[k]);
    var x := w.workers[k];
    if x.pc == Failing(false) {
      assert InPlay(w, x.run);
      if x.mode.New? {
        assert w.row.transcript == [];
      }
    }
    GrowsAppend(w.row.transcript, FailureTurns(x.goal, code));
  }

  lemma HolderStaysCurrent(w: World, e: Event, k: WorkerId)
    requires Disciplined(w) && Permitted(w, e) && w.row.state != Canceled && Next(w, e).row.state != Canceled
    requires HoldsLease(w, k) && HoldsLease(Next(w, e), k)
    ensures ViewCurrent(Next(w, e).row, Next(w, e).workers[k])
  {
    assert ViewCurrent(w.row, w.workers[k]);
    StepGrows(w, e);
    if Actor(e) != Some(k) {
      OthersLeaveWorker(w, e, k);
      if w.workers[k].pc in {PriorRead, Claimed, Marked, Acting} {
        OthersLeaveRow(w, e, k);
      }
    } else {
      OwnStepStaysCurrent(w, e, k);
    }
  }

  lemma OwnStepStaysCurrent(w: World, e: Event, k: WorkerId)
    requires Disciplined(w) && Permitted(w, e) && w.row.state != Canceled && Next(w, e).row.state != Canceled
    requires HoldsLease(w, k) && Actor(e) == Some(k)
    ensures ViewCurrent(Next(w, e).row, Next(w, e).workers[k])
  {
    assert ViewCurrent(w.row, w.workers[k]);
    if UpToAct(e) {
      EarlyStepStaysCurrent(w, e, k);
    }
  }

  lemma EarlyStepStaysCurrent(w: World, e: Event, k: WorkerId)
    requires Permitted(w, e) && w.row.state != Canceled && Next(w, e).row.state != Canceled
    requires HoldsLease(w, k) && Actor(e) == Some(k) && UpToAct(e) && ViewCurrent(w.row, w.workers[k])
    ensures ViewCurrent(Next(w, e).row, Next(w, e).workers[k])
  {
    assert LeaseLive(w) by { assert w.workers[k].run in w.runs; }
  }

  /** A lease held after a step was held before it, or was just picked up. */
  lemma HolderComesFrom(w: World, e: Event, k: WorkerId)
    requires HoldsLease(Next(w, e), k)
    ensures HoldsLease(w, k) || (e.PickUp? && e.worker == k && Next(w, e).workers[k].pc == PickedUp)
  {
    var r := Next(w, e).workers[k].run;
    LeaseComesFrom(w, e, r);
    if k in w.workers {
      WorkerKeepsIdentity(w, e, k);
    } else {
      NewWorkersPickUp(w, e, k);
    }
  }

  lemma NewWorkersPickUp(w: World, e: Event, k: WorkerId)
    requires k !in w.workers && k in Next(w, e).workers
    ensures e.PickUp? && e.worker == k && Next(w, e).workers[k].pc == PickedUp
  {
    if UpToAct(e) {
      EarlyStepsAddNoWorker(w, e, k);
    } else if FromAct(e) {
      LateStepsAddNoWorker(w, e, k);
    }
  }

  lemma EarlyStepsAddNoWorker(w: World, e: Event, k: WorkerId)
    requires UpToAct(e) && k !in w.workers
    ensures k !in Next(w, e).workers
  {
  }

  lemma LateStepsAddNoWorker(w: World, e: Event, k: WorkerId)
    requires FromAct(e) && k !in w.workers
    ensures k !in Next(w, e).workers
  {
  }

  lemma StepKeepsDiscipline(w: World, e: Event)
    requires Disciplined(w) && Permitted(w, e)
    ensures Disciplined(Next(w, e))
  {
    StepKeepsLeases(w, e);
    var v := Next(w, e);
    if v.row.state != Canceled {
      if w.row.state == Canceled {
        CanceledStaysCanceled(w, e);
      } else {
        StepKeepsOneInPlay(w, e);
        forall k | k in v.workers && HoldsLease(v, k) ensures ViewCurrent(v.row, v.workers[k]) {
          HolderComesFrom(w, e, k);
          if HoldsLease(w, k) {
            HolderStaysCurrent(w, e, k);
          }
        }
      }
    }
  }

  lemma InitDisciplined(goal: string)
    ensures Disciplined(Init(goal))
  {
  }

  // ---------------------------------------------------------------- over whole runs

  lemma {:induction false} RunGrows(w: World, events: seq<Event>)
    requires Disciplined(w) && Orderly(w, events)
    ensures Disciplined(Run(w, events)) && Grows(w.row.transcript, Run(w, events).row.transcript)
    decreases |events|
  {
    if events != [] {
      StepKeepsDiscipline(w, events[0]);
      StepGrows(w, events[0]);
      RunGrows(Next(w, events[0]), events[1..]);
      GrowsTransitive(w.row.transcript, Next(w, events[0]).row.transcript, Run(w, events).row.transcript);
    }
  }

  lemma {:induction false} OrderlyParts(w: World, a: seq<Event>, b: seq<Event>)
    requires Orderly(w, a + b)
    ensures Orderly(w, a) && Orderly(Run(w, a), b)
    decreases |a|
  {
    if a == [] {
      assert a + b == b;
    } else {
      assert (a + b)[1..] == a[1..] + b;
      OrderlyParts(Next(w, a[0]), a[1..], b);
    }
  }

  /** In every orderly run the stored transcript only ever grows by suffixes, up to the marks an approval writes. */
  lemma TranscriptOnlyGrows(goal: string, past: seq<Event>, future: seq<Event>)
    requires Orderly(Init(goal), past + future)
    ensures Grows(Run(Init(goal), past).row.transcript, Run(Init(goal), past + future).row.transcript)
  {
    InitDisciplined(goal);
    OrderlyParts(Init(goal), past, future);
    RunGrows(Init(goal), past);
    RunGrows(Run(Init(goal), past), future);
    RunAppend(Init(goal), past, future);
  }

  /** ... and a round that commits extends exactly the transcript its run claimed. */
  lemma RoundExtendsItsClaim(goal: string, past: seq<Event>, k: WorkerId, draft: Draft)
    requires Orderly(Init(goal), past + [CommitAct(k, draft)])
    requires |Run(Init(goal), past + [CommitAct(k, draft)]).rounds| > |Run(Init(goal), past).rounds|
    ensures var w, v := Run(Init(goal), past), Run(Init(goal), past + [CommitAct(k, draft)]);
      k in w.workers
      && v.row.transcript == w.row.transcript + Act(w.workers[k].claimed, draft).turns
      && w.workers[k].claimed.transcript == w.row.transcript
  {
    var e := CommitAct(k, draft);
    InitDisciplined(goal);
    OrderlyParts(Init(goal), past, [e]);
    RunGrows(Init(goal), past);
    RunAppend(Init(goal), past, [e]);
    var w := Run(Init(goal), past);
    assert Run(w, [e]) == Next(w, e) by { assert [e][1..] == []; }
    assert Permitted(w, e);
    if w.row.state == Canceled {
      OnlyApprovalLeavesTheEnd(w, e);
    } else {
      assert ViewCurrent(w.row, w.workers[k]);
    }
  }
}
