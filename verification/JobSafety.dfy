/** What holds of a job over every interleaving of requests, workers, stale workers and approvals. */
module JobSafety {
  import opened Basics
  import opened JobTypes
  import opened JobUpdates
  import opened AgentRounds
  import opened Approvals
  import opened JobProtocol

  lemma {:induction false} RunAppend(w: World, a: seq<Event>, b: seq<Event>)
    ensures Run(w, a + b) == Run(Run(w, a), b)
    decreases |a|
  {
    if a == [] {
      assert a + b == b;
    } else {
      assert (a + b)[1..] == a[1..] + b;
      RunAppend(Next(w, a[0]), a[1..], b);
    }
  }

  // ---------------------------------------------------------------- one round per RUNNING episode

  ghost predicate EpisodesOrdered(w: World) {
    && (forall i | 0 <= i < |w.rounds| :: w.rounds[i].episode <= w.episode)
    && (forall i, j | 0 <= i < j < |w.rounds| :: w.rounds[i].episode < w.rounds[j].episode)
    && (w.row.state == Running ==> forall i | 0 <= i < |w.rounds| :: w.rounds[i].episode < w.episode)
  }

  lemma WorkersKeepEpisodes(w: World, e: Event)
    requires !e.Mark? && !e.CommitAct? && (UpToAct(e) || FromAct(e))
    ensures Next(w, e).rounds == w.rounds && Next(w, e).episode == w.episode
    ensures Next(w, e).row.state == Running ==> w.row.state == Running
  {
    if UpToAct(e) {
      EarlyStepsKeepEpisodes(w, e);
    }
  }

  lemma EarlyStepsKeepEpisodes(w: World, e: Event)
    requires !e.Mark? && UpToAct(e)
    ensures Next(w, e).rounds == w.rounds && Next(w, e).episode == w.episode
    ensures Next(w, e).row.state == Running ==> w.row.state == Running
  {
  }

  lemma RequestsKeepEpisodes(w: World, e: Event)
    requires !UpToAct(e) && !FromAct(e)
    ensures Next(w, e).rounds == w.rounds && Next(w, e).episode == w.episode
    ensures Next(w, e).row.state == Running ==> w.row.state == Running
  {
  }

  lemma StepKeepsEpisodes(w: World, e: Event)
    requires EpisodesOrdered(w)
    ensures EpisodesOrdered(Next(w, e))
  {
    if UpToAct(e) || FromAct(e) {
      if !e.Mark? && !e.CommitAct? {
        WorkersKeepEpisodes(w, e);
      }
    } else {
      RequestsKeepEpisodes(w, e);
    }
  }

  lemma {:induction false} RunKeepsEpisodes(w: World, events: seq<Event>)
    requires EpisodesOrdered(w)
    ensures EpisodesOrdered(Run(w, events))
    decreases |events|
  {
    if events != [] {
      StepKeepsEpisodes(w, events[0]);
      RunKeepsEpisodes(Next(w, events[0]), events[1..]);
    }
  }

  /** Whatever the interleaving, no two committed rounds belong to the same RUNNING episode. */
  lemma EachEpisodeCommitsOnce(goal: string, events: seq<Event>, i: nat, j: nat)
    requires i < j < |Run(Init(goal), events).rounds|
    ensures Run(Init(goal), events).rounds[i].episode != Run(Init(goal), events).rounds[j].episode
  {
    RunKeepsEpisodes(Init(goal), events);
  }

  // ---------------------------------------------------------------- FAILED and CANCELED

  /** An approval pass that finds something to decide, on a row that failed or was canceled. */
  ghost predicate Revives(w: World, e: Event) {
    && w.row.state in {Failed, Canceled}
    && e.StoreApproved?
    && e.request in w.approvals
    && Approve(w.approvals[e.request], e.verdicts, e.quotes).1 != []
  }

  lemma WorkersStayAtTheEnd(w: World, e: Event)
    requires w.row.state in {Failed, Canceled} && (UpToAct(e) || FromAct(e))
    ensures Next(w, e).row.state == w.row.state
    ensures Next(w, e).row.transcript == w.row.transcript && Next(w, e).rounds == w.rounds
  {
    if UpToAct(e) {
      EarlyStepsStayAtTheEnd(w, e);
    }
  }

  lemma EarlyStepsStayAtTheEnd(w: World, e: Event)
    requires w.row.state in {Failed, Canceled} && UpToAct(e)
    ensures Next(w, e).row.state == w.row.state
    ensures Next(w, e).row.transcript == w.row.transcript && Next(w, e).rounds == w.rounds
  {
  }

  /** Exactly the storing approval leaves FAILED or CANCELED; nothing else touches the transcript either. */
  lemma OnlyApprovalLeavesTheEnd(w: World, e: Event)
    requires w.row.state in {Failed, Canceled}
    ensures Next(w, e).row.state != w.row.state <==> Revives(w, e)
    ensures !Revives(w, e) ==> Next(w, e).row.transcript == w.row.transcript && Next(w, e).rounds == w.rounds
  {
    if UpToAct(e) || FromAct(e) {
      WorkersStayAtTheEnd(w, e);
    }
  }

  ghost predicate NeverRevives(w: World, events: seq<Event>)
    decreases |events|
  {
    events == [] || (!Revives(w, events[0]) && NeverRevives(Next(w, events[0]), events[1..]))
  }

  /** FAILED and CANCELED are absorbing until an approval: neither the state, nor the transcript, nor the set of
      committed rounds ever changes again. */
  lemma {:induction false} TheEndIsFinal(w: World, events: seq<Event>)
    requires w.row.state in {Failed, Canceled}
    requires NeverRevives(w, events)
    ensures var v := Run(w, events);
      v.row.state == w.row.state && v.row.transcript == w.row.transcript && v.rounds == w.rounds
    decreases |events|
  {
    if events != [] {
      OnlyApprovalLeavesTheEnd(w, events[0]);
      TheEndIsFinal(Next(w, events[0]), events[1..]);
    }
  }

  /** Once a cancel answers «canceled», no act transaction commits any more — none of its domain changes, turns or
      outcomes — whatever workers were in flight, as long as no approval revives the row. */
  lemma CanceledRunsNeverCommit(w: World, events: seq<Event>)
    requires RequestCancel(w.row, w.signal, false).2 == CanceledNow
    requires NeverRevives(Next(w, Cancel(false)), events)
    ensures var v := Run(Next(w, Cancel(false)), events);
      v.row.state == Canceled && v.row.transcript == w.row.transcript && v.rounds == w.rounds
  {
    TheEndIsFinal(Next(w, Cancel(false)), events);
  }

  /** A cancel answers «canceled» exactly when it flips the row, «signaled» exactly when the row is busy and not
      terminal; the latter only asks. */
  lemma CancelAnswersWhatItDid(w: World, busy: bool)
    ensures var v, reply := Next(w, Cancel(busy)), RequestCancel(w.row, w.signal, busy).2;
      && (reply == CanceledNow <==> v.row.state == Canceled && w.row.state != Canceled)
      && (reply == Signaled <==> busy && !Terminal(w.row.state))
      && (reply != CanceledNow ==> v.row == w.row)
      && (reply == Signaled ==> v.signal)
  {
  }

  // ---------------------------------------------------------------- the error budget

  ghost predicate BoundedErrors(row: Row) {
    if row.state == Failed then ErrorTurns(row.transcript) == 3 else ErrorTurns(row.transcript) <= 2
  }

  /** What a worker before its claim's write, or between its claim and its act, may write back has at most two errors. */
  ghost predicate WorkerBounded(x: Worker) {
    && (x.pc == PriorRead ==> ErrorTurns(x.before) <= 2)
    && (x.pc in {Claimed, Marked, Acting} ==> ErrorTurns(x.claimed.transcript) <= 2)
  }

  /** Some pass of the approval would decide something. */
  ghost predicate CanDecide(a: Approval) {
    exists verdicts, quotes :: Approve(a, verdicts, quotes).1 != []
  }

  ghost predicate ApprovalBounded(a: Approval) {
    CanDecide(a) ==> ErrorTurns(a.transcript) <= 2
  }

  /** Every transcript a worker or an approval may write back carries at most two errors, unless the row failed. */
  ghost predicate ErrorsBounded(w: World) {
    && BoundedErrors(w.row)
    && (w.row.state != Failed ==>
        && (forall k | k in w.workers :: WorkerBounded(w.workers[k]))
        && (forall a | a in w.approvals :: ApprovalBounded(w.approvals[a])))
  }

  lemma CommitKeepsErrors(w: World, k: WorkerId, draft: Draft)
    requires ErrorsBounded(w) && w.row.state != Failed
    ensures ErrorsBounded(CommitActStep(w, k, draft))
  {
    if At(w, k, Acting) {
      assert WorkerBounded(w.workers[k]);
      RoundAddsNoError(w.workers[k].claimed, draft);
    }
  }

  lemma RoundAddsNoError(claimed: Row, draft: Draft)
    ensures ErrorTurns(claimed.transcript + Act(claimed, draft).turns) == ErrorTurns(claimed.transcript)
  {
    var turns := Act(claimed, draft).turns;
    ErrorTurnsAppend(claimed.transcript, turns);
    assert turns[..1] == [turns[0]];
    assert ErrorTurns(turns[..1]) == 0 by { assert turns[..1][..0] == []; }
  }

  lemma FaultBoundsErrors(row: Row, x: Worker, code: string)
    requires BoundedErrors(row) && row.state != Failed
    ensures BoundedErrors(RecordFailure(row, x.before, x.goal, code).0)
    ensures BoundedErrors(FailQueued(row, x.goal, code).0)
  {
    FirstFailureCountsOne(x.goal, code);
    if RecordFailure(row, x.before, x.goal, code).1 {
      FailureCountsErrors(row, x.before, x.goal, code);
    }
  }

  lemma FaultKeepsErrors(w: World, k: WorkerId, code: string)
    requires ErrorsBounded(w) && w.row.state != Failed
    ensures ErrorsBounded(RecordFaultStep(w, k, code))
  {
    if k in w.workers && w.workers[k].pc.Failing? {
      FaultBoundsErrors(w.row, w.workers[k], code);
      FaultWritesTheRow(w, k, code);
      NewRowKeepsErrors(w, RecordFaultStep(w, k, code), k);
    }
  }

  lemma FaultWritesTheRow(w: World, k: WorkerId, code: string)
    requires k in w.workers && w.workers[k].pc.Failing?
    ensures var v, x := RecordFaultStep(w, k, code), w.workers[k];
      && v.approvals == w.approvals && v.workers == w.workers[k := x.(pc := Leaving(false))]
      && v.row in {w.row, RecordFailure(w.row, x.before, x.goal, code).0, FailQueued(w.row, x.goal, code).0}
  {
  }

  lemma NewRowKeepsErrors(w: World, v: World, k: WorkerId)
    requires ErrorsBounded(w) && w.row.state != Failed && BoundedErrors(v.row) && k in w.workers
    requires v.approvals == w.approvals && v.workers == w.workers[k := w.workers[k].(pc := Leaving(false))]
    ensures ErrorsBounded(v)
  {
  }

  lemma ApprovalKeepsErrors(w: World, request: RequestId, verdicts: seq<Verdict>, quotes: bool)
    requires ErrorsBounded(w) && w.row.state != Failed
    ensures ErrorsBounded(StoreApprovedStep(w, request, verdicts, quotes))
  {
    if request in w.approvals && Approve(w.approvals[request], verdicts, quotes).1 != [] {
      var a := w.approvals[request];
      assert CanDecide(a) && ApprovalBounded(a);
      ApprovalKeepsTurns(a, verdicts, quotes);
      GrowsKeepsErrors(a.transcript, Approve(a, verdicts, quotes).0);
    }
  }

  lemma ClaimKeepsErrors(w: World, k: WorkerId, leaseLive: bool)
    requires ErrorsBounded(w) && w.row.state != Failed
    ensures ErrorsBounded(ClaimStep(w, k, leaseLive))
  {
    if At(w, k, PickedUp) || At(w, k, PriorRead) {
      var x := w.workers[k];
      assert WorkerBounded(x);
      var claim := if At(w, k, PriorRead) then Resume(w.row, x.before) else ClaimQueued(w.row, leaseLive);
      ClaimOutcomeKeepsErrors(w, k, claim);
    }
  }

  lemma ClaimOutcomeKeepsErrors(w: World, k: WorkerId, claim: (Row, bool))
    requires ErrorsBounded(w) && w.row.state != Failed && k in w.workers
    requires ErrorTurns(claim.0.transcript) <= 2 && claim.0.state != Failed
    ensures ErrorsBounded(ClaimOutcome(w, k, claim))
  {
  }

  /** An approval pass that finds something to decide, on a row that failed for good. */
  ghost predicate ApprovesFailed(w: World, e: Event) {
    w.row.state == Failed && Revives(w, e)
  }

  ghost predicate NeverApprovesFailed(w: World, events: seq<Event>)
    decreases |events|
  {
    events == [] || (!ApprovesFailed(w, events[0]) && NeverApprovesFailed(Next(w, events[0]), events[1..]))
  }

  lemma StepKeepsErrors(w: World, e: Event)
    requires ErrorsBounded(w) && !ApprovesFailed(w, e)
    ensures ErrorsBounded(Next(w, e))
  {
    if w.row.state == Failed {
      OnlyApprovalLeavesTheEnd(w, e);
    } else {
      match e
      case CommitAct(k, draft) => CommitKeepsErrors(w, k, draft);
      case RecordFault(k, code) => FaultKeepsErrors(w, k, code);
      case StoreApproved(request, verdicts, quotes) => ApprovalKeepsErrors(w, request, verdicts, quotes);
      case Claim(k, leaseLive) => ClaimKeepsErrors(w, k, leaseLive);
      case _ => QuietStepKeepsErrors(w, e);
    }
  }

  predicate Quiet(e: Event) {
    !e.CommitAct? && !e.RecordFault? && !e.StoreApproved? && !e.Claim?
  }

  /** The other events write no transcript back. */
  lemma QuietTranscript(w: World, e: Event)
    requires Quiet(e)
    ensures Next(w, e).row.transcript == w.row.transcript
  {
  }

  lemma QuietState(w: World, e: Event)
    requires w.row.state != Failed && Quiet(e)
    ensures Next(w, e).row.state != Failed
  {
  }

  lemma QuietWorker(w: World, e: Event, k: WorkerId)
    requires Quiet(e) && k in Next(w, e).workers && ErrorTurns(w.row.transcript) <= 2
    requires k in w.workers ==> WorkerBounded(w.workers[k])
    ensures WorkerBounded(Next(w, e).workers[k])
  {
    if UpToAct(e) {
      QuietEarlyWorker(w, e, k);
    } else if FromAct(e) {
      QuietLateWorker(w, e, k);
    }
  }

  lemma QuietEarlyWorker(w: World, e: Event, k: WorkerId)
    requires Quiet(e) && UpToAct(e) && k in Next(w, e).workers && ErrorTurns(w.row.transcript) <= 2
    requires k in w.workers ==> WorkerBounded(w.workers[k])
    ensures WorkerBounded(Next(w, e).workers[k])
  {
    if e.Mark? || e.BeginAct? || e.PollCancel? {
      ClaimedWorker(w, e, k);
    }
  }

  lemma ClaimedWorker(w: World, e: Event, k: WorkerId)
    requires (e.Mark? || e.BeginAct? || e.PollCancel?) && k in Next(w, e).workers
    requires k in w.workers ==> WorkerBounded(w.workers[k])
    ensures WorkerBounded(Next(w, e).workers[k])
  {
  }

  lemma QuietLateWorker(w: World, e: Event, k: WorkerId)
    requires Quiet(e) && FromAct(e) && k in Next(w, e).workers
    requires k in w.workers ==> WorkerBounded(w.workers[k])
    ensures WorkerBounded(Next(w, e).workers[k])
  {
  }

  lemma QuietApproval(w: World, e: Event, a: RequestId)
    requires Quiet(e) && a in Next(w, e).approvals
    ensures if a in w.approvals then Next(w, e).approvals[a] == w.approvals[a]
            else Next(w, e).approvals[a].transcript == w.row.transcript
  {
  }

  lemma QuietStepKeepsErrors(w: World, e: Event)
    requires ErrorsBounded(w) && w.row.state != Failed && Quiet(e)
    ensures ErrorsBounded(Next(w, e))
  {
    QuietTranscript(w, e);
    QuietState(w, e);
    forall k | k in Next(w, e).workers ensures WorkerBounded(Next(w, e).workers[k]) {
      QuietWorker(w, e, k);
    }
    forall a | a in Next(w, e).approvals ensures ApprovalBounded(Next(w, e).approvals[a]) {
      QuietApproval(w, e, a);
    }
  }

  lemma {:induction false} RunKeepsErrors(w: World, events: seq<Event>)
    requires ErrorsBounded(w) && NeverApprovesFailed(w, events)
    ensures ErrorsBounded(Run(w, events))
    decreases |events|
  {
    if events != [] {
      StepKeepsErrors(w, events[0]);
      RunKeepsErrors(Next(w, events[0]), events[1..]);
    }
  }

  /** Three errors, and no more, make a job fail for good. */
  ghost predicate WithinBudget(row: Row) {
    && (row.state == FailedRetryable ==> ErrorTurns(row.transcript) < 3)
    && (row.state == Failed ==> ErrorTurns(row.transcript) == 3)
  }

  /** FAILED_RETRYABLE always has fewer than three error turns and FAILED exactly three, in every run in which no
      approval decides anything on a FAILED row. `JobBudget` shows what such an approval does. */
  lemma ErrorBudget(goal: string, events: seq<Event>)
    requires NeverApprovesFailed(Init(goal), events)
    ensures WithinBudget(Run(Init(goal), events).row)
  {
    RunKeepsErrors(Init(goal), events);
  }

  // ---------------------------------------------------------------- who may enqueue

  /** A run appears or is given new work only by the request that moved a settled row to QUEUED, or by sending the
      first request again, which requeues that run as it was. */
  lemma OnlyTheFlipEnqueues(w: World, e: Event, run: RunId)
    requires run in Next(w, e).runs
    requires run !in w.runs
          || (w.runs[run].phase.Over? && Next(w, e).runs[run].phase.Waiting?)
          || w.runs[run].goal != Next(w, e).runs[run].goal
    ensures (Resumable(w.row.state) && Next(w, e).row.state == Queued && (e.Message? || e.Retry?))
         || (e.Resubmit? && run in w.runs && Next(w, e).runs[run].goal == w.runs[run].goal && Next(w, e).row == w.row)
  {
    if UpToAct(e) || FromAct(e) {
      WorkersEnqueueNothing(w, e, run);
    }
  }

  lemma WorkersEnqueueNothing(w: World, e: Event, run: RunId)
    requires run in Next(w, e).runs && (UpToAct(e) || FromAct(e))
    ensures run in w.runs && w.runs[run].goal == Next(w, e).runs[run].goal
    ensures Next(w, e).runs[run].phase.Waiting? ==> w.runs[run].phase.Waiting?
  {
    if UpToAct(e) {
      EarlyStepsEnqueueNothing(w, e, run);
    }
  }

  lemma EarlyStepsEnqueueNothing(w: World, e: Event, run: RunId)
    requires run in Next(w, e).runs && UpToAct(e)
    ensures run in w.runs && w.runs[run].goal == Next(w, e).runs[run].goal
    ensures Next(w, e).runs[run].phase.Waiting? ==> w.runs[run].phase.Waiting?
  {
  }

  // ---------------------------------------------------------------- takeovers

  /** The lease read counts every leased run of the job. */
  predicate LeaseLive(w: World) {
    exists r | r in w.runs :: w.runs[r].phase.Held?
  }

  predicate HoldsLease(w: World, k: WorkerId) {
    k in w.workers && w.workers[k].run in w.runs && w.runs[w.workers[k].run].phase == Held(k)
  }

  /** A worker that holds its lease never takes over a PLANNING or RUNNING row: the lease it finds live is its own.
      Such a row can only be canceled or given up by the queue. */
  lemma HolderNeverTakesOver(w: World, k: WorkerId)
    requires HoldsLease(w, k) && w.row.state in {Planning, Running}
    ensures Next(w, Claim(k, LeaseLive(w))).row == w.row
  {
    assert w.workers[k].run in w.runs;
    assert LeaseLive(w);
  }
}
