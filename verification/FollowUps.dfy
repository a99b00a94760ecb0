/** Sending a follow-up and retrying a failed round (`views.py`): mark the row, enqueue the run, compensate.
    `oneTransaction` tells whether the request's writes commit together, as `authenticated_rls_context` makes
    them, or one by one, as the comments on `mark_queued` have it; only then can a cancel land in between. */
module FollowUps {
  import opened Basics
  import opened JobTypes
  import opened JobUpdates
  import opened JobRecords

  datatype RunState = RunQueued | RunRunning | RunSucceeded | RunFailed | RunCanceled

  /** A run of the organization's queue and the job it works for. */
  datatype QueuedRun = QueuedRun(state: RunState, work: nat, goal: string)

  /** The request's answer. */
  datatype Reply = Accepted | JobTerminal | JobRunning | NotRetryable | EnqueueRefused | OperationConflict

  /** What `enqueue` answers: a runnable run, the run the key already names, or a refusal. */
  datatype EnqueueReply = Created | Existing(run: QueuedRun) | Refused

  predicate Ended(run: QueuedRun) {
    run.state in {RunFailed, RunCanceled}
  }

  class RunQueue {
    /** `job_runs`, by idempotency key: the key is unique in the organization, so it may name another job's run. */
    var runs: map<string, QueuedRun>

    /** `valid`: the payload passes the run's serializer. */
    method Enqueue(key: string, work: nat, goal: string, valid: bool) returns (reply: EnqueueReply)
      modifies this
      ensures !valid ==> reply == Refused
      ensures valid && (key !in old(runs) || Ended(old(runs)[key])) ==> reply == Created
      ensures valid && key in old(runs) && !Ended(old(runs)[key]) ==> reply == Existing(old(runs)[key])
      ensures runs == if reply == Created then old(runs)[key := QueuedRun(RunQueued, work, goal)] else old(runs)
    {
      if !valid {
        return Refused;
      }
      if key in runs && !Ended(runs[key]) {
        return Existing(runs[key]);
      }
      runs := runs[key := QueuedRun(RunQueued, work, goal)];
      return Created;
    }

    /** Some run will execute this message for this job. */
    predicate WillRun(key: string, work: nat, goal: string)
      reads this
    {
      key in runs && runs[key] == QueuedRun(RunQueued, work, goal)
    }
  }

  /** A follow-up message. A refusal restores the state the row left, unless a cancel landed meanwhile; an accepted
      message leaves the row QUEUED, and a queued run of this job to execute it exactly when the key named no run, an
      ended one, or a run of this job still in the queue: naming another job's run answers «accepted» all the same. */
  method PostMessage(job: JobRecord, id: nat, queue: RunQueue, key: string, text: string, valid: bool,
                     oneTransaction: bool, canceledMeanwhile: bool)
    returns (reply: Reply)
    requires canceledMeanwhile ==> !oneTransaction
    modifies job, queue
    ensures old(job.state) in {Failed, Canceled} ==> reply == JobTerminal
    ensures Live(old(job.state)) ==> reply == JobRunning
    ensures reply in {JobTerminal, JobRunning} ==> job.Snapshot() == old(job.Snapshot()) && queue.runs == old(queue.runs)
    ensures reply in {EnqueueRefused, OperationConflict} ==>
      queue.runs == old(queue.runs)
      && job.Snapshot() == if canceledMeanwhile then old(job.Snapshot()).(state := Canceled) else old(job.Snapshot())
    ensures reply == EnqueueRefused <==> Resumable(old(job.state)) && !valid
    ensures reply == OperationConflict <==>
      Resumable(old(job.state)) && valid && key in old(queue.runs)
      && !Ended(old(queue.runs)[key]) && old(queue.runs)[key].goal != text
    ensures reply == Accepted ==>
      job.Snapshot() == old(job.Snapshot()).(state := if canceledMeanwhile then Canceled else Queued)
      && (queue.WillRun(key, id, text)
          <==> key !in old(queue.runs) || Ended(old(queue.runs)[key])
               || (old(queue.runs)[key].state == RunQueued && old(queue.runs)[key].work == id))
  {
    if job.state in {Failed, Canceled} {
      return JobTerminal;
    }
    if Live(job.state) {
      return JobRunning;
    }
    var previous := job.MarkQueued();
    if previous.None? {
      return JobRunning;
    }
    if canceledMeanwhile {
      var _ := job.CancelJob();
    }
    var enqueued := queue.Enqueue(key, id, text, valid);
    if enqueued == Refused || (enqueued.Existing? && enqueued.run.goal != text) {
      // The compensation; unwinding the request's own transaction would leave the same row.
      var _ := job.RestoreQueued(previous.value);
      return if enqueued == Refused then EnqueueRefused else OperationConflict;
    }
    return Accepted;
  }

  /** A retry. It has no compensation: after a refused enqueue the row is as it was exactly when the request is one
      transaction; committed write by write, it stays QUEUED with no run (or CANCELED, if a cancel landed). */
  method PostRetry(job: JobRecord, id: nat, queue: RunQueue, key: string, text: string, valid: bool,
                   oneTransaction: bool, canceledMeanwhile: bool)
    returns (reply: Reply)
    requires canceledMeanwhile ==> !oneTransaction
    modifies job, queue
    ensures reply == NotRetryable <==> old(job.state) != FailedRetryable
    ensures reply == NotRetryable ==> job.Snapshot() == old(job.Snapshot()) && queue.runs == old(queue.runs)
    ensures reply == EnqueueRefused <==> old(job.state) == FailedRetryable && !valid
    ensures reply == EnqueueRefused ==>
      queue.runs == old(queue.runs)
      && (job.Snapshot() == old(job.Snapshot()) <==> oneTransaction)
      && (!oneTransaction ==> job.state == if canceledMeanwhile then Canceled else Queued)
    ensures reply == Accepted ==>
      job.Snapshot() == old(job.Snapshot()).(state := if canceledMeanwhile then Canceled else Queued)
    ensures reply in {NotRetryable, EnqueueRefused, Accepted}
  {
    if job.state != FailedRetryable {
      return NotRetryable;
    }
    var before := job.state;
    var previous := job.MarkQueued();
    if canceledMeanwhile {
      var _ := job.CancelJob();
    }
    var enqueued := queue.Enqueue(key, id, text, valid);
    if enqueued == Refused {
      if oneTransaction {
        // The error unwinds the request's transaction, the mark included.
        job.state := before;
      }
      return EnqueueRefused;
    }
    return Accepted;
  }
}
