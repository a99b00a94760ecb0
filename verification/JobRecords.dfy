/** The `ai_jobs` row as an object: every writer of `jobs.py` updates its fields in place under its guard. */
module JobRecords {
  import opened Basics
  import opened JobTypes
  import opened JobUpdates

  class JobRecord {
    var state: JobState
    var transcript: Transcript
    var outcomes: seq<Outcome>
    /** The cancel-signal row of this job. */
    var signal: bool

    function Snapshot(): Row
      reads this
    {
      Row(state, transcript, outcomes)
    }

    /** Submitted and waiting for a worker. */
    constructor Enqueue()
      ensures Snapshot() == Row(Queued, [], []) && !signal
    {
      state, transcript, outcomes, signal := Queued, [], [], false;
    }

    method Claim(leaseLive: bool) returns (claimed: bool)
      modifies this
      ensures (Snapshot(), claimed) == ClaimQueued(old(Snapshot()), leaseLive) && signal == old(signal)
    {
      if state == Queued {
        state := Planning;
        return true;
      }
      if state != Planning && state != Running {
        return false;
      }
      if leaseLive {
        return false;
      }
      state := Planning;
      return true;
    }

    method MarkRunning() returns (marked: bool)
      modifies this
      ensures (Snapshot(), marked) == JobUpdates.MarkRunning(old(Snapshot())) && signal == old(signal)
    {
      marked := state == Planning;
      if marked {
        state := Running;
      }
    }

    method Resume(before: Transcript) returns (claimed: bool)
      modifies this
      ensures (Snapshot(), claimed) == JobUpdates.Resume(old(Snapshot()), before) && signal == old(signal)
    {
      claimed := state == Queued;
      if claimed {
        state, transcript := Planning, before;
      }
    }

    /** `finish_job` and the outcomes recorded with it, in the act transaction. */
    method Finish(next: JobState, turns: Transcript, saved: seq<Outcome>) returns (finished: bool)
      modifies this
      ensures (Snapshot(), finished) == JobUpdates.Finish(old(Snapshot()), next, turns, saved) && signal == old(signal)
    {
      if state != Running {
        return false;
      }
      state, transcript := next, turns;
      if saved != [] {
        RecordAssistantOutcomes(saved);
      } else {
        assert outcomes + saved == outcomes;
      }
      return true;
    }

    method RecordFailure(before: Transcript, goal: string, code: string) returns (recorded: bool)
      modifies this
      ensures (Snapshot(), recorded) == JobUpdates.RecordFailure(old(Snapshot()), before, goal, code)
      ensures signal == old(signal)
    {
      if (state != Planning && state != Running) || transcript != before {
        return false;
      }
      transcript := transcript + FailureTurns(goal, code);
      var errors := CountErrors();
      state := if errors >= MAX_ERROR_TURNS then Failed else FailedRetryable;
      return true;
    }

    method CountErrors() returns (errors: nat)
      ensures errors == ErrorTurns(transcript)
    {
      errors := 0;
      for i := 0 to |transcript|
        invariant errors == ErrorTurns(transcript[..i])
      {
        assert transcript[..i + 1][..i] == transcript[..i];
        if transcript[i].ErrorTurn? {
          errors := errors + 1;
        }
      }
      assert transcript[..|transcript|] == transcript;
    }

    method FailQueued(goal: string, code: string) returns (recorded: bool)
      modifies this
      ensures (Snapshot(), recorded) == JobUpdates.FailQueued(old(Snapshot()), goal, code) && signal == old(signal)
    {
      recorded := Live(state);
      if recorded {
        state, transcript := FailedRetryable, FailureTurns(goal, code);
      }
    }

    method ExpireLease()
      modifies this
      ensures Snapshot() == JobUpdates.ExpireLease(old(Snapshot())) && signal == old(signal)
    {
      if Live(state) {
        state := FailedRetryable;
      }
    }

    method MarkQueued() returns (previous: Option<JobState>)
      modifies this
      ensures (Snapshot(), previous) == JobUpdates.MarkQueued(old(Snapshot())) && signal == old(signal)
    {
      if !Resumable(state) {
        return None;
      }
      previous := Some(state);
      state := Queued;
    }

    method RestoreQueued(previous: JobState) returns (restored: bool)
      modifies this
      ensures (Snapshot(), restored) == JobUpdates.RestoreQueued(old(Snapshot()), previous) && signal == old(signal)
    {
      if !Resumable(previous) || state != Queued {
        return false;
      }
      state := previous;
      return true;
    }

    method CancelJob() returns (canceled: bool)
      modifies this
      ensures (Snapshot(), canceled) == JobUpdates.CancelJob(old(Snapshot())) && signal == old(signal)
    {
      canceled := !Terminal(state);
      if canceled {
        state := Canceled;
      }
    }

    method RequestCancel(busy: bool) returns (reply: CancelReply)
      modifies this
      ensures (Snapshot(), signal, reply) == JobUpdates.RequestCancel(old(Snapshot()), old(signal), busy)
    {
      var landed := !busy && !Terminal(state);
      if landed {
        state := Canceled;
        return CanceledNow;
      }
      if Terminal(state) {
        return NothingLive;
      }
      signal := true;
      return Signaled;
    }

    /** Some recorded outcome of this step carries this action. */
    method Reported(turn: int, step: int, action: Action) returns (found: bool)
      ensures found <==> Has(outcomes, turn, step, action)
    {
      for i := 0 to |outcomes|
        invariant forall k | 0 <= k < i ::
          !(outcomes[k].turn == turn && outcomes[k].step == step && outcomes[k].action == action)
      {
        if outcomes[i].turn == turn && outcomes[i].step == step && outcomes[i].action == action {
          return true;
        }
      }
      return false;
    }

    /** The steps this job knows that carry a decision: scanned turn by turn. */
    method EveryReportableDecided() returns (all: bool)
      ensures all <==> AllDecided(transcript, outcomes)
    {
      for i := 0 to |transcript|
        invariant forall a, b | 0 <= a < i && 0 <= b < |StepsOf(transcript[a])| ::
          Reportable(StepsOf(transcript[a])[b].kind) ==> Decided(outcomes, a, b)
      {
        var steps := StepsOf(transcript[i]);
        for j := 0 to |steps|
          invariant forall b | 0 <= b < j :: Reportable(steps[b].kind) ==> Decided(outcomes, i, b)
        {
          if Reportable(steps[j].kind) {
            var applied := Reported(i, j, Applied);
            var declined := Reported(i, j, Declined);
            var undone := Reported(i, j, Undone);
            if !applied && !declined && !undone {
              return false;
            }
          }
        }
      }
      return true;
    }

    method RecordOutcome(turn: int, step: int, action: Action) returns (reply: OutcomeReply)
      modifies this
      ensures (Snapshot(), reply) == JobUpdates.RecordOutcome(old(Snapshot()), turn, step, action)
      ensures signal == old(signal)
    {
      var found := StepAt(transcript, turn, step);
      if found.None? || !Reportable(found.value.kind) {
        return UnknownStep;
      }
      var applied := Reported(turn, step, Applied);
      if action == Undone && !applied {
        return UnknownStep;
      }
      var same := Reported(turn, step, action);
      var declined := Reported(turn, step, Declined);
      if same || (action in {Applied, Declined} && (applied || declined)) {
        return Repeated;
      }
      outcomes := outcomes + [Outcome(turn, step, action, None)];
      if state == WaitingForApproval {
        var all := EveryReportableDecided();
        if all {
          state := Succeeded;
        }
      }
      return Recorded;
    }

    method RecordAssistantOutcomes(entries: seq<Outcome>)
      modifies this
      ensures Snapshot() == JobUpdates.RecordAssistantOutcomes(old(Snapshot()), entries) && signal == old(signal)
    {
      outcomes := outcomes + entries;
    }

    method StoreApproval(turns: Transcript, entries: seq<Outcome>)
      modifies this
      ensures Snapshot() == JobUpdates.StoreApproval(old(Snapshot()), turns, entries) && signal == old(signal)
    {
      var waiting := StillWaiting(turns);
      if !Live(state) {
        transcript, outcomes := turns, outcomes + entries;
        state := if waiting then WaitingForApproval else Succeeded;
      }
    }

    static method StillWaiting(turns: Transcript) returns (waiting: bool)
      ensures waiting <==> Waiting(turns)
    {
      var latest := -1;
      for i := 0 to |turns|
        invariant latest == LatestAgent(turns[..i])
      {
        assert turns[..i + 1][..i] == turns[..i];
        if turns[i].AgentTurn? {
          latest := i;
        }
      }
      assert turns[..|turns|] == turns;
      if latest < 0 {
        return false;
      }
      var steps := StepsOf(turns[latest]);
      for j := 0 to |steps|
        invariant forall b | 0 <= b < j :: !(Gated(steps[b].kind) && steps[b].applied.None?)
      {
        if Gated(steps[j].kind) && steps[j].applied.None? {
          return true;
        }
      }
      return false;
    }
  }
}
