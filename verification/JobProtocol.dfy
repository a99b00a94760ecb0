/** The life of one job as a step system: requests (`views.py`, `copilot_views.py`, one transaction each),
    the worker's run (`handlers.py`, one step per commit boundary) and the run queue that feeds workers.
    An event that is not enabled leaves the world as it is, so a run is any sequence of events. */
module JobProtocol {
  import opened Basics
  import opened JobTypes
  import opened JobUpdates
  import opened AgentRounds
  import opened Approvals

  type RunId = nat
  type WorkerId = nat
  type RequestId = nat

  datatype Mode = New | FollowUp

  /** A `job_runs` row: waiting for a worker, leased by one, or over. */
  datatype Phase = Waiting | Held(worker: WorkerId) | Over(failed: bool)

  datatype QueuedRun = QueuedRun(mode: Mode, goal: string, phase: Phase)

  /** Where a worker stands between two commits of `ai_agent_run`. */
  datatype Pc =
    | PickedUp          // before the claim transaction
    | PriorRead         // follow-up: the transcript is read, the claim is not written
    | Claimed           // PLANNING is committed
    | Marked            // RUNNING is committed
    | Acting            // inside the act transaction
    | Committed         // the act transaction is committed
    | Failing(late: bool) // an exception is about to be recorded; late: after the round committed
    | Canceling         // the run found a cancel and is about to record it
    | Leaving(ok: bool) // only the cleanup is left
    | Gone

  /** `before` is the transcript a follow-up read; `claimed` the row its claim returned. */
  datatype Worker = Worker(run: RunId, mode: Mode, goal: string, pc: Pc, before: Transcript, claimed: Row)

  /** One committed act transaction: which RUNNING episode it closed, what it extended and what it appended. */
  datatype CommittedRound = CommittedRound(worker: WorkerId, episode: nat, base: Transcript, round: Round)

  datatype World = World(
    row: Row,
    signal: bool,
    runs: map<RunId, QueuedRun>,
    workers: map<WorkerId, Worker>,
    approvals: map<RequestId, Approval>,
    episode: nat,
    rounds: seq<CommittedRound>)

  datatype Event =
    // requests
    | Message(text: string, run: RunId, refused: bool)
    | Retry(text: string, run: RunId, refused: bool)
    | Resubmit(run: RunId)
    | Cancel(busy: bool)
    | Report(turn: int, step: int, action: Action)
    | OpenApproval(request: RequestId)
    | StoreApproved(request: RequestId, verdicts: seq<Verdict>, quotes: bool)
    | UndoAll(entries: seq<Outcome>)
    // the run queue
    | PickUp(worker: WorkerId, run: RunId)
    | LoseLease(run: RunId, exhausted: bool)
    // the worker
    | Reject(worker: WorkerId)
    | ReadPrior(worker: WorkerId)
    | Claim(worker: WorkerId, leaseLive: bool)
    | Mark(worker: WorkerId)
    | BeginAct(worker: WorkerId)
    | PollCancel(worker: WorkerId)
    | CommitAct(worker: WorkerId, draft: Draft)
    | Fault(worker: WorkerId)
    | RecordFault(worker: WorkerId, code: string)
    | RecordCancel(worker: WorkerId)
    | Return(worker: WorkerId)
    | CleanUp(worker: WorkerId)

  /** A job just submitted: one queued first run. */
  function Init(goal: string): World {
    World(Row(Queued, [], []), false, map[0 := QueuedRun(New, goal, Waiting)], map[], map[], 0, [])
  }

  function At(w: World, k: WorkerId, pc: Pc): (b: bool)
    ensures b ==> k in w.workers
  {
    k in w.workers && w.workers[k].pc == pc
  }

  function Move(w: World, k: WorkerId, pc: Pc): World
    requires k in w.workers
  {
    w.(workers := w.workers[k := w.workers[k].(pc := pc)])
  }

  // ---------------------------------------------------------------- requests

  /** A follow-up: the flip to QUEUED and the enqueue commit or roll back together. The idempotency key may name
      a run that exists: a failed one is requeued, another one answers for itself, unless its text differs. */
  function FollowUpStep(w: World, text: string, run: RunId, refused: bool): World {
    var (row, previous) := MarkQueued(w.row);
    if previous.None? || refused then w
    else if run !in w.runs || w.runs[run].phase == Over(true) then
      w.(row := row, runs := w.runs[run := QueuedRun(FollowUp, text, Waiting)])
    else if w.runs[run].goal != text then w
    else w.(row := row)
  }

  /** A retry of the failed round: it takes whatever run its key names. */
  function RetryStep(w: World, text: string, run: RunId, refused: bool): World {
    var (row, previous) := MarkQueued(w.row);
    if previous.None? || refused then w
    else if run !in w.runs || w.runs[run].phase == Over(true) then
      w.(row := row, runs := w.runs[run := QueuedRun(FollowUp, text, Waiting)])
    else w.(row := row)
  }

  /** The first request sent again: its failed run is requeued as it was. */
  function ResubmitStep(w: World, run: RunId): World {
    if run in w.runs && w.runs[run].phase == Over(true) && w.runs[run].mode.New? then
      w.(runs := w.runs[run := w.runs[run].(phase := Waiting)])
    else w
  }

  function CancelStep(w: World, busy: bool): World {
    var (row, signal, _) := RequestCancel(w.row, w.signal, busy);
    w.(row := row, signal := signal)
  }

  function OpenApprovalStep(w: World, request: RequestId): World {
    if Live(w.row.state) || request in w.approvals then w
    else w.(approvals := w.approvals[request := Approval(w.row.transcript, w.row.outcomes)])
  }

  /** One pass of an open approval; the request goes on with what it stored. */
  function StoreApprovedStep(w: World, request: RequestId, verdicts: seq<Verdict>, quotes: bool): World {
    if request !in w.approvals then w
    else
      var (t, entries) := Approve(w.approvals[request], verdicts, quotes);
      if entries == [] then w
      else
        w.(row := StoreApproval(w.row, t, entries),
           approvals := w.approvals[request := Approval(t, w.approvals[request].outcomes + entries)])
  }

  /** The outcomes of «undo all»: each undoes an operation this job recorded as applied. */
  function UndoAllStep(w: World, entries: seq<Outcome>): World {
    if forall i | 0 <= i < |entries| ::
      entries[i].action == Undone && Has(w.row.outcomes, entries[i].turn, entries[i].step, Applied)
    then w.(row := RecordAssistantOutcomes(w.row, entries))
    else w
  }

  // ---------------------------------------------------------------- the run queue

  function PickUpStep(w: World, k: WorkerId, run: RunId): World {
    if k in w.workers || run !in w.runs || w.runs[run].phase != Waiting then w
    else
      var r := w.runs[run];
      w.(runs := w.runs[run := r.(phase := Held(k))],
         workers := w.workers[k := Worker(run, r.mode, r.goal, PickedUp, [], w.row)])
  }

  /** The lease of a run went stale: it is requeued, or given up on its last attempt. Its worker may still run. */
  function LoseLeaseStep(w: World, run: RunId, exhausted: bool): World {
    if run !in w.runs || !w.runs[run].phase.Held? then w
    else if exhausted then
      w.(runs := w.runs[run := w.runs[run].(phase := Over(true))], row := ExpireLease(w.row))
    else w.(runs := w.runs[run := w.runs[run].(phase := Waiting)])
  }

  // ---------------------------------------------------------------- the worker

  /** The run over for its holder, if it still holds the lease. */
  function EndRun(w: World, k: WorkerId, failed: bool): map<RunId, QueuedRun>
    requires k in w.workers
  {
    var run := w.workers[k].run;
    if run in w.runs && w.runs[run].phase == Held(k) then w.runs[run := w.runs[run].(phase := Over(failed))]
    else w.runs
  }

  /** The submitter lost their membership: the run ends before it touches the row. */
  function RejectStep(w: World, k: WorkerId): World {
    if At(w, k, PickedUp) then Move(w, k, Gone).(runs := EndRun(w, k, true)) else w
  }

  function ReadPriorStep(w: World, k: WorkerId): World {
    if !At(w, k, PickedUp) || !w.workers[k].mode.FollowUp? then w
    else w.(workers := w.workers[k := w.workers[k].(pc := PriorRead, before := w.row.transcript)])
  }

  /** The claim commits unless a cancel signal is waiting, which rolls it back. */
  function ClaimStep(w: World, k: WorkerId, leaseLive: bool): World {
    if At(w, k, PickedUp) && w.workers[k].mode.New? then
      ClaimOutcome(w, k, ClaimQueued(w.row, leaseLive))
    else if At(w, k, PriorRead) then
      ClaimOutcome(w, k, Resume(w.row, w.workers[k].before))
    else w
  }

  function ClaimOutcome(w: World, k: WorkerId, claim: (Row, bool)): World
    requires k in w.workers
  {
    if !claim.1 then Move(w, k, Leaving(false))
    else if w.signal then Move(w, k, Canceling)
    else w.(row := claim.0, workers := w.workers[k := w.workers[k].(pc := Claimed, claimed := claim.0)])
  }

  function MarkStep(w: World, k: WorkerId): World {
    if !At(w, k, Claimed) then w
    else
      var (row, marked) := MarkRunning(w.row);
      if !marked then Move(w, k, Leaving(false))
      else Move(w, k, Marked).(row := row, episode := w.episode + 1)
  }

  function BeginActStep(w: World, k: WorkerId): World {
    if !At(w, k, Marked) then w
    else Move(w, k, if w.row.state == Running then Acting else Canceling)
  }

  function PollCancelStep(w: World, k: WorkerId): World {
    if At(w, k, Acting) && (w.signal || w.row.state == Canceled) then Move(w, k, Canceling) else w
  }

  /** The act transaction: everything the round saved becomes visible with its transcript, or nothing does. */
  function CommitActStep(w: World, k: WorkerId, draft: Draft): World {
    if !At(w, k, Acting) then w
    else
      var claimed := w.workers[k].claimed;
      var round := Act(claimed, draft);
      var (row, finished) := Finish(w.row, round.state, claimed.transcript + round.turns, round.outcomes);
      if !finished then Move(w, k, Failing(false))
      else Move(w, k, Committed).(
        row := row,
        rounds := w.rounds + [CommittedRound(k, w.episode, claimed.transcript, round)])
  }

  function FaultStep(w: World, k: WorkerId): World {
    if k in w.workers && w.workers[k].pc in {PickedUp, PriorRead, Claimed, Marked, Acting, Committed}
    then Move(w, k, Failing(w.workers[k].pc == Committed)) else w
  }

  function RecordFaultStep(w: World, k: WorkerId, code: string): World {
    if k !in w.workers || !w.workers[k].pc.Failing? then w
    else
      var x := w.workers[k];
      var v := Move(w, k, Leaving(false));
      if w.row.state == Canceled then v.(signal := false)
      else if x.mode.FollowUp? then v.(row := RecordFailure(w.row, x.before, x.goal, code).0)
      else v.(row := FailQueued(w.row, x.goal, code).0)
  }

  function RecordCancelStep(w: World, k: WorkerId): World {
    if !At(w, k, Canceling) then w
    else Move(w, k, Leaving(false)).(row := CancelJob(w.row).0, signal := false)
  }

  function ReturnStep(w: World, k: WorkerId): World {
    if At(w, k, Committed) then Move(w, k, Leaving(true)) else w
  }

  /** The cleanup every exit runs; the run is over if the lease is still this worker's. */
  function CleanUpStep(w: World, k: WorkerId): World {
    if k in w.workers && w.workers[k].pc.Leaving? then
      Move(w, k, Gone).(signal := false, runs := EndRun(w, k, !w.workers[k].pc.ok))
    else w
  }

  function Next(w: World, e: Event): World {
    match e
    case Message(text, run, refused) => FollowUpStep(w, text, run, refused)
    case Retry(text, run, refused) => RetryStep(w, text, run, refused)
    case Resubmit(run) => ResubmitStep(w, run)
    case Cancel(busy) => CancelStep(w, busy)
    case Report(turn, step, action) => w.(row := RecordOutcome(w.row, turn, step, action).0)
    case OpenApproval(request) => OpenApprovalStep(w, request)
    case StoreApproved(request, verdicts, quotes) => StoreApprovedStep(w, request, verdicts, quotes)
    case UndoAll(entries) => UndoAllStep(w, entries)
    case PickUp(k, run) => PickUpStep(w, k, run)
    case LoseLease(run, exhausted) => LoseLeaseStep(w, run, exhausted)
    case Reject(k) => RejectStep(w, k)
    case ReadPrior(k) => ReadPriorStep(w, k)
    case Claim(k, leaseLive) => ClaimStep(w, k, leaseLive)
    case Mark(k) => MarkStep(w, k)
    case BeginAct(k) => BeginActStep(w, k)
    case PollCancel(k) => PollCancelStep(w, k)
    case CommitAct(k, draft) => CommitActStep(w, k, draft)
    case Fault(k) => FaultStep(w, k)
    case RecordFault(k, code) => RecordFaultStep(w, k, code)
    case RecordCancel(k) => RecordCancelStep(w, k)
    case Return(k) => ReturnStep(w, k)
    case CleanUp(k) => CleanUpStep(w, k)
  }

  /** What a worker does up to its act, and from its act on. */
  predicate UpToAct(e: Event) {
    e.Reject? || e.ReadPrior? || e.Claim? || e.Mark? || e.BeginAct? || e.PollCancel?
  }

  predicate FromAct(e: Event) {
    e.CommitAct? || e.Fault? || e.RecordFault? || e.RecordCancel? || e.Return? || e.CleanUp?
  }

  /** The world after a sequence of events, in order. */
  function Run(w: World, events: seq<Event>): World
    decreases |events|
  {
    if events == [] then w else Run(Next(w, events[0]), events[1..])
  }
}
