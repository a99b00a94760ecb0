/** The price of «a worker that holds its lease never takes over»: a job whose worker died between its claim and its
    act stays PLANNING or RUNNING. What moves such a row, exactly, and a run that leaves one behind. */
module JobStranding {
  import opened Basics
  import opened JobTypes
  import opened JobUpdates
  import opened AgentRounds
  import opened JobProtocol
  import opened JobSafety
  import opened JobOrderly
  import opened JobHazards
  import opened JobPickup

  predicate Busy(row: Row) {
    row.state in {Planning, Running}
  }

  // ---------------------------------------------------------------- what moves a busy row

  /** The events that change the state of a PLANNING or RUNNING row: a cancel that gets the row, the next step of a
      worker already past its claim, the queue giving a leased run up, or a claim that found no lease. */
  predicate Releases(w: World, e: Event) {
    match e
    case Cancel(busy) => !busy
    case LoseLease(run, exhausted) => exhausted && run in w.runs && w.runs[run].phase.Held?
    case Claim(k, leaseLive) =>
      At(w, k, Pc.PickedUp) && w.workers[k].mode.New? && !leaseLive && !w.signal && w.row.state == Running
    case Mark(k) => At(w, k, Claimed) && w.row.state == Planning
    case CommitAct(k, _) => At(w, k, Acting) && w.row.state == Running
    case RecordFault(k, _) =>
      k in w.workers && w.workers[k].pc.Failing?
      && (w.workers[k].mode.New? || w.workers[k].before == w.row.transcript)
    case RecordCancel(k) => At(w, k, Canceling)
    case _ => false
  }

  lemma BusyRowMovesIff(w: World, e: Event)
    requires Busy(w.row)
    ensures Next(w, e).row.state != w.row.state <==> Releases(w, e)
    ensures !Releases(w, e) ==> Next(w, e).row.transcript == w.row.transcript
  {
    if UpToAct(e) {
      EarlyStepMovesIff(w, e);
    } else if FromAct(e) {
      LateStepMovesIff(w, e);
    } else {
      RequestMovesIff(w, e);
    }
  }

  lemma EarlyStepMovesIff(w: World, e: Event)
    requires Busy(w.row) && UpToAct(e)
    ensures Next(w, e).row.state != w.row.state <==> Releases(w, e)
    ensures !Releases(w, e) ==> Next(w, e).row.transcript == w.row.transcript
  {
  }

  lemma LateStepMovesIff(w: World, e: Event)
    requires Busy(w.row) && FromAct(e)
    ensures Next(w, e).row.state != w.row.state <==> Releases(w, e)
    ensures !Releases(w, e) ==> Next(w, e).row.transcript == w.row.transcript
  {
  }

  lemma RequestMovesIff(w: World, e: Event)
    requires Busy(w.row) && !UpToAct(e) && !FromAct(e)
    ensures Next(w, e).row.state != w.row.state <==> Releases(w, e)
    ensures !Releases(w, e) ==> Next(w, e).row.transcript == w.row.transcript
  {
  }

  // ---------------------------------------------------------------- the stranded row

  /** A busy row for which nobody is left: every run is over and no worker stands before its claim. */
  ghost predicate Stranded(w: World) {
    && Busy(w.row)
    && (forall r | r in w.runs :: w.runs[r].phase.Over?)
    && (forall k | k in w.workers :: w.workers[k].pc !in {Pc.PickedUp, PriorRead})
  }

  /** Nobody cancels the job or sends its first request again, and no worker that was past its claim goes on. */
  ghost predicate LeftAlone(w: World, events: seq<Event>)
    decreases |events|
  {
    events == []
    || (!Releases(w, events[0]) && !events[0].Resubmit? && LeftAlone(Next(w, events[0]), events[1..]))
  }

  lemma StrandedRuns(w: World, e: Event)
    requires Stranded(w) && !Releases(w, e) && !e.Resubmit?
    ensures Next(w, e).runs == w.runs
  {
    if UpToAct(e) {
      StrandedRunsEarly(w, e);
    }
  }

  lemma StrandedRunsEarly(w: World, e: Event)
    requires Stranded(w) && UpToAct(e)
    ensures Next(w, e).runs == w.runs
  {
  }

  lemma StrandedHands(w: World, e: Event, k: WorkerId)
    requires Stranded(w) && !e.Resubmit? && k in Next(w, e).workers
    ensures Next(w, e).workers[k].pc !in {Pc.PickedUp, PriorRead}
  {
    var x := Next(w, e).workers[k];
    if Hand(x, x.run, x.goal) {
      HandComesFrom(w, e, k, x.run, x.goal);
    }
  }

  lemma StepKeepsStranded(w: World, e: Event)
    requires Stranded(w) && !Releases(w, e) && !e.Resubmit?
    ensures var v := Next(w, e);
      Stranded(v) && v.row.state == w.row.state && v.row.transcript == w.row.transcript && v.runs == w.runs
  {
    BusyRowMovesIff(w, e);
    StrandedRuns(w, e);
    forall k | k in Next(w, e).workers ensures Next(w, e).workers[k].pc !in {Pc.PickedUp, PriorRead} {
      StrandedHands(w, e, k);
    }
  }

  /** A stranded row stays as it is, whatever messages, retries, approvals, deliveries and lease checks follow, until a
      cancel, a late step of its old worker, or the first request sent again. */
  lemma {:induction false} StrandedStays(w: World, events: seq<Event>)
    requires Stranded(w) && LeftAlone(w, events)
    ensures var v := Run(w, events);
      Stranded(v) && v.row.state == w.row.state && v.row.transcript == w.row.transcript && v.runs == w.runs
    decreases |events|
  {
    if events != [] {
      StepKeepsStranded(w, events[0]);
      StrandedStays(Next(w, events[0]), events[1..]);
    }
  }

  // ---------------------------------------------------------------- sending the first request again

  /** The first request sent again, its run delivered, its claim and its exit. */
  function Replay(run: RunId, k: WorkerId): seq<Event> {
    [Resubmit(run), PickUp(k, run), Claim(k, true), CleanUp(k)]
  }

  lemma FourSteps(w: World, a: Event, b: Event, c: Event, d: Event)
    ensures Run(w, [a, b, c, d]) == Next(Next(Next(Next(w, a), b), c), d)
  {
    var e := [a, b, c, d];
    assert e[1..] == [b, c, d] && [b, c, d][1..] == [c, d] && [c, d][1..] == [d] && [d][1..] == [];
    assert Run(w, e) == Run(Next(w, a), [b, c, d]);
    assert Run(Next(w, a), [b, c, d]) == Run(Next(Next(w, a), b), [c, d]);
    var u := Next(Next(w, a), b);
    assert Run(u, [c, d]) == Run(Next(u, c), [d]);
    assert Run(Next(u, c), [d]) == Run(Next(Next(u, c), d), []);
  }

  /** The run sent again, in the hands of a new worker. */
  function PickedAgain(w: World, run: RunId, k: WorkerId): World
    requires run in w.runs
  {
    var goal := w.runs[run].goal;
    w.(runs := w.runs[run := QueuedRun(New, goal, Held(k))],
       workers := w.workers[k := Worker(run, New, goal, Pc.PickedUp, [], w.row)])
  }

  lemma ReplayPicks(w: World, run: RunId, k: WorkerId)
    requires run in w.runs && w.runs[run].mode.New? && w.runs[run].phase == Over(true) && k !in w.workers
    ensures Next(Next(w, Resubmit(run)), PickUp(k, run)) == PickedAgain(w, run, k)
  {
    var r := w.runs[run];
    var w1 := Next(w, Resubmit(run));
    assert w1 == w.(runs := w.runs[run := r.(phase := Waiting)]);
    LastWriteStands(w.runs, run, r.(phase := Waiting), r.(phase := Held(k)));
  }

  lemma ReplayIsRefused(w: World, run: RunId, k: WorkerId)
    requires Busy(w.row) && run in w.runs && k !in w.workers
    ensures var picked := PickedAgain(w, run, k);
      && HoldsLease(picked, k) && LeaseLive(picked)
      && Next(picked, Claim(k, true)) == Move(picked, k, Leaving(false))
  {
    var picked := PickedAgain(w, run, k);
    assert picked.runs[run].phase.Held?;
    HolderNeverTakesOver(picked, k);
  }

  lemma ReplayLeaves(w: World, run: RunId, k: WorkerId)
    requires run in w.runs && w.runs[run].mode.New? && w.runs[run].phase == Over(true)
    ensures var v := Next(Move(PickedAgain(w, run, k), k, Leaving(false)), CleanUp(k));
      v.row == w.row && v.runs == w.runs && k in v.workers && v.workers == w.workers[k := v.workers[k]]
      && v.workers[k].pc == Gone
  {
    var picked := PickedAgain(w, run, k);
    var u := Move(picked, k, Leaving(false));
    var v := Next(u, CleanUp(k));
    LastWriteStands(w.workers, k, picked.workers[k], u.workers[k]);
    LastWriteStands(w.workers, k, u.workers[k], v.workers[k]);
    LastWriteStands(w.runs, run, picked.runs[run], w.runs[run]);
    assert w.runs[run := w.runs[run]] == w.runs;
  }

  /** Sending the first request again does not free the row either: the lease its claim finds live is its own, so the
      claim is refused and the run is over once more. */
  lemma ReplayDoesNotHelp(w: World, run: RunId, k: WorkerId)
    requires Stranded(w) && run in w.runs && w.runs[run].mode.New? && w.runs[run].phase == Over(true)
    requires k !in w.workers
    ensures LeaseLive(Next(Next(w, Resubmit(run)), PickUp(k, run)))
    ensures var v := Run(w, Replay(run, k));
      v.row == w.row && v.runs == w.runs && Stranded(v)
  {
    FourSteps(w, Resubmit(run), PickUp(k, run), Claim(k, true), CleanUp(k));
    ReplayPicks(w, run, k);
    ReplayIsRefused(w, run, k);
    ReplayLeaves(w, run, k);
  }

  // ---------------------------------------------------------------- a run that strands a row

  lemma LosesLease(rule: Rule, past: seq<Event>, w: World, run: RunId) returns (v: World, events: seq<Event>)
    requires Reached(rule, past, w) && InPlay(w, run) && w.runs[run].phase.Held?
    ensures v == w.(runs := w.runs[run := w.runs[run].(phase := Waiting)])
    ensures Reached(rule, events, v) && past <= events
  {
    v, events := JobHazards.Step(rule, past, w, LoseLease(run, false));
  }

  /** The re-delivered run is refused: the row is PLANNING and the lease found live is the worker's own. */
  lemma ClaimRefused(rule: Rule, past: seq<Event>, w: World, k: WorkerId) returns (v: World, events: seq<Event>)
    requires Reached(rule, past, w) && HoldsLease(w, k) && Busy(w.row)
    requires w.workers[k].pc == Pc.PickedUp && w.workers[k].mode.New?
    ensures v == w.(workers := w.workers[k := w.workers[k].(pc := Leaving(false))])
    ensures Reached(rule, events, v) && past <= events
  {
    assert LeaseLive(w) by { assert w.workers[k].run in w.runs; }
    v, events := JobHazards.Step(rule, past, w, Claim(k, true));
  }

  /** The first worker claimed the row and died; its run is delivered to a second one. */
  lemma DeliveredAgain(rule: Rule) returns (v: World, events: seq<Event>)
    ensures Reached(rule, events, v) && v.row.state == Planning && !v.signal
    ensures v.runs == map[0 := QueuedRun(New, "", Held(2))] && v.workers.Keys == {1, 2}
    ensures v.workers[1].pc == Claimed
    ensures v.workers[2].run == 0 && v.workers[2].pc == Pc.PickedUp && v.workers[2].mode.New?
  {
    var w1, e1 := PicksUp(rule, [], Init(""), 1, 0);
    var w2, e2 := Claims(rule, e1, w1, 1);
    var w3, e3 := LosesLease(rule, e2, w2, 0);
    v, events := PicksUp(rule, e3, w3, 2, 0);
    assert v.runs == map[0 := QueuedRun(New, "", Held(2))];
  }

  /** From the start, keeping every rule of the discipline but any one: the first worker dies after its claim, its run
      is delivered again, the second claim is refused, and the row is stranded in PLANNING. */
  lemma AStrandedRow(rule: Rule) returns (v: World, events: seq<Event>)
    ensures Reached(rule, events, v) && Stranded(v) && v.row.state == Planning
    ensures v.runs == map[0 := QueuedRun(New, "", Over(true))]
  {
    var w, e := DeliveredAgain(rule);
    var w1, e1 := ClaimRefused(rule, e, w, 2);
    v, events := CleansUp(rule, e1, w1, 2);
    assert v.runs == map[0 := QueuedRun(New, "", Over(true))];
  }
}
