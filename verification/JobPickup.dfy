/** Who picks an accepted follow-up up. The request answers once the row is QUEUED; whether some worker will ever
    claim that row for it is decided by the run its idempotency key names. */
module JobPickup {
  import opened Basics
  import opened JobTypes
  import opened JobUpdates
  import opened JobProtocol
  import opened JobSafety
  import opened JobOrderly
  import opened JobHazards
  import opened JobBudget

  /** The row waits for a worker all along. */
  ghost predicate StaysQueued(w: World, events: seq<Event>)
    decreases |events|
  {
    w.row.state == Queued && (events == [] || StaysQueued(Next(w, events[0]), events[1..]))
  }

  /** A worker of that run, with that text, takes the queued row to PLANNING. */
  ghost predicate ClaimsRow(w: World, e: Event, run: RunId, text: string) {
    && e.Claim? && e.worker in w.workers
    && w.workers[e.worker].run == run && w.workers[e.worker].goal == text
    && w.row.state == Queued && Next(w, e).row.state == Planning
  }

  /** Some continuation claims the waiting row for that run and text. */
  ghost predicate PickedUp(w: World, run: RunId, text: string) {
    exists events, e :: StaysQueued(w, events) && ClaimsRow(Run(w, events), e, run, text)
  }

  /** A worker that took the run from the queue and has not claimed the row yet. */
  predicate Hand(x: Worker, run: RunId, text: string) {
    x.run == run && x.goal == text && x.pc in {Pc.PickedUp, PriorRead}
  }

  ghost predicate HasHand(w: World, run: RunId, text: string) {
    exists k | k in w.workers :: Hand(w.workers[k], run, text)
  }

  // ---------------------------------------------------------------- without a run and without a hand

  ghost predicate Unclaimable(w: World, run: RunId, text: string) {
    (run in w.runs ==> w.runs[run].phase == Over(false)) && !HasHand(w, run, text)
  }

  lemma QueuedRunsStayOver(w: World, e: Event, run: RunId)
    requires w.row.state == Queued && run in Next(w, e).runs
    requires run in w.runs ==> w.runs[run].phase == Over(false)
    ensures run in w.runs && Next(w, e).runs[run].phase == Over(false)
  {
    if UpToAct(e) || FromAct(e) {
      WorkersKeepOver(w, e, run);
    }
  }

  lemma WorkersKeepOver(w: World, e: Event, run: RunId)
    requires run in Next(w, e).runs && (UpToAct(e) || FromAct(e))
    requires run in w.runs ==> w.runs[run].phase == Over(false)
    ensures run in w.runs && Next(w, e).runs[run].phase == Over(false)
  {
    if UpToAct(e) {
      EarlyStepsKeepOver(w, e, run);
    }
  }

  lemma EarlyStepsKeepOver(w: World, e: Event, run: RunId)
    requires run in Next(w, e).runs && UpToAct(e)
    requires run in w.runs ==> w.runs[run].phase == Over(false)
    ensures run in w.runs && Next(w, e).runs[run].phase == Over(false)
  {
  }

  /** A hand was a hand before, or was just picked up from a waiting run. */
  lemma HandComesFrom(w: World, e: Event, k: WorkerId, run: RunId, text: string)
    requires k in Next(w, e).workers && Hand(Next(w, e).workers[k], run, text)
    ensures (k in w.workers && Hand(w.workers[k], run, text)) || (run in w.runs && w.runs[run].phase == Waiting)
  {
    if k in w.workers {
      if Actor(e) == Some(k) {
        OwnStepMakesNoHand(w, e, k, run, text);
      } else {
        OthersLeaveWorker(w, e, k);
      }
    } else {
      OnlyThePickUpAddsWorkers(w, e, k);
    }
  }

  lemma OwnStepMakesNoHand(w: World, e: Event, k: WorkerId, run: RunId, text: string)
    requires k in w.workers && Actor(e) == Some(k)
    requires k in Next(w, e).workers && Hand(Next(w, e).workers[k], run, text)
    ensures Hand(w.workers[k], run, text)
  {
    if UpToAct(e) {
      EarlyStepMakesNoHand(w, e, k, run, text);
    }
  }

  lemma EarlyStepMakesNoHand(w: World, e: Event, k: WorkerId, run: RunId, text: string)
    requires k in w.workers && Actor(e) == Some(k) && UpToAct(e)
    requires k in Next(w, e).workers && Hand(Next(w, e).workers[k], run, text)
    ensures Hand(w.workers[k], run, text)
  {
  }

  lemma StepKeepsUnclaimable(w: World, e: Event, run: RunId, text: string)
    requires w.row.state == Queued && Unclaimable(w, run, text)
    ensures Unclaimable(Next(w, e), run, text)
  {
    var v := Next(w, e);
    if run in v.runs {
      QueuedRunsStayOver(w, e, run);
    }
    forall k | k in v.workers ensures !Hand(v.workers[k], run, text) {
      if Hand(v.workers[k], run, text) {
        HandComesFrom(w, e, k, run, text);
      }
    }
  }

  lemma ClaimNeedsAHand(w: World, e: Event, run: RunId, text: string)
    requires ClaimsRow(w, e, run, text)
    ensures HasHand(w, run, text)
  {
    assert Hand(w.workers[e.worker], run, text);
  }

  lemma {:induction false} NobodyClaims(w: World, events: seq<Event>, e: Event, run: RunId, text: string)
    requires StaysQueued(w, events) && Unclaimable(w, run, text)
    ensures !ClaimsRow(Run(w, events), e, run, text)
    decreases |events|
  {
    if events == [] {
      if ClaimsRow(w, e, run, text) {
        ClaimNeedsAHand(w, e, run, text);
      }
    } else {
      StepKeepsUnclaimable(w, events[0], run, text);
      NobodyClaims(Next(w, events[0]), events[1..], e, run, text);
    }
  }

  lemma UnclaimableIsNotPickedUp(w: World, run: RunId, text: string)
    requires Unclaimable(w, run, text)
    ensures !PickedUp(w, run, text)
  {
    if PickedUp(w, run, text) {
      var events, e :| StaysQueued(w, events) && ClaimsRow(Run(w, events), e, run, text);
      NobodyClaims(w, events, e, run, text);
    }
  }

  // ---------------------------------------------------------------- with one of them

  lemma EventsFirst(w: World, e: Event, run: RunId, text: string)
    requires w.row.state == Queued && PickedUp(Next(w, e), run, text)
    ensures PickedUp(w, run, text)
  {
    var events, claim :| StaysQueued(Next(w, e), events) && ClaimsRow(Run(Next(w, e), events), claim, run, text);
    var all := [e] + events;
    assert all[0] == e && all[1..] == events;
    assert StaysQueued(w, all) && ClaimsRow(Run(w, all), claim, run, text);
  }

  lemma ClaimIsPickedUp(w: World, e: Event, run: RunId, text: string)
    requires ClaimsRow(w, e, run, text)
    ensures PickedUp(w, run, text)
  {
    assert StaysQueued(w, []) && Run(w, []) == w;
  }

  lemma AHandClaims(w: World, k: WorkerId, run: RunId, text: string)
    requires w.row.state == Queued && !w.signal && k in w.workers && Hand(w.workers[k], run, text)
    ensures PickedUp(w, run, text)
  {
    var x := w.workers[k];
    if x.pc == Pc.PickedUp && x.mode.FollowUp? {
      var v := Next(w, ReadPrior(k));
      assert v == w.(workers := w.workers[k := x.(pc := PriorRead, before := w.row.transcript)]);
      ReadHandClaims(v, k, run, text);
      EventsFirst(w, ReadPrior(k), run, text);
    } else {
      ReadHandClaims(w, k, run, text);
    }
  }

  lemma ReadHandClaims(w: World, k: WorkerId, run: RunId, text: string)
    requires w.row.state == Queued && !w.signal && k in w.workers && Hand(w.workers[k], run, text)
    requires w.workers[k].pc == PriorRead || w.workers[k].mode.New?
    ensures PickedUp(w, run, text)
  {
    assert ClaimsRow(w, Claim(k, true), run, text);
    ClaimIsPickedUp(w, Claim(k, true), run, text);
  }

  lemma AWaitingRunClaims(w: World, run: RunId, text: string)
    requires w.row.state == Queued && !w.signal
    requires run in w.runs && w.runs[run].phase == Waiting && w.runs[run].goal == text
    ensures PickedUp(w, run, text)
  {
    var k := FreshKey(w.workers.Keys);
    var v := Next(w, PickUp(k, run));
    assert v == PickUpStep(w, k, run);
    assert Hand(v.workers[k], run, text);
    AHandClaims(v, k, run, text);
    EventsFirst(w, PickUp(k, run), run, text);
  }

  lemma AHeldRunClaims(w: World, run: RunId, text: string)
    requires w.row.state == Queued && !w.signal
    requires run in w.runs && w.runs[run].phase.Held? && w.runs[run].goal == text
    ensures PickedUp(w, run, text)
  {
    var v := Next(w, LoseLease(run, false));
    assert v == w.(runs := w.runs[run := w.runs[run].(phase := Waiting)]);
    AWaitingRunClaims(v, run, text);
    EventsFirst(w, LoseLease(run, false), run, text);
  }

  // ---------------------------------------------------------------- the accepted message

  ghost predicate Accepted(w: World, text: string, run: RunId) {
    Resumable(w.row.state) && Next(w, Message(text, run, false)).row.state == Queued
  }

  /** What the key of a message must name for somebody to execute it: no run, a run that is not over or that failed,
      or one whose worker, past its lease perhaps, has not claimed yet. */
  ghost predicate Executable(w: World, text: string, run: RunId) {
    run !in w.runs || w.runs[run].phase != Over(false) || HasHand(w, run, text)
  }

  lemma AcceptedMessage(w: World, text: string, run: RunId)
    requires Accepted(w, text, run)
    ensures var v := Next(w, Message(text, run, false));
      && v.row.state == Queued && v.workers == w.workers && v.signal == w.signal
      && run in v.runs && v.runs[run].goal == text
      && (run !in w.runs || w.runs[run].phase == Over(true) ==> v.runs[run].phase == Waiting)
      && (run in w.runs && w.runs[run].phase != Over(true) ==> v.runs == w.runs)
  {
  }

  /** An accepted message is claimed by no continuation when its key names a finished run without a worker before its
      claim; otherwise some continuation claims it, unless a cancel signal waits, which rolls every claim back. */
  lemma FollowUpIsPickedUpIff(w: World, text: string, run: RunId)
    requires Accepted(w, text, run)
    ensures var v := Next(w, Message(text, run, false));
      && (PickedUp(v, run, text) ==> Executable(w, text, run))
      && (!w.signal ==> (PickedUp(v, run, text) <==> Executable(w, text, run)))
  {
    var v := Next(w, Message(text, run, false));
    AcceptedMessage(w, text, run);
    if !Executable(w, text, run) {
      assert Unclaimable(v, run, text);
      UnclaimableIsNotPickedUp(v, run, text);
    } else if !w.signal {
      if v.runs[run].phase == Waiting {
        AWaitingRunClaims(v, run, text);
      } else if v.runs[run].phase.Held? {
        AHeldRunClaims(v, run, text);
      } else {
        var k :| k in w.workers && Hand(w.workers[k], run, text);
        AHandClaims(v, k, run, text);
      }
    }
  }

  // ---------------------------------------------------------------- a message nobody picks up

  lemma Returns(rule: Rule, past: seq<Event>, w: World, k: WorkerId) returns (v: World, events: seq<Event>)
    requires Reached(rule, past, w) && HoldsLease(w, k) && w.workers[k].pc == Committed
    ensures v == w.(workers := w.workers[k := w.workers[k].(pc := Leaving(true))])
    ensures Reached(rule, events, v) && past <= events
  {
    v, events := JobHazards.Step(rule, past, w, Return(k));
  }

  lemma CleansUpWell(rule: Rule, past: seq<Event>, w: World, k: WorkerId) returns (v: World, events: seq<Event>)
    requires Reached(rule, past, w) && HoldsLease(w, k) && w.workers[k].pc == Leaving(true)
    ensures var run := w.workers[k].run;
      v == w.(signal := false, runs := w.runs[run := w.runs[run].(phase := Over(false))],
              workers := w.workers[k := w.workers[k].(pc := Gone)])
    ensures Reached(rule, events, v) && past <= events
  {
    v, events := JobHazards.Step(rule, past, w, CleanUp(k));
  }

  /** The first run commits its round and its worker leaves. */
  lemma FirstRunIsOver(rule: Rule) returns (v: World, events: seq<Event>)
    ensures Resumable(v.row.state) && v.runs == map[0 := QueuedRun(New, "", Over(false))]
    ensures v.workers.Keys == {1} && v.workers[1].pc == Gone && !v.signal
    ensures Reached(rule, events, v)
  {
    var w0, e0 := FirstRunActs(rule);
    var w1, e1 := Commits(rule, e0, w0, 1, "", false);
    var w2, e2 := Returns(rule, e1, w1, 1);
    v, events := CleansUpWell(rule, e2, w2, 1);
    assert v.runs == map[0 := QueuedRun(New, "", Over(false))];
  }

  /** From the start, an accepted message that repeats the key of the finished first run leaves the row QUEUED, and no
      continuation claims that row for any run or text while it waits. */
  lemma AMessageNobodyPicksUp(rule: Rule) returns (past: seq<Event>)
    ensures OrderlyBut(Init(""), past + [Message("", 0, false)], rule)
    ensures Accepted(Run(Init(""), past), "", 0)
    ensures var v := Run(Init(""), past + [Message("", 0, false)]);
      v.row.state == Queued && forall run, text :: !PickedUp(v, run, text)
  {
    var w, e := FirstRunIsOver(rule);
    var v, all := JobHazards.Step(rule, e, w, Message("", 0, false));
    past := e;
    forall run, text ensures !PickedUp(v, run, text) {
      assert Unclaimable(v, run, text);
      UnclaimableIsNotPickedUp(v, run, text);
    }
  }
}
