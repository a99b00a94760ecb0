/** What a call of another request under the same key may touch, and the monthly budget over every run. */
module MeteringHolds {
  import opened Basics
  import opened Metering
  import opened MeteringSafety
  import opened MeteringResults
  import Usage = UsageLedger

  // ---------------------------------------------------------------- another request under the same key

  predicate OtherRequest(a: Usage.Attempt, r: Request) {
    a.key == r.key && (a.user != r.user || a.inputHash != r.inputHash || a.capability != r.capability)
  }

  /** The key's exchange belongs to another user, input or capability. */
  predicate Foreign(attempts: seq<Usage.Attempt>, r: Request) {
    exists i | 0 <= i < |attempts| :: OtherRequest(attempts[i], r)
  }

  ghost predicate Agreeing(attempts: seq<Usage.Attempt>) {
    forall i, j | 0 <= i < j < |attempts| && attempts[i].key == attempts[j].key ::
      attempts[i].user == attempts[j].user && attempts[i].inputHash == attempts[j].inputHash
      && attempts[i].capability == attempts[j].capability
  }

  ghost predicate PayersAgree(attempts: seq<Usage.Attempt>, calls: seq<Call>) {
    forall c | 0 <= c < |calls| && Paying(calls[c].pc) ::
      calls[c].pc.attempt < |attempts| && attempts[calls[c].pc.attempt].key == calls[c].request.key
      && !OtherRequest(attempts[calls[c].pc.attempt], calls[c].request)
  }

  ghost predicate Agreed(w: World) {
    Agreeing(w.attempts) && PayersAgree(w.attempts, w.calls)
  }

  /** Each new exchange of a key is for the request its earlier ones were for. */
  lemma BeginAgreesWithTheKey(w: World, c: nat, month: int)
    requires Agreeing(w.attempts) && c < |w.calls| && w.calls[c].pc.Beginning?
    ensures var (after, reply) := BeginReply(w, c, month);
      if reply.Begun? then
        && after == w.attempts + [reply.attempt] && reply.attempt.id == |w.attempts|
        && reply.attempt.key == w.calls[c].request.key && !OtherRequest(reply.attempt, w.calls[c].request)
        && !Foreign(w.attempts, w.calls[c].request)
      else after == w.attempts
  {
    var last := Usage.Latest(w.attempts, w.calls[c].request.key);
    if Foreign(w.attempts, w.calls[c].request) {
      var i :| 0 <= i < |w.attempts| && OtherRequest(w.attempts[i], w.calls[c].request);
      assert i <= last;
    }
  }

  lemma AppendAgrees(attempts: seq<Usage.Attempt>, calls: seq<Call>, c: nat, pc: Pc, a: Usage.Attempt)
    requires Agreeing(attempts) && PayersAgree(attempts, calls) && c < |calls|
    requires pc.Asking? && pc.attempt == |attempts| && a.key == calls[c].request.key
    requires !OtherRequest(a, calls[c].request) && !Foreign(attempts, calls[c].request)
    ensures Agreeing(attempts + [a]) && PayersAgree(attempts + [a], calls[c := calls[c].(pc := pc)])
  {
    forall i | 0 <= i < |attempts| && attempts[i].key == a.key
      ensures attempts[i].user == a.user && attempts[i].inputHash == a.inputHash && attempts[i].capability == a.capability
    {
      assert !OtherRequest(attempts[i], calls[c].request);
    }
  }

  lemma BeginAgrees(w: World, c: nat, month: int)
    requires Agreed(w) && c < |w.calls| && w.calls[c].pc.Beginning?
    ensures Agreed(BeginStep(w, c, month))
  {
    BeginMoves(w, c, month);
    BeginAgreesWithTheKey(w, c, month);
    var reply, v := BeginReply(w, c, month).1, BeginStep(w, c, month);
    if reply.Begun? {
      AppendAgrees(w.attempts, w.calls, c, Asking(w.calls[c].pc.route, reply.attempt.id), reply.attempt);
    }
  }

  lemma ReportAgrees(w: World, c: nat)
    requires Agreed(w) && c < |w.calls| && w.calls[c].pc.Reporting?
    ensures Agreed(ReportStep(w, c))
  {
    var v := ReportStep(w, c);
    forall d | 0 <= d < |v.calls| && Paying(v.calls[d].pc)
      ensures v.calls[d].pc.attempt < |v.attempts| && v.attempts[v.calls[d].pc.attempt].key == v.calls[d].request.key
              && !OtherRequest(v.attempts[v.calls[d].pc.attempt], v.calls[d].request)
    {
      assert Paying(w.calls[d].pc);
    }
  }

  /** A call that does not begin to pay keeps the attempt it pays for. */
  lemma MovedAgrees(w: World, v: World, c: nat, pc: Pc)
    requires Agreed(w) && c < |w.calls|
    requires v.attempts == w.attempts && v.calls == w.calls[c := w.calls[c].(pc := pc)]
    requires Paying(pc) ==> Paying(w.calls[c].pc) && pc.attempt == w.calls[c].pc.attempt
    ensures Agreed(v)
  {
  }

  lemma CallStepMoves(w: World, e: Event)
    requires (e.Open? || e.Admit? || e.Hear? || e.Release? || e.Settle?) && e.c < |w.calls|
    ensures var v := Next(w, e);
      && v.attempts == w.attempts && |v.calls| == |w.calls|
      && v.calls == w.calls[e.c := w.calls[e.c].(pc := v.calls[e.c].pc)]
      && (Paying(v.calls[e.c].pc) ==>
            Paying(w.calls[e.c].pc) && v.calls[e.c].pc.attempt == w.calls[e.c].pc.attempt)
  {
  }

  lemma CallStepAgrees(w: World, e: Event)
    requires Agreed(w) && (e.Open? || e.Admit? || e.Hear? || e.Release? || e.Settle?) && e.c < |w.calls|
    ensures Agreed(Next(w, e))
  {
    CallStepMoves(w, e);
    MovedAgrees(w, Next(w, e), e.c, Next(w, e).calls[e.c].pc);
  }

  lemma OtherStepsAgree(w: World, e: Event)
    requires Agreed(w) && !e.Open? && !e.Admit? && !e.Hear? && !e.Release? && !e.Settle? && !e.Begin? && !e.Report?
    ensures Agreed(Next(w, e))
  {
    var v := Next(w, e);
    assert v.attempts == w.attempts;
    assert v.calls == w.calls || v.calls == w.calls + [Call(e.request, Arrived)];
  }

  lemma StepAgrees(w: World, e: Event)
    requires Agreed(w) && AttemptsInOrder(w.attempts)
    ensures Agreed(Next(w, e))
  {
    if e.Begin? {
      if e.c < |w.calls| && w.calls[e.c].pc.Beginning? {
        BeginAgrees(w, e.c, e.month);
      }
    } else if e.Report? {
      if e.c < |w.calls| && w.calls[e.c].pc.Reporting? {
        ReportAgrees(w, e.c);
      }
    } else if e.Open? || e.Admit? || e.Hear? || e.Release? || e.Settle? {
      if e.c < |w.calls| {
        CallStepAgrees(w, e);
      }
    } else {
      OtherStepsAgree(w, e);
    }
  }

  lemma {:induction false} RunAgrees(w: World, events: seq<Event>)
    requires Sound(w) && Agreed(w)
    ensures Sound(Run(w, events)) && Agreed(Run(w, events))
    decreases |events|
  {
    if events != [] {
      StepKeepsSound(w, events[0]);
      StepAgrees(w, events[0]);
      RunAgrees(Next(w, events[0]), events[1..]);
    }
  }

  /** The steps a call takes by itself. */
  predicate StepOf(e: Event, c: nat) {
    (e.Open? || e.Admit? || e.Begin? || e.Hear? || e.Report? || e.Release? || e.Settle?) && e.c == c
  }

  /** `begin` refuses a foreign call. */
  lemma ForeignBeginIsRefused(w: World, c: nat, month: int)
    requires Agreed(w) && c < |w.calls| && w.calls[c].pc.Beginning? && Foreign(w.attempts, w.calls[c].request)
    ensures BeginReply(w, c, month) == (w.attempts, Usage.Conflict)
  {
    var r := w.calls[c].request;
    var i :| 0 <= i < |w.attempts| && OtherRequest(w.attempts[i], r);
    var last := Usage.Latest(w.attempts, r.key);
    assert i <= last;
    assert OtherRequest(w.attempts[last], r);
  }

  lemma ForeignNeverPays(w: World, c: nat)
    requires Agreed(w) && c < |w.calls| && Foreign(w.attempts, w.calls[c].request)
    ensures !Paying(w.calls[c].pc)
  {
    var i :| 0 <= i < |w.attempts| && OtherRequest(w.attempts[i], w.calls[c].request);
  }

  /** A foreign call changes no exchange, no audit, no balance and no other key's hold, whatever step it takes. */
  lemma ForeignStepTouchesOnlyItsHold(w: World, c: nat, e: Event)
    requires Agreed(w) && c < |w.calls| && Foreign(w.attempts, w.calls[c].request) && StepOf(e, c)
    ensures var v, key := Next(w, e), w.calls[c].request.key;
      && v == w.(holds := v.holds, calls := v.calls)
      && |v.calls| == |w.calls| && v.calls == w.calls[c := w.calls[c].(pc := v.calls[c].pc)]
      && |w.holds| <= |v.holds|
      && (forall k | 0 <= k < |w.holds| && w.holds[k].key != key :: v.holds[k] == w.holds[k])
      && (forall k | |w.holds| <= k < |v.holds| :: v.holds[k].key == key)
  {
    ForeignNeverPays(w, c);
    if e.Begin? && w.calls[c].pc.Beginning? {
      ForeignBeginIsRefused(w, c, e.month);
    }
  }

  /** Over every run: while a call's key holds another request's exchange, the call pays nothing and changes
      nothing but the hold of its key. */
  lemma ForeignCallChangesNothing(w: World, events: seq<Event>, c: nat, e: Event)
    requires Start(w) && Agreeing(w.attempts)
    requires var v := Run(w, events);
      c < |v.calls| && Foreign(v.attempts, v.calls[c].request) && StepOf(e, c)
    ensures var v := Run(w, events);
      !Paying(v.calls[c].pc) && Next(v, e) == v.(holds := Next(v, e).holds, calls := Next(v, e).calls)
  {
    RunAgrees(w, events);
    ForeignNeverPays(Run(w, events), c);
    ForeignStepTouchesOnlyItsHold(Run(w, events), c, e);
  }

  // ---------------------------------------------------------------- the budget

  /** Audits that attempts measure add nothing to any month. */
  lemma {:induction false} MeasuredAuditsAddNothing(audits: seq<Audit>, more: seq<Audit>, attempts: seq<Usage.Attempt>,
                                                    month: int)
    requires forall i | 0 <= i < |more| :: Usage.Measured(attempts, more[i].key)
    ensures Usage.Legacy(Paid(audits + more), attempts, month) == Usage.Legacy(Paid(audits), attempts, month)
  {
    if more == [] {
      assert audits + more == audits;
    } else {
      var n := |more| - 1;
      MeasuredAuditsAddNothing(audits, more[..n], attempts, month);
      var all := Paid(audits + more);
      assert all[..|all| - 1] == Paid(audits + more[..n]);
      assert all[|all| - 1].key == more[n].key;
    }
  }

  /** The audits the open round added are all measured. */
  ghost predicate RoundMeasured(w: World) {
    w.saved.Some? ==>
      && w.saved.value.audits <= w.books.audits
      && forall i | |w.saved.value.audits| <= i < |w.books.audits| :: Usage.Measured(w.attempts, w.books.audits[i].key)
  }

  function Spending(w: World, month: int): nat {
    Usage.Consumed(w.attempts, Paid(Visible(w).audits), month)
  }

  /** The whole books and the ones other connections see count the same. */
  lemma RoundCountsNothing(w: World, month: int)
    requires RoundMeasured(w)
    ensures Usage.Legacy(Paid(w.books.audits), w.attempts, month)
         == Usage.Legacy(Paid(Visible(w).audits), w.attempts, month)
  {
    if w.saved.Some? {
      var n := |w.saved.value.audits|;
      assert w.books.audits == w.saved.value.audits + w.books.audits[n..];
      MeasuredAuditsAddNothing(w.saved.value.audits, w.books.audits[n..], w.attempts, month);
    }
  }

  lemma SettleCountsNothing(w: World, c: nat, entitled: bool, m: int, month: int)
    requires Sound(w) && RoundMeasured(w) && c < |w.calls| && w.calls[c].pc.Settling?
    ensures var v := SettleStep(w, c, entitled, m); RoundMeasured(v) && Spending(v, month) == Spending(w, month)
  {
    SettleWritesBothOrNothing(w, c, entitled, m);
    var v, a := SettleStep(w, c, entitled, m), NewAudit(w, c, m);
    assert v.attempts == w.attempts;
    assert Usage.Measured(w.attempts, a.key) by {
      assert PaysItsOwn(w.attempts, w.calls[c]);
    }
    MeasuredAuditsAddNothing(w.books.audits, [a], w.attempts, month);
  }

  lemma MeasuredGrows(before: seq<Usage.Attempt>, after: seq<Usage.Attempt>, audits: seq<Audit>, from: nat)
    requires |before| <= |after| && forall i | 0 <= i < |before| :: after[i].key == before[i].key
    requires forall i | from <= i < |audits| :: Usage.Measured(before, audits[i].key)
    ensures forall i | from <= i < |audits| :: Usage.Measured(after, audits[i].key)
  {
    forall i | from <= i < |audits| ensures Usage.Measured(after, audits[i].key) {
      var k :| 0 <= k < |before| && before[k].key == audits[i].key;
      assert after[k].key == audits[i].key;
    }
  }

  lemma BeginKeepsBudget(w: World, c: nat, m: int, month: int)
    requires RoundMeasured(w) && c < |w.calls| && w.calls[c].pc.Beginning?
    requires w.budget.Some? && Spending(w, month) <= w.budget.value
    ensures var v := BeginStep(w, c, m); RoundMeasured(v) && Spending(v, month) <= w.budget.value
  {
    BeginMoves(w, c, m);
    var v := BeginStep(w, c, m);
    var x := ExchangeOf(w.calls[c].request, w.calls[c].pc.route);
    Usage.BeginAddsItsCost(w.attempts, Paid(Visible(w).audits), w.budget, x, m, |w.attempts|, month);
    if w.saved.Some? {
      MeasuredGrows(w.attempts, v.attempts, w.books.audits, |w.saved.value.audits|);
    }
    assert v.saved == w.saved;
  }

  lemma ReportKeepsBudget(w: World, c: nat, month: int)
    requires RoundMeasured(w) && c < |w.calls| && w.calls[c].pc.Reporting?
    ensures var v := ReportStep(w, c); RoundMeasured(v) && Spending(v, month) <= Spending(w, month)
  {
    var v := ReportStep(w, c);
    Usage.FinishNeverAdds(w.attempts, Paid(Visible(w).audits), w.calls[c].pc.attempt,
                          ReportOf(w.calls[c].pc.reply), month);
    if w.saved.Some? {
      MeasuredGrows(w.attempts, v.attempts, w.books.audits, |w.saved.value.audits|);
    }
  }

  lemma RoundStepsKeepBudget(w: World, e: Event, month: int)
    requires RoundMeasured(w) && (e.RoundStart? || e.RoundCommit? || e.RoundRollback?)
    ensures RoundMeasured(Next(w, e)) && Spending(Next(w, e), month) == Spending(w, month)
  {
    RoundCountsNothing(w, month);
    var v := Next(w, e);
    assert v.attempts == w.attempts;
    assert Visible(v).audits == w.books.audits || Visible(v).audits == Visible(w).audits;
  }

  lemma OthersSpendNothing(w: World, e: Event)
    requires !e.Begin? && !e.Report? && !e.Settle? && !e.RoundStart? && !e.RoundCommit? && !e.RoundRollback?
    ensures var v := Next(w, e); v.attempts == w.attempts && v.books.audits == w.books.audits && v.saved == w.saved
  {
  }

  lemma OtherStepsKeepBudget(w: World, e: Event, month: int)
    requires RoundMeasured(w) && !e.Begin? && !e.Report? && !e.Settle?
    ensures RoundMeasured(Next(w, e)) && Spending(Next(w, e), month) == Spending(w, month)
  {
    if e.RoundStart? || e.RoundCommit? || e.RoundRollback? {
      RoundStepsKeepBudget(w, e, month);
    } else {
      OthersSpendNothing(w, e);
    }
  }

  lemma StepKeepsBudget(w: World, e: Event, month: int)
    requires Sound(w) && RoundMeasured(w) && w.budget.Some? && Spending(w, month) <= w.budget.value
    ensures RoundMeasured(Next(w, e)) && Spending(Next(w, e), month) <= w.budget.value
  {
    if e.Begin? {
      if e.c < |w.calls| && w.calls[e.c].pc.Beginning? {
        BeginKeepsBudget(w, e.c, e.month, month);
      }
    } else if e.Report? {
      if e.c < |w.calls| && w.calls[e.c].pc.Reporting? {
        ReportKeepsBudget(w, e.c, month);
      }
    } else if e.Settle? {
      if e.c < |w.calls| && w.calls[e.c].pc.Settling? {
        SettleCountsNothing(w, e.c, e.entitled, e.month, month);
      }
    } else {
      OtherStepsKeepBudget(w, e, month);
    }
  }

  lemma StepKeepsTheBudgetItself(w: World, e: Event)
    ensures Next(w, e).budget == w.budget
  {
  }

  lemma {:induction false} RunKeepsBudget(w: World, events: seq<Event>, month: int)
    requires Sound(w) && RoundMeasured(w) && w.budget.Some? && Spending(w, month) <= w.budget.value
    ensures Spending(Run(w, events), month) <= w.budget.value
    decreases |events|
  {
    if events != [] {
      StepKeepsSound(w, events[0]);
      StepKeepsBudget(w, events[0], month);
      StepKeepsTheBudgetItself(w, events[0]);
      RunKeepsBudget(Next(w, events[0]), events[1..], month);
    }
  }

  /** Over the whole protocol, settlements and rolled-back rounds included, no month passes the budget: a settled
      exchange is counted once, by its attempt and not again by its audit. */
  lemma NoMonthPassesTheBudget(w: World, events: seq<Event>, month: int)
    requires Start(w) && w.budget.Some? && Spending(w, month) <= w.budget.value
    ensures Spending(Run(w, events), month) <= w.budget.value
  {
    RunKeepsBudget(w, events, month);
  }
}
