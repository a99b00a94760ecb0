/** Why each rule of `HoldKept.Undisturbed` is there: from ten credits, a run that breaks one rule alone brings a call
    whose exchange succeeded to a settlement that is refused. */
module HoldHazard {
  import opened Basics
  import opened Metering
  import opened MeteringSafety
  import opened HoldCover
  import opened HoldKept
  import Usage = UsageLedger

  const ROUTE := Route("Copiloto", false, 10)
  const ANSWER := Answer("ok", 1, 1, 1, true)

  function Asks(key: string, user: nat): Request {
    Request(key, user, "agent", "", "hash", false)
  }

  /** Ten credits, no calls, no holds. */
  function TenCredits(): World {
    World(Books(10, [Grant(10)], []), None, {}, [], [], None, [], 0)
  }

  lemma TenCreditsAreKept()
    ensures Sound(TenCredits()) && Covered(TenCredits()) && Kept(TenCredits())
  {
    var w := TenCredits();
    assert w.books.ledger[..0] == [];
    assert Total(w.books.ledger) == 10 by { assert Total([]) == 0; }
  }

  // ---------------------------------------------------------------- every rule but one

  /** The rules of `Undisturbed`: on calls that arrive, on sweeps, on releases by hand, on a settled hold taken again,
      on credits that expire. */
  datatype Rule = Arrivals | Sweeps | Releases | Reuses | Expiries

  ghost predicate UndisturbedBut(w: World, e: Event, rule: Rule) {
    Undisturbed(w, e)
    || match rule
       case Arrivals => e.Arrive?
       case Sweeps => e.Sweep?
       case Releases => e.ReleaseHeld?
       case Reuses => e.Admit?
       case Expiries => e.Expire?
  }

  ghost predicate AllUndisturbedBut(w: World, events: seq<Event>, rule: Rule)
    decreases |events|
  {
    events == []
    || (UndisturbedBut(w, events[0], rule) && AllUndisturbedBut(Next(w, events[0]), events[1..], rule))
  }

  ghost predicate Reached(rule: Rule, past: seq<Event>, w: World) {
    AllUndisturbedBut(TenCredits(), past, rule) && Run(TenCredits(), past) == w
  }

  lemma {:induction false} RunGoesOn(rule: Rule, w: World, past: seq<Event>, e: Event)
    requires AllUndisturbedBut(w, past, rule) && UndisturbedBut(Run(w, past), e, rule)
    ensures AllUndisturbedBut(w, past + [e], rule) && Run(w, past + [e]) == Next(Run(w, past), e)
    decreases |past|
  {
    if past == [] {
      assert (past + [e])[0] == e && (past + [e])[1..] == [];
    } else {
      assert (past + [e])[1..] == past[1..] + [e];
      RunGoesOn(rule, Next(w, past[0]), past[1..], e);
    }
  }

  lemma Step(rule: Rule, past: seq<Event>, w: World, e: Event) returns (events: seq<Event>)
    requires Reached(rule, past, w) && UndisturbedBut(w, e, rule)
    ensures Reached(rule, events, Next(w, e))
  {
    RunGoesOn(rule, TenCredits(), past, e);
    events := past + [e];
  }

  // ---------------------------------------------------------------- what a call does

  function Asked(key: string, id: nat): Usage.Attempt {
    Usage.Attempt(id, 1, key, "hash", "agent", 1, Usage.Running, 10, None, None, 0)
  }

  /** A call under a new key asks the provider, on a hold of ten. */
  function NowAsking(w: World, key: string): World {
    var n := |w.attempts|;
    w.(attempts := w.attempts + [Asked(key, n)], holds := w.holds + [Hold(key, Active, 10)],
       calls := w.calls + [Call(Asks(key, 1), Asking(ROUTE, n))])
  }

  /** Nothing is known of the key, and ten credits are free. */
  ghost predicate Unknown(w: World, key: string) {
    && w.saved.None? && w.inFlight == {} && w.budget.None?
    && w.books.audits == [] && w.books.balance == 10 && HeldBeside(w.holds, key) == 0
    && (forall i | 0 <= i < |w.holds| :: w.holds[i].key != key)
    && (forall i | 0 <= i < |w.attempts| :: w.attempts[i].key != key)
    && (forall c | 0 <= c < |w.calls| :: w.calls[c].request.key != key)
  }

  lemma ArrivesAndOpens(rule: Rule, past: seq<Event>, w: World, r: Request) returns (events: seq<Event>)
    requires Reached(rule, past, w) && UndisturbedBut(w, Arrive(r), rule)
    requires w.saved.None? && w.books.audits == [] && w.books.balance == 10 && !r.inRound
    ensures Reached(rule, events, w.(calls := w.calls + [Call(r, Admitting(ROUTE))]))
  {
    var n, w1 := |w.calls|, Next(w, Arrive(r));
    events := Step(rule, past, w, Arrive(r));
    events := Step(rule, events, w1, Open(n, true, Some(ROUTE)));
    assert w1.calls[n := Call(r, Admitting(ROUTE))] == w.calls + [Call(r, Admitting(ROUTE))];
  }

  lemma NewKeyBegins(w: World, key: string)
    requires Unknown(w, key)
    ensures var u := w.(holds := w.holds + [Hold(key, Active, 10)],
                        calls := w.calls + [Call(Asks(key, 1), Beginning(ROUTE))]);
      Next(u, Begin(|w.calls|, 0)) == NowAsking(w, key)
  {
    var n := |w.calls|;
    var u := w.(holds := w.holds + [Hold(key, Active, 10)], calls := w.calls + [Call(Asks(key, 1), Beginning(ROUTE))]);
    assert Usage.Latest(u.attempts, key) == -1;
    assert u.calls[n := Call(Asks(key, 1), Asking(ROUTE, |w.attempts|))]
        == w.calls + [Call(Asks(key, 1), Asking(ROUTE, |w.attempts|))];
  }

  lemma NewKeyIsAdmitted(w: World, key: string)
    requires Unknown(w, key)
    ensures var u := w.(calls := w.calls + [Call(Asks(key, 1), Admitting(ROUTE))]);
      Next(u, Admit(|w.calls|)) == w.(holds := w.holds + [Hold(key, Active, 10)],
                                      calls := w.calls + [Call(Asks(key, 1), Beginning(ROUTE))])
  {
    var n, u := |w.calls|, w.(calls := w.calls + [Call(Asks(key, 1), Admitting(ROUTE))]);
    assert u.calls[n := Call(Asks(key, 1), Beginning(ROUTE))] == w.calls + [Call(Asks(key, 1), Beginning(ROUTE))];
  }

  lemma NewKeyAsks(rule: Rule, past: seq<Event>, w: World, key: string) returns (events: seq<Event>)
    requires Reached(rule, past, w) && Unknown(w, key)
    ensures Reached(rule, events, NowAsking(w, key))
  {
    var n := |w.calls|;
    events := ArrivesAndOpens(rule, past, w, Asks(key, 1));
    var u := w.(calls := w.calls + [Call(Asks(key, 1), Admitting(ROUTE))]);
    events := Step(rule, events, u, Admit(n));
    NewKeyIsAdmitted(w, key);
    events := Step(rule, events, Next(u, Admit(n)), Begin(n, 0));
    NewKeyBegins(w, key);
  }

  /** The provider answered call c and the exchange is written down. */
  function Heard(w: World, c: nat): World
    requires c < |w.calls| && w.calls[c].pc.Asking?
  {
    var pc := w.calls[c].pc;
    Move(w, c, Settling(pc.route, pc.attempt, ANSWER)).(
      attempts := Usage.Finish(w.attempts, pc.attempt, ReportOf(Delivered(ANSWER))))
  }

  lemma Hears(rule: Rule, past: seq<Event>, w: World, c: nat) returns (events: seq<Event>)
    requires Reached(rule, past, w) && c < |w.calls| && w.calls[c].pc.Asking?
    ensures Reached(rule, events, Heard(w, c))
  {
    var w1 := Next(w, Hear(c, Delivered(ANSWER)));
    events := Step(rule, past, w, Hear(c, Delivered(ANSWER)));
    events := Step(rule, events, w1, Report(c));
    assert w1.calls[c := w1.calls[c].(pc := Heard(w, c).calls[c].pc)] == Heard(w, c).calls;
  }

  // ---------------------------------------------------------------- a call whose credits another may take

  /** Call c was answered by the provider and comes to settle. */
  predicate Waits(w: World, c: nat) {
    && c < |w.calls| && w.saved.None? && w.books.audits == []
    && w.calls[c].request == Asks("k", 1) && w.calls[c].pc.Settling? && w.calls[c].pc.route == ROUTE
    && var i := w.calls[c].pc.attempt; i < |w.attempts| && w.attempts[i].id == i && w.attempts[i].status.Succeeded?
  }

  /** It waits, and nothing holds the ten credits for it. */
  ghost predicate Exposed(w: World, c: nat) {
    Waits(w, c) && Unknown(w, "m")
  }

  /** Call c of a world came to settle with its exchange paid at the provider, and is refused. */
  ghost predicate Lost(w: World, c: nat, month: int) {
    && c < |w.calls| && w.calls[c].pc.Settling? && HasTheLock(w, c)
    && w.calls[c].pc.attempt < |w.attempts| && w.attempts[w.calls[c].pc.attempt].status.Succeeded?
    && SettleStep(w, c, true, month).calls[c].pc == Done(Refused(NoCredits))
  }

  /** A call of another key is admitted on the same credits and pays first. */
  lemma ExposedIsLost(rule: Rule, past: seq<Event>, w: World, c: nat, month: int) returns (events: seq<Event>)
    requires Reached(rule, past, w) && Exposed(w, c)
    ensures Lost(Run(TenCredits(), events), c, month) && AllUndisturbedBut(TenCredits(), events, rule)
  {
    var n := |w.calls|;
    events := NewKeyAsks(rule, past, w, "m");
    events := Hears(rule, events, NowAsking(w, "m"), n);
    var u := Heard(NowAsking(w, "m"), n);
    RivalWaits(w, c);
    events := Step(rule, events, u, Settle(n, true, 0));
    RivalPays(u, c, n, month);
  }

  lemma RivalWaits(w: World, c: nat)
    requires Exposed(w, c)
    ensures var u, n := Heard(NowAsking(w, "m"), |w.calls|), |w.calls|;
      && u.calls[c] == w.calls[c] && u.calls[n].request == Asks("m", 1) && u.calls[n].pc.Settling?
      && u.calls[n].pc.route == ROUTE && u.books == w.books && u.saved.None?
      && |u.attempts| == |w.attempts| + 1
      && u.attempts[w.calls[c].pc.attempt] == w.attempts[w.calls[c].pc.attempt]
  {
  }

  lemma RivalSettles(u: World, n: nat)
    requires n < |u.calls| && u.books.balance == 10 && u.books.audits == [] && u.saved.None?
    requires u.calls[n].request == Asks("m", 1) && u.calls[n].pc.Settling? && u.calls[n].pc.route == ROUTE
    ensures var v := SettleStep(u, n, true, 0);
      && v.books.balance == 0 && |v.books.audits| == 1 && v.books.audits[0].key == "m" && v.saved.None?
      && v.attempts == u.attempts && |v.calls| == |u.calls|
      && forall c | 0 <= c < |u.calls| && c != n :: v.calls[c] == u.calls[c]
  {
    assert FindAudit([], "m").None?;
  }

  lemma NoCreditsLeft(v: World, c: nat, month: int)
    requires c < |v.calls| && v.saved.None? && v.books.balance == 0
    requires forall i | 0 <= i < |v.books.audits| :: v.books.audits[i].key != "k"
    requires v.calls[c].request == Asks("k", 1) && v.calls[c].pc.Settling? && v.calls[c].pc.route == ROUTE
    ensures SettleStep(v, c, true, month).calls[c].pc == Done(Refused(NoCredits))
  {
  }

  lemma RivalPays(u: World, c: nat, n: nat, month: int)
    requires c < n < |u.calls| && u.books.balance == 10 && u.books.audits == [] && u.saved.None?
    requires u.calls[n].request == Asks("m", 1) && u.calls[n].pc.Settling? && u.calls[n].pc.route == ROUTE
    requires u.calls[c].request == Asks("k", 1) && u.calls[c].pc.Settling? && u.calls[c].pc.route == ROUTE
    requires u.calls[c].pc.attempt < |u.attempts| && u.attempts[u.calls[c].pc.attempt].status.Succeeded?
    ensures Lost(SettleStep(u, n, true, 0), c, month)
  {
    RivalSettles(u, n);
    NoCreditsLeft(SettleStep(u, n, true, 0), c, month);
  }

  // ---------------------------------------------------------------- the five runs

  /** The first call was answered and waits; its credits are held. */
  function FirstWaits(): World {
    Heard(NowAsking(TenCredits(), "k"), 0)
  }

  lemma FirstComes(rule: Rule) returns (events: seq<Event>)
    ensures Reached(rule, events, FirstWaits())
    ensures Waits(FirstWaits(), 0) && |FirstWaits().calls| == 1 && FirstWaits().holds == [Hold("k", Active, 10)]
  {
    assert Reached(rule, [], TenCredits());
    events := NewKeyAsks(rule, [], TenCredits(), "k");
    events := Hears(rule, events, NowAsking(TenCredits(), "k"), 0);
  }

  /** A sweep, or a release by hand, gives its hold up. */
  lemma TheHoldIsGivenUp(rule: Rule, e: Event, month: int) returns (events: seq<Event>)
    requires (rule.Sweeps? && e == Sweep("k")) || (rule.Releases? && e == ReleaseHeld("k"))
    ensures Lost(Run(TenCredits(), events), 0, month) && AllUndisturbedBut(TenCredits(), events, rule)
  {
    events := FirstComes(rule);
    events := Step(rule, events, FirstWaits(), e);
    GivenUpIsExposed(e);
    events := ExposedIsLost(rule, events, Next(FirstWaits(), e), 0, month);
  }

  lemma GivenUpIsExposed(e: Event)
    requires e == Sweep("k") || e == ReleaseHeld("k")
    requires Waits(FirstWaits(), 0) && FirstWaits().holds == [Hold("k", Active, 10)]
    ensures Exposed(Next(FirstWaits(), e), 0)
  {
    GivesUp(e);
    assert HeldBeside([Hold("k", Released, 10)], "m") == 0;
  }

  lemma GivesUp(e: Event)
    requires e == Sweep("k") || e == ReleaseHeld("k")
    requires FirstWaits().holds == [Hold("k", Active, 10)]
    ensures Next(FirstWaits(), e) == FirstWaits().(holds := [Hold("k", Released, 10)])
  {
    var w := FirstWaits();
    assert !IsRunning(w.attempts, "k");
    assert FindAudit([], "k").None?;
    assert SetActive([Hold("k", Active, 10)], "k", Released) == [Hold("k", Released, 10)];
  }

  /** Credits expire before it settles. */
  lemma TheCreditsExpire(month: int) returns (events: seq<Event>)
    ensures Lost(Run(TenCredits(), events), 0, month) && AllUndisturbedBut(TenCredits(), events, Expiries)
  {
    events := FirstComes(Expiries);
    events := Step(Expiries, events, FirstWaits(), Expire(10));
    assert FindAudit([], "k").None?;
  }

  /** Another user's call under the same key is refused, and releases the hold it had found. */
  lemma ASecondCallCanTakeTheHold(month: int) returns (events: seq<Event>)
    ensures Lost(Run(TenCredits(), events), 0, month) && AllUndisturbedBut(TenCredits(), events, Arrivals)
  {
    var w, first := FirstWaits(), FirstWaits().calls[0];
    events := FirstComes(Arrivals);
    events := ArrivesAndOpens(Arrivals, events, w, Asks("k", 2));
    var w1 := w.(calls := [first, Call(Asks("k", 2), Admitting(ROUTE))]);
    events := Step(Arrivals, events, w1, Admit(1));
    var w2 := w.(calls := [first, Call(Asks("k", 2), Beginning(ROUTE))]);
    events := Step(Arrivals, events, w2, Begin(1, 0));
    events := Step(Arrivals, events, SecondRefused(), Release(1));
    SecondIsExposed();
    events := ExposedIsLost(Arrivals, events, Next(SecondRefused(), Release(1)), 0, month);
  }

  /** Another user's call that begin refused as a conflict. */
  function SecondRefused(): World {
    FirstWaits().(calls := [FirstWaits().calls[0], Call(Asks("k", 2), Releasing(false, Refused(Conflict)))])
  }

  lemma SecondIsExposed()
    requires Waits(FirstWaits(), 0) && FirstWaits().holds == [Hold("k", Active, 10)]
    ensures Exposed(Next(SecondRefused(), Release(1)), 0)
  {
    var u := Next(SecondRefused(), Release(1));
    assert u == FirstWaits().(holds := [Hold("k", Released, 10)],
                              calls := [FirstWaits().calls[0], Call(Asks("k", 2), Done(Refused(Conflict)))]);
    assert HeldBeside([Hold("k", Released, 10)], "m") == 0;
  }

  /** The provider timed out; the exchange was reconciled as paid, so its hold is settled; the same call sent again
      takes the settled hold, which retains nothing. */
  function TimedOut(): World {
    var w := NowAsking(TenCredits(), "k");
    w.(attempts := Usage.Finish(w.attempts, 0, Usage.Report(Some(Usage.ProviderTimeout), None)),
       holds := [Hold("k", Settled, 10)],
       calls := [Call(Asks("k", 1), Done(Refused(ProviderFailed(Usage.ProviderTimeout))))])
  }

  const TIMEOUT := Failed(Usage.ProviderTimeout, None)

  /** The timeout is written down; the hold will be doubtful. */
  function Faulted(): World {
    TimedOut().(holds := [Hold("k", Active, 10)],
                calls := [Call(Asks("k", 1), Releasing(true, TimedOut().calls[0].pc.outcome))])
  }

  lemma TimeoutIsReported()
    ensures var w := NowAsking(TenCredits(), "k").(calls := [Call(Asks("k", 1), Reporting(ROUTE, 0, TIMEOUT))]);
      Next(w, Report(0)) == Faulted()
  {
    assert TenCredits().holds + [Hold("k", Active, 10)] == [Hold("k", Active, 10)];
  }

  lemma ReportsTimeout(rule: Rule) returns (events: seq<Event>)
    ensures Reached(rule, events, Faulted())
  {
    var w := NowAsking(TenCredits(), "k");
    assert Reached(rule, [], TenCredits());
    events := NewKeyAsks(rule, [], TenCredits(), "k");
    events := Step(rule, events, w, Hear(0, TIMEOUT));
    events := Step(rule, events, Next(w, Hear(0, TIMEOUT)), Report(0));
    assert Next(w, Hear(0, TIMEOUT)) == w.(calls := [Call(Asks("k", 1), Reporting(ROUTE, 0, TIMEOUT))]);
    TimeoutIsReported();
  }

  lemma TimesOut(rule: Rule) returns (events: seq<Event>)
    ensures Reached(rule, events, TimedOut())
  {
    events := ReportsTimeout(rule);
    events := Step(rule, events, Faulted(), Release(0));
    var w := TimedOut().(holds := [Hold("k", Doubtful, 10)]);
    assert Next(Faulted(), Release(0)) == w;
    events := Step(rule, events, w, Conciliate("k", true));
    assert Next(w, Conciliate("k", true)) == TimedOut();
  }

  function Again(): World {
    var w := TimedOut();
    w.(attempts := w.attempts + [Asked("k", 1).(number := 2)],
       calls := w.calls + [Call(Asks("k", 1), Asking(ROUTE, 1))])
  }

  lemma AsksAgain(past: seq<Event>) returns (events: seq<Event>)
    requires Reached(Reuses, past, TimedOut())
    ensures Reached(Reuses, events, Again())
  {
    var w, over := TimedOut(), TimedOut().calls[0];
    events := ArrivesAndOpens(Reuses, past, w, Asks("k", 1));
    var w1 := w.(calls := [over, Call(Asks("k", 1), Admitting(ROUTE))]);
    events := Step(Reuses, events, w1, Admit(1));
    var w2 := w.(calls := [over, Call(Asks("k", 1), Beginning(ROUTE))]);
    assert Next(w1, Admit(1)) == w2;
    events := Step(Reuses, events, w2, Begin(1, 0));
    assert Next(w2, Begin(1, 0)) == Again();
  }

  lemma TheHoldIsReused(month: int) returns (events: seq<Event>)
    ensures Lost(Run(TenCredits(), events), 1, month) && AllUndisturbedBut(TenCredits(), events, Reuses)
  {
    events := TimesOut(Reuses);
    events := AsksAgain(events);
    events := Hears(Reuses, events, Again(), 1);
    assert HeldBeside([Hold("k", Settled, 10)], "m") == 0;
    events := ExposedIsLost(Reuses, events, Heard(Again(), 1), 1, month);
  }

  /** For each rule of `HoldKept.Undisturbed`, a run that keeps all the others, from a world where its theorem applies,
      brings an entitled call with a succeeded exchange to a settlement that is refused for want of credits. */
  lemma EachRuleIsNeeded(rule: Rule, month: int) returns (events: seq<Event>, c: nat)
    ensures Sound(TenCredits()) && Covered(TenCredits()) && Kept(TenCredits())
    ensures AllUndisturbedBut(TenCredits(), events, rule) && Lost(Run(TenCredits(), events), c, month)
  {
    TenCreditsAreKept();
    c := 0;
    match rule
    case Arrivals => events := ASecondCallCanTakeTheHold(month);
    case Sweeps => events := TheHoldIsGivenUp(Sweeps, Sweep("k"), month);
    case Releases => events := TheHoldIsGivenUp(Releases, ReleaseHeld("k"), month);
    case Expiries => events := TheCreditsExpire(month);
    case Reuses => events := TheHoldIsReused(month); c := 1;
  }
}
