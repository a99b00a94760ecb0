/** A round that rolls back after it settled exchanges: their keys stay spent and unpaid for good. */
module MeteringRollback {
  import opened Basics
  import opened Metering
  import opened MeteringSafety
  import opened MeteringResults
  import opened HoldHazard
  import opened HoldKept
  import Usage = UsageLedger

  predicate Audited(audits: seq<Audit>, key: string) {
    exists i | 0 <= i < |audits| :: audits[i].key == key
  }

  /** What the open round settled succeeded, is audited in its books and not in those it would roll back to. */
  ghost predicate RoundSettled(w: World) {
    && (w.saved.None? ==> w.inFlight == {})
    && forall key | key in w.inFlight ::
         Spent(w.attempts, key) && Audited(w.books.audits, key) && !Audited(w.saved.value.audits, key)
  }

  lemma AuditedGrows(before: seq<Audit>, after: seq<Audit>, key: string)
    requires before <= after && Audited(before, key)
    ensures Audited(after, key)
  {
    var i :| 0 <= i < |before| && before[i].key == key;
    assert after[i] == before[i];
  }

  /** What a settlement adds to the open round. */
  lemma SettleExtendsTheRound(w: World, c: nat, entitled: bool, month: int)
    requires Sound(w) && c < |w.calls| && w.calls[c].pc.Settling?
    ensures var v, key := SettleStep(w, c, entitled, month), w.calls[c].request.key;
      && v.saved == w.saved && v.attempts == w.attempts && w.books.audits <= v.books.audits
      && (v.inFlight == w.inFlight
          || (v.inFlight == w.inFlight + {key} && w.saved.Some?
              && |v.books.audits| == |w.books.audits| + 1 && v.books.audits[|w.books.audits|].key == key))
  {
    SettleFindsNoAudit(w, c);
  }

  lemma SettleKeepsRound(w: World, c: nat, entitled: bool, month: int)
    requires Sound(w) && RoundSettled(w) && c < |w.calls| && w.calls[c].pc.Settling?
    ensures RoundSettled(SettleStep(w, c, entitled, month))
  {
    var v, key := SettleStep(w, c, entitled, month), w.calls[c].request.key;
    SettleExtendsTheRound(w, c, entitled, month);
    SettleFindsNoAudit(w, c);
    forall k | k in v.inFlight
      ensures Spent(v.attempts, k) && Audited(v.books.audits, k) && !Audited(v.saved.value.audits, k)
    {
      if k in w.inFlight {
        AuditedGrows(w.books.audits, v.books.audits, k);
      } else {
        assert k == key && v.books.audits[|w.books.audits|].key == key;
        assert PaysItsOwn(w.attempts, w.calls[c]);
        assert forall i | 0 <= i < |w.saved.value.audits| :: w.saved.value.audits[i] == w.books.audits[i];
      }
    }
  }

  lemma OtherStepsKeepRound(w: World, e: Event)
    requires !e.Settle?
    ensures var v := Next(w, e);
      v.inFlight == {} || (v.inFlight == w.inFlight && v.saved == w.saved && v.books.audits == w.books.audits)
      || (e.RoundStart? && v.inFlight == w.inFlight && w.saved.None? && v.saved.Some?)
    ensures Next(w, e).saved.None? ==> w.saved.None? || Next(w, e).inFlight == {}
  {
  }

  lemma StepKeepsRound(w: World, e: Event)
    requires Sound(w) && RoundSettled(w)
    ensures RoundSettled(Next(w, e))
  {
    if e.Settle? {
      if e.c < |w.calls| && w.calls[e.c].pc.Settling? {
        SettleKeepsRound(w, e.c, e.entitled, e.month);
      }
    } else {
      OtherStepsKeepRound(w, e);
      forall k | k in Next(w, e).inFlight ensures Spent(Next(w, e).attempts, k) {
        StepKeepsSpent(w, e, k);
      }
    }
  }

  lemma {:induction false} RunKeepsRound(w: World, events: seq<Event>)
    requires Sound(w) && RoundSettled(w)
    ensures Sound(Run(w, events)) && RoundSettled(Run(w, events))
    decreases |events|
  {
    if events != [] {
      StepKeepsSound(w, events[0]);
      StepKeepsRound(w, events[0]);
      RunKeepsRound(Next(w, events[0]), events[1..]);
    }
  }

  lemma RollbackLeavesUnpaid(w: World, key: string)
    requires Sound(w) && RoundSettled(w) && key in w.inFlight
    ensures SpentUnpaid(Next(w, RoundRollback), key)
  {
    var i :| 0 <= i < |w.books.audits| && w.books.audits[i].key == key;
    assert Closed(w.attempts, w.calls, w.books.audits[i].key);
  }

  /** Over every run: whatever the open round settled is spent and unpaid once it rolls back, and nothing that follows
      asks, audits or debits under those keys again. */
  lemma RolledBackKeysStayUnpaid(w: World, past: seq<Event>, future: seq<Event>, key: string)
    requires Sound(w) && RoundSettled(w) && key in Run(w, past).inFlight
    ensures SpentUnpaid(Run(Next(Run(w, past), RoundRollback), future), key)
  {
    RunKeepsRound(w, past);
    RollbackLeavesUnpaid(Run(w, past), key);
    StepKeepsSound(Run(w, past), RoundRollback);
    SpentKeyIsNeverPaidAgain(Next(Run(w, past), RoundRollback), future, key);
  }

  // ---------------------------------------------------------------- one such round

  const REQUEST := Asks("k", 1).(inRound := true)

  /** From ten credits: a round opens and its one call is admitted and asks. */
  function RoundOpens(): seq<Event> {
    [RoundStart, Arrive(REQUEST), Open(0, true, Some(ROUTE)), Admit(0), Begin(0, 0)]
  }

  /** It is answered and settles. */
  function RoundPays(): seq<Event> {
    [Hear(0, Delivered(ANSWER)), Report(0), Settle(0, true, 0)]
  }

  function RoundAsks(): World {
    TenCredits().(saved := Some(TenCredits().books), attempts := [Asked("k", 0)], holds := [Hold("k", Active, 10)],
                  calls := [Call(REQUEST, Asking(ROUTE, 0))])
  }

  lemma RunUnfolds(w: World, e: Event, events: seq<Event>)
    ensures Run(w, [e] + events) == Run(Next(w, e), events)
  {
    assert ([e] + events)[1..] == events;
  }

  lemma RunTwo(w: World, a: Event, b: Event)
    ensures Run(w, [a, b]) == Next(Next(w, a), b)
  {
    assert [a, b][1..] == [b] && [b][1..] == [];
    assert Run(w, [a, b]) == Run(Next(w, a), [b]);
    assert Run(Next(w, a), [b]) == Run(Next(Next(w, a), b), []);
  }

  lemma RunFour(w: World, a: Event, b: Event, c: Event, d: Event)
    ensures Run(w, [a, b, c, d]) == Next(Next(Next(Next(w, a), b), c), d)
  {
    assert [a, b, c, d][1..] == [b, c, d] && [b, c, d][1..] == [c, d] && [c, d][1..] == [d];
    assert Run(w, [a, b, c, d]) == Run(Next(w, a), [b, c, d]);
    assert Run(Next(w, a), [b, c, d]) == Run(Next(Next(w, a), b), [c, d]);
    RunTwo(Next(Next(w, a), b), c, d);
  }

  lemma TheRoundAsks()
    ensures Run(TenCredits(), RoundOpens()) == RoundAsks()
  {
    var w0, e := TenCredits(), RoundOpens();
    var w1 := Next(w0, RoundStart);
    assert w1 == w0.(saved := Some(w0.books));
    var w2 := Next(w1, Arrive(REQUEST));
    assert w2 == w1.(calls := [Call(REQUEST, Arrived)]);
    var w3 := Next(w2, Open(0, true, Some(ROUTE)));
    assert w3 == w1.(calls := [Call(REQUEST, Admitting(ROUTE))]);
    var w4 := Next(w3, Admit(0));
    assert w4 == w1.(holds := [Hold("k", Active, 10)], calls := [Call(REQUEST, Beginning(ROUTE))]);
    assert Usage.Latest(w4.attempts, "k") == -1 && w4.attempts + [Asked("k", 0)] == [Asked("k", 0)];
    assert BeginReply(w4, 0, 0) == ([Asked("k", 0)], Usage.Begun(Asked("k", 0)));
    assert Next(w4, Begin(0, 0)) == RoundAsks();
    assert e == [e[0]] + [e[1], e[2], e[3], e[4]];
    RunUnfolds(w0, e[0], [e[1], e[2], e[3], e[4]]);
    RunFour(w1, e[1], e[2], e[3], e[4]);
  }

  lemma TheRoundSettles()
    ensures Run(RoundAsks(), RoundPays()).inFlight == {"k"}
  {
    var w5, e := RoundAsks(), RoundPays();
    var w6 := Next(w5, e[0]);
    assert w6.calls == [Call(REQUEST, Reporting(ROUTE, 0, Delivered(ANSWER)))];
    var w7 := Next(w6, e[1]);
    assert w7.calls == [Call(REQUEST, Settling(ROUTE, 0, ANSWER))] && w7.books == w5.books && w7.saved == w5.saved;
    assert FindAudit(w7.books.audits, "k").None?;
    assert Next(w7, e[2]).inFlight == {"k"};
    assert e == [e[0]] + [e[1], e[2]];
    RunUnfolds(w5, e[0], [e[1], e[2]]);
    RunTwo(w6, e[1], e[2]);
  }

  /** So a round reaches it: one call settled and rolled back, never to be paid again. */
  lemma ARoundLeavesAKeyUnpaid(future: seq<Event>)
    ensures SpentUnpaid(Run(Next(Run(TenCredits(), RoundOpens() + RoundPays()), RoundRollback), future), "k")
  {
    TheRoundAsks();
    TheRoundSettles();
    RunAppend(TenCredits(), RoundOpens(), RoundPays());
    TenCreditsAreKept();
    RolledBackKeysStayUnpaid(TenCredits(), RoundOpens() + RoundPays(), future, "k");
  }
}
