/** The ledger of provider exchanges (`usage.py`): numbered attempts per operation key, the monthly budget and
    the owner's summary. */
module UsageLedger {
  import opened Basics

  datatype Status = Running | Succeeded | Failed

  /** The codes whose exchange may have been paid although its tokens are unknown. */
  datatype ErrorCode = ProviderError | ProviderTimeout | OutputTooLarge | OtherError

  datatype Attempt = Attempt(
    id: nat,
    user: nat,
    key: string,
    inputHash: string,
    capability: string,
    number: nat,
    status: Status,
    reserved: nat,
    tokens: Option<(nat, nat)>,
    error: Option<ErrorCode>,
    month: int)

  /** A debited audit; it counts only while no attempt measures its operation. */
  datatype PaidAudit = PaidAudit(user: nat, key: string, points: nat, month: int)

  datatype Exchange = Exchange(key: string, user: nat, inputHash: string, capability: string, cost: nat)

  // ---------------------------------------------------------------- what counts

  predicate MaybePaid(a: Attempt) {
    a.status in {Running, Succeeded} || a.tokens.Some?
    || (a.error.Some? && a.error.value in {ProviderError, ProviderTimeout, OutputTooLarge})
  }

  function Reserved(attempts: seq<Attempt>, month: int): nat {
    if attempts == [] then 0
    else
      var a := attempts[|attempts| - 1];
      Reserved(attempts[..|attempts| - 1], month) + if a.month == month && MaybePaid(a) then a.reserved else 0
  }

  predicate Measured(attempts: seq<Attempt>, key: string) {
    exists i | 0 <= i < |attempts| :: attempts[i].key == key
  }

  function Legacy(audits: seq<PaidAudit>, attempts: seq<Attempt>, month: int): nat {
    if audits == [] then 0
    else
      var a := audits[|audits| - 1];
      Legacy(audits[..|audits| - 1], attempts, month)
      + if a.month == month && !Measured(attempts, a.key) then a.points else 0
  }

  /** The sum `begin` compares with the budget. */
  function Consumed(attempts: seq<Attempt>, audits: seq<PaidAudit>, month: int): nat {
    Reserved(attempts, month) + Legacy(audits, attempts, month)
  }

  // ---------------------------------------------------------------- begin and finish

  /** The index of the last attempt of a key, or -1. */
  function Latest(attempts: seq<Attempt>, key: string): (i: int)
    ensures -1 <= i < |attempts|
    ensures i >= 0 ==> attempts[i].key == key
    ensures forall k | i < k < |attempts| :: attempts[k].key != key
  {
    if attempts == [] then -1
    else if attempts[|attempts| - 1].key == key then |attempts| - 1
    else Latest(attempts[..|attempts| - 1], key)
  }

  datatype BeginReply = Begun(attempt: Attempt) | Conflict | InProgress | Blocked

  function Begin(attempts: seq<Attempt>, audits: seq<PaidAudit>, budget: Option<nat>, x: Exchange, month: int, id: nat)
    : (seq<Attempt>, BeginReply)
  {
    var i := Latest(attempts, x.key);
    if i >= 0 && (attempts[i].inputHash != x.inputHash || attempts[i].capability != x.capability
                  || attempts[i].user != x.user) then
      (attempts, Conflict)
    else if i >= 0 && (attempts[i].status != Failed || attempts[i].tokens.Some?) then
      (attempts, InProgress)
    else if budget.Some? && Consumed(attempts, audits, month) + x.cost > budget.value then
      (attempts, Blocked)
    else
      var a := Attempt(id, x.user, x.key, x.inputHash, x.capability, if i >= 0 then attempts[i].number + 1 else 1,
                       Running, x.cost, None, None, month);
      (attempts + [a], Begun(a))
  }

  /** What the provider reported, as `finish` writes it; tokens only when the usage is known. */
  datatype Report = Report(error: Option<ErrorCode>, tokens: Option<(nat, nat)>)

  function Finished(a: Attempt, r: Report): Attempt {
    if a.status != Running then a
    else a.(status := if r.error.Some? then Failed else Succeeded, tokens := r.tokens, error := r.error)
  }

  function Finish(attempts: seq<Attempt>, id: nat, r: Report): seq<Attempt> {
    seq(|attempts|, i requires 0 <= i < |attempts| =>
      if attempts[i].id == id then Finished(attempts[i], r) else attempts[i])
  }

  // ---------------------------------------------------------------- attempts of a key

  /** Every attempt but the last of its key failed unmeasured; numbers count up from one along each key. */
  ghost predicate Numbered(attempts: seq<Attempt>) {
    forall i | 0 <= i < |attempts| ::
      var before := Latest(attempts[..i], attempts[i].key);
      if before < 0 then attempts[i].number == 1
      else attempts[i].number == attempts[before].number + 1
           && attempts[before].status == Failed && attempts[before].tokens.None?
  }

  /** An attempt that a later one of its key follows failed without known usage. */
  lemma {:induction false} EarlierAttemptsFailed(attempts: seq<Attempt>, i: nat, j: nat)
    requires Numbered(attempts) && i < j < |attempts| && attempts[i].key == attempts[j].key
    ensures attempts[i].status == Failed && attempts[i].tokens.None?
    ensures attempts[i].number < attempts[j].number
    decreases j
  {
    var before := Latest(attempts[..j], attempts[j].key);
    assert attempts[..j][i].key == attempts[j].key;
    if i < before {
      assert attempts[..j][before] == attempts[before];
      EarlierAttemptsFailed(attempts, i, before);
    }
  }

  /** At most one exchange per key is running, and at most one was ever measured: the last. */
  lemma OneExchangePerKey(attempts: seq<Attempt>, i: nat, j: nat)
    requires Numbered(attempts) && i < |attempts| && j < |attempts| && attempts[i].key == attempts[j].key
    requires attempts[i].status != Failed || attempts[i].tokens.Some?
    requires attempts[j].status != Failed || attempts[j].tokens.Some?
    ensures i == j
  {
    if i < j {
      EarlierAttemptsFailed(attempts, i, j);
    } else if j < i {
      EarlierAttemptsFailed(attempts, j, i);
    }
  }

  lemma {:induction false} LatestPrefix(attempts: seq<Attempt>, key: string, more: seq<Attempt>)
    requires forall i | 0 <= i < |more| :: more[i].key != key
    ensures Latest(attempts + more, key) == Latest(attempts, key)
  {
    if more == [] {
      assert attempts + more == attempts;
    } else {
      var n := |more| - 1;
      assert (attempts + more)[..|attempts + more| - 1] == attempts + more[..n];
      LatestPrefix(attempts, key, more[..n]);
    }
  }

  lemma BeginKeepsNumbered(attempts: seq<Attempt>, audits: seq<PaidAudit>, budget: Option<nat>, x: Exchange,
                           month: int, id: nat)
    requires Numbered(attempts)
    ensures Numbered(Begin(attempts, audits, budget, x, month, id).0)
  {
    var after := Begin(attempts, audits, budget, x, month, id).0;
    forall i | 0 <= i < |after|
      ensures var before := Latest(after[..i], after[i].key);
        if before < 0 then after[i].number == 1
        else after[i].number == after[before].number + 1
             && after[before].status == Failed && after[before].tokens.None?
    {
      if i < |attempts| {
        assert after[..i] == attempts[..i];
      } else {
        assert after[..i] == attempts;
      }
    }
  }

  lemma {:induction false} FinishKeepsLatest(attempts: seq<Attempt>, id: nat, r: Report, key: string)
    ensures Latest(Finish(attempts, id, r), key) == Latest(attempts, key)
  {
    if attempts != [] {
      var n := |attempts| - 1;
      assert Finish(attempts, id, r)[..n] == Finish(attempts[..n], id, r);
      FinishKeepsLatest(attempts[..n], id, r, key);
    }
  }

  lemma FinishKeepsNumbered(attempts: seq<Attempt>, id: nat, r: Report)
    requires Numbered(attempts)
    ensures Numbered(Finish(attempts, id, r))
  {
    var after := Finish(attempts, id, r);
    forall i | 0 <= i < |after|
      ensures var before := Latest(after[..i], after[i].key);
        if before < 0 then after[i].number == 1
        else after[i].number == after[before].number + 1
             && after[before].status == Failed && after[before].tokens.None?
    {
      assert after[..i] == Finish(attempts[..i], id, r);
      FinishKeepsLatest(attempts[..i], id, r, attempts[i].key);
      var before := Latest(attempts[..i], attempts[i].key);
      assert before >= 0 ==> after[before] == attempts[before];
    }
  }

  // ---------------------------------------------------------------- the monthly budget

  lemma {:induction false} LegacyShrinks(audits: seq<PaidAudit>, attempts: seq<Attempt>, more: seq<Attempt>, month: int)
    ensures Legacy(audits, attempts + more, month) <= Legacy(audits, attempts, month)
  {
    if audits != [] {
      var n := |audits| - 1;
      LegacyShrinks(audits[..n], attempts, more, month);
      var key := audits[n].key;
      if Measured(attempts, key) {
        var i :| 0 <= i < |attempts| && attempts[i].key == key;
        assert (attempts + more)[i].key == key;
      }
    }
  }

  lemma OneMoreAttempt(attempts: seq<Attempt>, audits: seq<PaidAudit>, a: Attempt, m: int)
    ensures Consumed(attempts + [a], audits, m) <= Consumed(attempts, audits, m) + Reserved([a], m)
  {
    assert (attempts + [a])[..|attempts|] == attempts && [a][..0] == [];
    LegacyShrinks(audits, attempts, [a], m);
  }

  /** Beginning an exchange adds at most its own cost to its own month. */
  lemma BeginAddsItsCost(attempts: seq<Attempt>, audits: seq<PaidAudit>, budget: Option<nat>, x: Exchange,
                         month: int, id: nat, m: int)
    ensures var (after, reply) := Begin(attempts, audits, budget, x, month, id);
      Consumed(after, audits, m) <= Consumed(attempts, audits, m) + if reply.Begun? && m == month then x.cost else 0
  {
    var (after, reply) := Begin(attempts, audits, budget, x, month, id);
    if reply.Begun? {
      OneMoreAttempt(attempts, audits, reply.attempt, m);
      assert [reply.attempt][..0] == [];
    }
  }

  lemma {:induction false} FinishKeepsLegacy(audits: seq<PaidAudit>, attempts: seq<Attempt>, id: nat, r: Report, month: int)
    ensures Legacy(audits, Finish(attempts, id, r), month) == Legacy(audits, attempts, month)
  {
    if audits != [] {
      var n := |audits| - 1;
      FinishKeepsLegacy(audits[..n], attempts, id, r, month);
      var key := audits[n].key;
      if Measured(attempts, key) {
        var i :| 0 <= i < |attempts| && attempts[i].key == key;
        assert Finish(attempts, id, r)[i].key == key;
      }
    }
  }

  lemma {:induction false} FinishNeverReserves(attempts: seq<Attempt>, id: nat, r: Report, month: int)
    ensures Reserved(Finish(attempts, id, r), month) <= Reserved(attempts, month)
  {
    if attempts != [] {
      var n := |attempts| - 1;
      assert Finish(attempts, id, r)[..n] == Finish(attempts[..n], id, r);
      FinishNeverReserves(attempts[..n], id, r, month);
    }
  }

  /** Finishing never adds to any month: a running exchange already counted in full. */
  lemma FinishNeverAdds(attempts: seq<Attempt>, audits: seq<PaidAudit>, id: nat, r: Report, month: int)
    ensures Consumed(Finish(attempts, id, r), audits, month) <= Consumed(attempts, audits, month)
  {
    FinishNeverReserves(attempts, id, r, month);
    FinishKeepsLegacy(audits, attempts, id, r, month);
  }

  datatype LedgerEvent = BeginEvent(x: Exchange, month: int, id: nat) | FinishEvent(id: nat, report: Report)

  function After(attempts: seq<Attempt>, audits: seq<PaidAudit>, budget: Option<nat>, e: LedgerEvent): seq<Attempt> {
    match e
    case BeginEvent(x, month, id) => Begin(attempts, audits, budget, x, month, id).0
    case FinishEvent(id, report) => Finish(attempts, id, report)
  }

  function AfterAll(attempts: seq<Attempt>, audits: seq<PaidAudit>, budget: Option<nat>, events: seq<LedgerEvent>)
    : seq<Attempt>
    decreases |events|
  {
    if events == [] then attempts
    else AfterAll(After(attempts, audits, budget, events[0]), audits, budget, events[1..])
  }

  /** Under one budget no month ever counts more than it, in whatever order exchanges begin and finish, and the
      attempts of every key stay numbered with all but the last failed and unmeasured. */
  lemma {:induction false} BudgetHolds(attempts: seq<Attempt>, audits: seq<PaidAudit>, budget: nat,
                                       events: seq<LedgerEvent>, month: int)
    requires Numbered(attempts) && Consumed(attempts, audits, month) <= budget
    ensures Numbered(AfterAll(attempts, audits, Some(budget), events))
    ensures Consumed(AfterAll(attempts, audits, Some(budget), events), audits, month) <= budget
    decreases |events|
  {
    if events != [] {
      match events[0] {
        case BeginEvent(x, m, id) =>
          BeginKeepsNumbered(attempts, audits, Some(budget), x, m, id);
          BeginAddsItsCost(attempts, audits, Some(budget), x, m, id, month);
        case FinishEvent(id, report) =>
          FinishKeepsNumbered(attempts, id, report);
          FinishNeverAdds(attempts, audits, id, report, month);
      }
      BudgetHolds(After(attempts, audits, Some(budget), events[0]), audits, budget, events[1..], month);
    }
  }
}
