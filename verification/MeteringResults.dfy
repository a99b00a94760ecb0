/** The metering guarantees: one payment per key, replayed answers, spent keys, the budget and the holds. */
module MeteringResults {
  import opened Basics
  import opened Metering
  import opened MeteringSafety
  import Usage = UsageLedger

  /** No call is under way and the books are in order; exchanges of the past, even unfinished ones, may stand. */
  ghost predicate Start(w: World) {
    w.calls == [] && w.saved.None? && w.inFlight == {} && AttemptsInOrder(w.attempts) && BooksBalance(w.books, w.nextAudit)
  }

  // ---------------------------------------------------------------- one payment per key

  function Granted(ledger: seq<Entry>): nat {
    if ledger == [] then 0
    else Granted(ledger[..|ledger| - 1]) + if ledger[|ledger| - 1].Grant? then ledger[|ledger| - 1].amount else 0
  }

  function Expired(ledger: seq<Entry>): nat {
    if ledger == [] then 0
    else Expired(ledger[..|ledger| - 1]) + if ledger[|ledger| - 1].Expiry? then ledger[|ledger| - 1].amount else 0
  }

  function Debited(ledger: seq<Entry>): nat {
    if ledger == [] then 0
    else Debited(ledger[..|ledger| - 1]) + if ledger[|ledger| - 1].Debit? then ledger[|ledger| - 1].amount else 0
  }

  lemma {:induction false} TotalByKind(ledger: seq<Entry>)
    ensures Total(ledger) == Granted(ledger) - Expired(ledger) - Debited(ledger)
  {
    if ledger != [] {
      TotalByKind(ledger[..|ledger| - 1]);
    }
  }

  /** Whatever the interleaving: a key never has two running exchanges, two audits or two debits. */
  lemma EachKeyIsPaidOnce(w: World, events: seq<Event>)
    requires Start(w)
    ensures var v := Run(w, events);
      && (forall i, j | 0 <= i < j < |v.attempts| && v.attempts[i].status.Running? && v.attempts[j].status.Running? ::
            v.attempts[i].key != v.attempts[j].key)
      && (forall i, j | 0 <= i < j < |v.books.audits| :: v.books.audits[i].key != v.books.audits[j].key)
      && (forall i | 0 <= i < |v.books.audits| ::
            Debits(v.books.ledger, v.books.audits[i].id) == [v.books.audits[i].points])
      && (forall k | 0 <= k < |v.books.ledger| && v.books.ledger[k].Debit? ::
            HasAudit(v.books.audits, v.books.ledger[k].audit))
  {
    RunKeepsSound(w, events);
    var v := Run(w, events);
    forall i, j | 0 <= i < j < |v.attempts| && v.attempts[i].status.Running? && v.attempts[j].status.Running?
      ensures v.attempts[i].key != v.attempts[j].key
    {
      if v.attempts[i].key == v.attempts[j].key {
        Usage.OneExchangePerKey(v.attempts, i, j);
      }
    }
  }

  /** Credits are conserved and never overspent: what was granted is the balance, the debits and the expiries. */
  lemma CreditsAreConserved(w: World, events: seq<Event>)
    requires Start(w)
    ensures var b := Run(w, events).books;
      b.balance >= 0 && b.balance + Debited(b.ledger) + Expired(b.ledger) == Granted(b.ledger)
  {
    RunKeepsSound(w, events);
    TotalByKind(Run(w, events).books.ledger);
  }

  // ---------------------------------------------------------------- replay

  predicate AnsweredWith(pc: Pc, r: Response) {
    pc == Done(Answered(r)) || (pc.Releasing? && pc.result == Answered(r))
  }

  /** An answer and the audit it names, while that audit stands, say the same. */
  predicate Matches(audits: seq<Audit>, call: Call, r: Response) {
    forall i | 0 <= i < |audits| && audits[i].id == r.audit ::
      Unseal(audits[i].id, audits[i].envelope) == r && audits[i].key == call.request.key
      && SameRequest(audits[i], call.request)
  }

  ghost predicate AnswersMatch(w: World) {
    forall c | 0 <= c < |w.calls| :: forall r | AnsweredWith(w.calls[c].pc, r) ::
      r.audit < w.nextAudit && Matches(w.books.audits, w.calls[c], r)
  }

  lemma MoveKeepsAnswers(w: World, v: World, c: nat)
    requires AnswersMatch(w) && c < |w.calls| && v.nextAudit == w.nextAudit && v.books.audits == w.books.audits
    requires |v.calls| == |w.calls| && v.calls == w.calls[c := w.calls[c].(pc := v.calls[c].pc)]
    requires forall r | AnsweredWith(v.calls[c].pc, r) ::
      AnsweredWith(w.calls[c].pc, r) || (r.audit < w.nextAudit && Matches(w.books.audits, w.calls[c], r))
    ensures AnswersMatch(v)
  {
    forall d, r | 0 <= d < |v.calls| && AnsweredWith(v.calls[d].pc, r)
      ensures r.audit < v.nextAudit && Matches(v.books.audits, v.calls[d], r)
    {
      assert AnsweredWith(w.calls[d].pc, r) || d == c;
    }
  }

  /** A replayed answer is the one its audit seals. */
  lemma ReplayMatches(b: Books, nextAudit: nat, call: Call, a: Audit)
    requires BooksBalance(b, nextAudit) && a in b.audits
    requires a.key == call.request.key && SameRequest(a, call.request)
    ensures a.id < nextAudit && Matches(b.audits, call, Unseal(a.id, a.envelope))
  {
    var i :| 0 <= i < |b.audits| && b.audits[i] == a;
    assert forall k | 0 <= k < |b.audits| && b.audits[k].id == a.id :: k == i;
  }

  lemma OpenAnswers(w: World, c: nat, entitled: bool, found: Option<Route>, r: Response)
    requires Sound(w) && c < |w.calls| && w.calls[c].pc == Arrived
    requires AnsweredWith(OpenStep(w, c, entitled, found).calls[c].pc, r)
    ensures r.audit < w.nextAudit && Matches(w.books.audits, w.calls[c], r)
  {
    var a := FindAudit(w.books.audits, w.calls[c].request.key);
    assert a.Some? && SameRequest(a.value, w.calls[c].request) && r == Unseal(a.value.id, a.value.envelope);
    ReplayMatches(w.books, w.nextAudit, w.calls[c], a.value);
  }

  lemma OpenKeepsAnswers(w: World, c: nat, entitled: bool, found: Option<Route>)
    requires Sound(w) && AnswersMatch(w) && c < |w.calls|
    ensures AnswersMatch(OpenStep(w, c, entitled, found))
  {
    if w.calls[c].pc == Arrived {
      forall r | AnsweredWith(OpenStep(w, c, entitled, found).calls[c].pc, r)
        ensures r.audit < w.nextAudit && Matches(w.books.audits, w.calls[c], r)
      {
        OpenAnswers(w, c, entitled, found, r);
      }
    }
    MoveKeepsAnswers(w, OpenStep(w, c, entitled, found), c);
  }

  lemma SettleKeepsAnswers(w: World, c: nat, entitled: bool, month: int)
    requires Sound(w) && AnswersMatch(w) && c < |w.calls| && w.calls[c].pc.Settling?
    ensures AnswersMatch(SettleStep(w, c, entitled, month))
  {
    SettleFindsNoAudit(w, c);
    SettleWritesBothOrNothing(w, c, entitled, month);
    var v := SettleStep(w, c, entitled, month);
    forall d, r | 0 <= d < |v.calls| && AnsweredWith(v.calls[d].pc, r)
      ensures r.audit < v.nextAudit && Matches(v.books.audits, v.calls[d], r)
    {
      if d != c {
        assert AnsweredWith(w.calls[d].pc, r);
        assert Matches(w.books.audits, w.calls[d], r);
      }
    }
  }

  lemma CallStepKeepsAnswers(w: World, e: Event)
    requires AnswersMatch(w) && (e.Admit? || e.Begin? || e.Hear? || e.Report? || e.Release?) && e.c < |w.calls|
    ensures AnswersMatch(Next(w, e))
  {
    MoveKeepsAnswers(w, Next(w, e), e.c);
  }

  lemma FewerAuditsKeepAnswers(w: World, v: World)
    requires AnswersMatch(w) && v.nextAudit == w.nextAudit && v.books.audits <= w.books.audits
    requires v.calls == w.calls || exists r :: v.calls == w.calls + [Call(r, Arrived)]
    ensures AnswersMatch(v)
  {
    forall d, r | 0 <= d < |v.calls| && AnsweredWith(v.calls[d].pc, r)
      ensures r.audit < v.nextAudit && Matches(v.books.audits, v.calls[d], r)
    {
      assert d < |w.calls| && AnsweredWith(w.calls[d].pc, r);
      assert Matches(w.books.audits, w.calls[d], r);
    }
  }

  lemma OtherStepsKeepAnswers(w: World, e: Event)
    requires AnswersMatch(w) && BooksKept(w.books, w.saved, w.nextAudit) && !e.Open? && !e.Settle?
    ensures AnswersMatch(Next(w, e))
  {
    if e.Admit? || e.Begin? || e.Hear? || e.Report? || e.Release? {
      if e.c < |w.calls| {
        CallStepKeepsAnswers(w, e);
      }
    } else {
      FewerAuditsKeepAnswers(w, Next(w, e));
    }
  }

  lemma StepKeepsAnswers(w: World, e: Event)
    requires Sound(w) && AnswersMatch(w)
    ensures AnswersMatch(Next(w, e))
  {
    if e.Open? {
      if e.c < |w.calls| {
        OpenKeepsAnswers(w, e.c, e.entitled, e.found);
      }
    } else if e.Settle? {
      if e.c < |w.calls| && w.calls[e.c].pc.Settling? {
        SettleKeepsAnswers(w, e.c, e.entitled, e.month);
      }
    } else {
      OtherStepsKeepAnswers(w, e);
    }
  }

  lemma {:induction false} RunKeepsAnswers(w: World, events: seq<Event>)
    requires Sound(w) && AnswersMatch(w)
    ensures Sound(Run(w, events)) && AnswersMatch(Run(w, events))
    decreases |events|
  {
    if events != [] {
      StepKeepsSound(w, events[0]);
      StepKeepsAnswers(w, events[0]);
      RunKeepsAnswers(Next(w, events[0]), events[1..]);
    }
  }

  /** The audit of an answered call is the one its key finds. */
  lemma AnsweredIsFound(v: World, c: nat, r: Response, i: nat)
    requires Sound(v) && AnswersMatch(v) && c < |v.calls| && i < |v.books.audits|
    requires v.calls[c].pc == Done(Answered(r)) && v.books.audits[i].id == r.audit
    ensures FindAudit(v.books.audits, v.calls[c].request.key) == Some(v.books.audits[i])
    ensures SameRequest(v.books.audits[i], v.calls[c].request)
    ensures Unseal(v.books.audits[i].id, v.books.audits[i].envelope) == r
  {
    assert AnsweredWith(v.calls[c].pc, r);
    assert Matches(v.books.audits, v.calls[c], r);
    OnlyAuditOfItsKey(v.books.audits, v.nextAudit, i);
  }

  lemma OnlyAuditOfItsKey(audits: seq<Audit>, nextAudit: nat, i: nat)
    requires OneAuditPerKey(audits, nextAudit) && i < |audits|
    ensures FindAudit(audits, audits[i].key) == Some(audits[i])
  {
    var a := FindAudit(audits, audits[i].key);
    assert a.Some?;
  }

  /** Once a call was answered and its audit stands, a later call of the key reads exactly that answer when its
      capability, tool and input are the same, and a conflict otherwise; either way nothing else changes. */
  lemma LaterCallsReplay(w: World, events: seq<Event>, c: nat, d: nat, r: Response, i: nat, entitled: bool,
                         found: Option<Route>)
    requires Start(w)
    requires var v := Run(w, events);
      && c < |v.calls| && d < |v.calls| && i < |v.books.audits|
      && v.calls[c].pc == Done(Answered(r)) && v.books.audits[i].id == r.audit
      && v.calls[d].pc == Arrived && HasTheLock(v, d) && v.calls[d].request.key == v.calls[c].request.key
    ensures var v := Run(w, events);
      var x, y := v.calls[c].request, v.calls[d].request;
      var same := x.capability == y.capability && x.inputHash == y.inputHash && ToolName(x) == ToolName(y);
      Next(v, Open(d, entitled, found)) == Move(v, d, Done(if same then Answered(r) else Refused(Conflict)))
  {
    RunKeepsAnswers(w, events);
    OpenReplays(Run(w, events), c, d, r, i, entitled, found);
  }

  lemma OpenReplays(v: World, c: nat, d: nat, r: Response, i: nat, entitled: bool, found: Option<Route>)
    requires Sound(v) && AnswersMatch(v) && c < |v.calls| && d < |v.calls| && i < |v.books.audits|
    requires v.calls[c].pc == Done(Answered(r)) && v.books.audits[i].id == r.audit
    requires v.calls[d].pc == Arrived && HasTheLock(v, d) && v.calls[d].request.key == v.calls[c].request.key
    ensures var x, y := v.calls[c].request, v.calls[d].request;
      var same := x.capability == y.capability && x.inputHash == y.inputHash && ToolName(x) == ToolName(y);
      Next(v, Open(d, entitled, found)) == Move(v, d, Done(if same then Answered(r) else Refused(Conflict)))
  {
    AnsweredIsFound(v, c, r, i);
  }

  /** What other connections read of the audits is never taken back. */
  lemma AuditsAreNeverLost(w: World, e: Event)
    requires Sound(w)
    ensures Visible(w).audits <= Visible(Next(w, e)).audits
  {
    if e.Settle? {
      if e.c < |w.calls| && w.calls[e.c].pc.Settling? {
        SettleWritesBothOrNothing(w, e.c, e.entitled, e.month);
      }
    } else if e.Credit? || e.Expire? {
      assert Next(w, e).books.audits == w.books.audits && Next(w, e).saved == w.saved;
    } else {
      OtherStepsWriteNoBooks(w, e);
    }
  }

  // ---------------------------------------------------------------- a spent key

  /** The exchange succeeded, nobody is paying and no audit stands: its round was rolled back, or its debit refused. */
  ghost predicate SpentUnpaid(w: World, key: string) {
    && Spent(w.attempts, key)
    && (forall c | 0 <= c < |w.calls| && Paying(w.calls[c].pc) :: w.calls[c].request.key != key)
    && (forall i | 0 <= i < |w.books.audits| :: w.books.audits[i].key != key)
  }

  lemma OneCallLeavesSpentKeys(w: World, v: World, c: nat, key: string)
    requires SpentUnpaid(w, key) && Spent(v.attempts, key) && v.books.audits <= w.books.audits
    requires c < |w.calls| == |v.calls| && v.calls == w.calls[c := w.calls[c].(pc := v.calls[c].pc)]
    requires Paying(v.calls[c].pc) ==> Paying(w.calls[c].pc) || w.calls[c].request.key != key
    ensures SpentUnpaid(v, key)
  {
    forall d | 0 <= d < |v.calls| && Paying(v.calls[d].pc) ensures v.calls[d].request.key != key {
      assert d != c ==> v.calls[d] == w.calls[d];
    }
  }

  lemma BeginGrows(w: World, c: nat, month: int, key: string)
    requires c < |w.calls| && w.calls[c].pc.Beginning? && Spent(w.attempts, key)
    ensures Spent(BeginReply(w, c, month).0, key)
  {
    SpentGrows(w.attempts, BeginReply(w, c, month).0, key);
  }

  lemma BeginLeavesSpentKeys(w: World, c: nat, month: int, key: string)
    requires Sound(w) && SpentUnpaid(w, key) && c < |w.calls| && w.calls[c].pc.Beginning?
    ensures SpentUnpaid(BeginStep(w, c, month), key)
  {
    var i :| 0 <= i < |w.attempts| && w.attempts[i].key == key && w.attempts[i].status.Succeeded?;
    if w.calls[c].request.key == key {
      BusyKeyRefuses(w, c, month, i);
    }
    BeginGrows(w, c, month, key);
    BeginMoves(w, c, month);
    OneCallLeavesSpentKeys(w, BeginStep(w, c, month), c, key);
  }

  lemma ReportLeavesSpentKeys(w: World, c: nat, key: string)
    requires Sound(w) && SpentUnpaid(w, key) && c < |w.calls| && w.calls[c].pc.Reporting?
    ensures SpentUnpaid(ReportStep(w, c), key)
  {
    SpentGrows(w.attempts, ReportStep(w, c).attempts, key);
  }

  lemma SettleLeavesSpentKeys(w: World, c: nat, entitled: bool, month: int, key: string)
    requires Sound(w) && SpentUnpaid(w, key) && c < |w.calls| && w.calls[c].pc.Settling?
    ensures SpentUnpaid(SettleStep(w, c, entitled, month), key)
  {
    SettleWritesBothOrNothing(w, c, entitled, month);
  }

  lemma CallStepLeavesSpentKeys(w: World, e: Event, key: string)
    requires SpentUnpaid(w, key) && (e.Open? || e.Admit? || e.Hear? || e.Release?) && e.c < |w.calls|
    ensures SpentUnpaid(Next(w, e), key)
  {
    OneCallLeavesSpentKeys(w, Next(w, e), e.c, key);
  }

  lemma OtherStepsLeaveSpentKeys(w: World, e: Event, key: string)
    requires BooksKept(w.books, w.saved, w.nextAudit) && SpentUnpaid(w, key)
    requires !e.Open? && !e.Admit? && !e.Hear? && !e.Release?
    requires e.Begin? || e.Report? || e.Settle? ==> Next(w, e) == w
    ensures SpentUnpaid(Next(w, e), key)
  {
    var v := Next(w, e);
    assert v.attempts == w.attempts && v.books.audits <= w.books.audits;
    assert v.calls == w.calls || v.calls == w.calls + [Call(e.request, Arrived)];
  }

  lemma SpentStaysUnpaid(w: World, e: Event, key: string)
    requires Sound(w) && SpentUnpaid(w, key)
    ensures SpentUnpaid(Next(w, e), key)
  {
    if e.Begin? && e.c < |w.calls| && w.calls[e.c].pc.Beginning? {
      BeginLeavesSpentKeys(w, e.c, e.month, key);
    } else if e.Report? && e.c < |w.calls| && w.calls[e.c].pc.Reporting? {
      ReportLeavesSpentKeys(w, e.c, key);
    } else if e.Settle? && e.c < |w.calls| && w.calls[e.c].pc.Settling? {
      SettleLeavesSpentKeys(w, e.c, e.entitled, e.month, key);
    } else if (e.Open? || e.Admit? || e.Hear? || e.Release?) && e.c < |w.calls| {
      CallStepLeavesSpentKeys(w, e, key);
    } else {
      var idle := e.Open? || e.Admit? || e.Hear? || e.Release?;
      assert idle ==> Next(w, e) == w;
      if !idle {
        OtherStepsLeaveSpentKeys(w, e, key);
      }
    }
  }

  /** A paid exchange whose settlement did not stand is never asked, audited or debited again under its key. */
  lemma {:induction false} SpentKeyIsNeverPaidAgain(w: World, events: seq<Event>, key: string)
    requires Sound(w) && SpentUnpaid(w, key)
    ensures SpentUnpaid(Run(w, events), key)
    decreases |events|
  {
    if events != [] {
      StepKeepsSound(w, events[0]);
      SpentStaysUnpaid(w, events[0], key);
      SpentKeyIsNeverPaidAgain(Next(w, events[0]), events[1..], key);
    }
  }
}
