/** What holds of an organization's paid exchanges over every interleaving of calls, sweeps, expiries and rounds. */
module MeteringSafety {
  import opened Basics
  import opened Metering
  import Usage = UsageLedger

  // ---------------------------------------------------------------- the invariant

  predicate Paying(pc: Pc) {
    pc.Asking? || pc.Reporting? || pc.Settling?
  }

  predicate InPlay(pc: Pc) {
    Paying(pc) || pc.Admitting? || pc.Beginning?
  }

  /** The amounts the ledger debited for one audit. */
  function Debits(ledger: seq<Entry>, audit: nat): seq<nat> {
    if ledger == [] then []
    else
      var e := ledger[|ledger| - 1];
      Debits(ledger[..|ledger| - 1], audit) + if e.Debit? && e.audit == audit then [e.amount] else []
  }

  /** The balance is what the ledger adds up to. */
  predicate AddsUp(balance: int, ledger: seq<Entry>) {
    balance == Total(ledger) >= 0
  }

  predicate OneAuditPerKey(audits: seq<Audit>, nextAudit: nat) {
    && (forall i | 0 <= i < |audits| :: audits[i].id < nextAudit)
    && (forall i, j | 0 <= i < j < |audits| :: audits[i].id != audits[j].id && audits[i].key != audits[j].key)
  }

  predicate EachDebitedOnce(ledger: seq<Entry>, audits: seq<Audit>) {
    forall i | 0 <= i < |audits| :: Debits(ledger, audits[i].id) == [audits[i].points]
  }

  predicate DebitsAudited(ledger: seq<Entry>, audits: seq<Audit>) {
    forall k | 0 <= k < |ledger| && ledger[k].Debit? :: HasAudit(audits, ledger[k].audit)
  }

  /** One audit per key, one debit of its points per audit, and the balance is what the ledger adds up to. */
  ghost predicate BooksBalance(b: Books, nextAudit: nat) {
    && AddsUp(b.balance, b.ledger)
    && OneAuditPerKey(b.audits, nextAudit) && EachDebitedOnce(b.ledger, b.audits) && DebitsAudited(b.ledger, b.audits)
  }

  predicate HasAudit(audits: seq<Audit>, id: nat) {
    exists i | 0 <= i < |audits| :: audits[i].id == id
  }

  /** The attempt a call pays for is its key's, running until it is reported and succeeded after. */
  predicate PaysItsOwn(attempts: seq<Usage.Attempt>, call: Call)
    requires Paying(call.pc)
  {
    var a := call.pc.attempt;
    && a < |attempts|
    && attempts[a].key == call.request.key
    && attempts[a].status == if call.pc.Settling? then Usage.Succeeded else Usage.Running
  }

  predicate Spent(attempts: seq<Usage.Attempt>, key: string) {
    exists i | 0 <= i < |attempts| :: attempts[i].key == key && attempts[i].status.Succeeded?
  }

  /** Nobody pays for the key, and nobody can come to: its exchange succeeded, or no call is on its way. */
  predicate Closed(attempts: seq<Usage.Attempt>, calls: seq<Call>, key: string) {
    && (forall c | 0 <= c < |calls| && Paying(calls[c].pc) :: calls[c].request.key != key)
    && (Spent(attempts, key) || forall c | 0 <= c < |calls| && InPlay(calls[c].pc) :: calls[c].request.key != key)
  }

  ghost predicate AttemptsInOrder(attempts: seq<Usage.Attempt>) {
    Usage.Numbered(attempts) && forall i | 0 <= i < |attempts| :: attempts[i].id == i
  }

  ghost predicate OneOwner(calls: seq<Call>) {
    forall c, d | 0 <= c < d < |calls| && Paying(calls[c].pc) && Paying(calls[d].pc) ::
      calls[c].pc.attempt != calls[d].pc.attempt
  }

  ghost predicate CallsPay(attempts: seq<Usage.Attempt>, calls: seq<Call>) {
    && (forall c | 0 <= c < |calls| && Paying(calls[c].pc) :: PaysItsOwn(attempts, calls[c]))
    && OneOwner(calls)
  }

  ghost predicate AuditsClosed(attempts: seq<Usage.Attempt>, calls: seq<Call>, audits: seq<Audit>) {
    forall i | 0 <= i < |audits| :: Closed(attempts, calls, audits[i].key)
  }

  ghost predicate PayersKept(w: World) {
    CallsPay(w.attempts, w.calls) && AuditsClosed(w.attempts, w.calls, w.books.audits)
  }

  ghost predicate BooksKept(books: Books, saved: Option<Books>, nextAudit: nat) {
    && BooksBalance(books, nextAudit)
    && (saved.Some? ==> BooksBalance(saved.value, nextAudit) && saved.value.audits <= books.audits)
  }

  ghost predicate Sound(w: World) {
    AttemptsInOrder(w.attempts) && PayersKept(w) && BooksKept(w.books, w.saved, w.nextAudit)
  }

  // ---------------------------------------------------------------- one key, one payer

  /** An exchange under way or succeeded refuses every later `begin` of its key. */
  lemma BusyKeyRefuses(w: World, c: nat, month: int, i: nat)
    requires AttemptsInOrder(w.attempts) && c < |w.calls| && w.calls[c].pc.Beginning? && i < |w.attempts|
    requires w.attempts[i].key == w.calls[c].request.key && !w.attempts[i].status.Failed?
    ensures BeginReply(w, c, month).1 in {Usage.Conflict, Usage.InProgress}
    ensures BeginReply(w, c, month).0 == w.attempts
  {
    var last := Usage.Latest(w.attempts, w.calls[c].request.key);
    if i < last {
      Usage.EarlierAttemptsFailed(w.attempts, i, last);
    }
  }

  /** So a spent exchange is never begun. */
  lemma SpentIsNeverBegun(w: World, c: nat, month: int)
    requires AttemptsInOrder(w.attempts) && c < |w.calls| && w.calls[c].pc.Beginning?
    requires Spent(w.attempts, w.calls[c].request.key)
    ensures !BeginReply(w, c, month).1.Begun?
  {
    var key := w.calls[c].request.key;
    var i :| 0 <= i < |w.attempts| && w.attempts[i].key == key && w.attempts[i].status.Succeeded?;
    BusyKeyRefuses(w, c, month, i);
  }

  lemma BeginKeepsOrder(w: World, c: nat, month: int)
    requires AttemptsInOrder(w.attempts) && c < |w.calls| && w.calls[c].pc.Beginning?
    ensures AttemptsInOrder(BeginReply(w, c, month).0)
  {
    Usage.BeginKeepsNumbered(w.attempts, Paid(Visible(w).audits), w.budget,
      ExchangeOf(w.calls[c].request, w.calls[c].pc.route), month, |w.attempts|);
  }

  lemma SpentGrows(before: seq<Usage.Attempt>, after: seq<Usage.Attempt>, key: string)
    requires |before| <= |after|
    requires forall i | 0 <= i < |before| ::
      after[i].key == before[i].key && (before[i].status.Succeeded? ==> after[i].status.Succeeded?)
    ensures Spent(before, key) ==> Spent(after, key)
  {
    if Spent(before, key) {
      var i :| 0 <= i < |before| && before[i].key == key && before[i].status.Succeeded?;
      assert after[i].key == key && after[i].status.Succeeded?;
    }
  }

  /** A call that moves on, paying for nothing new and entering play under no audited key. */
  lemma MoveKeepsPayers(attempts: seq<Usage.Attempt>, calls: seq<Call>, audits: seq<Audit>, c: nat, pc: Pc)
    requires CallsPay(attempts, calls) && AuditsClosed(attempts, calls, audits) && c < |calls|
    requires Paying(pc) ==> Paying(calls[c].pc) && pc.attempt == calls[c].pc.attempt
    requires Paying(pc) ==> (pc.Settling? <==> calls[c].pc.Settling?)
    requires InPlay(pc) ==>
      InPlay(calls[c].pc) || forall i | 0 <= i < |audits| :: audits[i].key != calls[c].request.key
    ensures var after := calls[c := calls[c].(pc := pc)]; CallsPay(attempts, after) && AuditsClosed(attempts, after, audits)
  {
    var after := calls[c := calls[c].(pc := pc)];
    forall i | 0 <= i < |audits| ensures Closed(attempts, after, audits[i].key) {
      assert Closed(attempts, calls, audits[i].key);
    }
  }

  /** A key whose exchange began: the call that began it is the only one paying, and no audit stands. */
  lemma BegunKeepsPayers(attempts: seq<Usage.Attempt>, calls: seq<Call>, audits: seq<Audit>, c: nat, pc: Pc,
                         a: Usage.Attempt)
    requires CallsPay(attempts, calls) && AuditsClosed(attempts, calls, audits) && c < |calls|
    requires calls[c].pc.Beginning? && pc.Asking? && pc.attempt == |attempts|
    requires a.key == calls[c].request.key && a.status.Running? && !Spent(attempts, a.key)
    ensures var after := calls[c := calls[c].(pc := pc)];
      CallsPay(attempts + [a], after) && AuditsClosed(attempts + [a], after, audits)
  {
    var after, more := calls[c := calls[c].(pc := pc)], attempts + [a];
    forall i | 0 <= i < |audits| ensures Closed(more, after, audits[i].key) {
      assert Closed(attempts, calls, audits[i].key);
      SpentGrows(attempts, more, audits[i].key);
    }
  }

  lemma BeginMoves(w: World, c: nat, month: int)
    requires c < |w.calls| && w.calls[c].pc.Beginning?
    ensures var v := BeginStep(w, c, month);
      && v.attempts == BeginReply(w, c, month).0 && v.books == w.books && |v.calls| == |w.calls|
      && v.calls == w.calls[c := w.calls[c].(pc := v.calls[c].pc)]
      && (if BeginReply(w, c, month).1.Begun? then v.calls[c].pc.Asking? else v.calls[c].pc.Releasing?)
  {
  }

  /** What a granted reservation adds. */
  lemma BegunAdds(w: World, c: nat, month: int)
    requires c < |w.calls| && w.calls[c].pc.Beginning? && BeginReply(w, c, month).1.Begun?
    ensures var (attempts, reply) := BeginReply(w, c, month);
      && attempts == w.attempts + [reply.attempt] && reply.attempt.id == |w.attempts|
      && reply.attempt.key == w.calls[c].request.key && reply.attempt.status.Running?
      && BeginStep(w, c, month).calls[c].pc == Asking(w.calls[c].pc.route, reply.attempt.id)
  {
  }

  lemma BeginKeepsPayers(w: World, c: nat, month: int)
    requires Sound(w) && c < |w.calls| && w.calls[c].pc.Beginning?
    ensures PayersKept(BeginStep(w, c, month))
  {
    BeginMoves(w, c, month);
    var reply, pc := BeginReply(w, c, month).1, BeginStep(w, c, month).calls[c].pc;
    if reply.Begun? {
      BegunAdds(w, c, month);
      if Spent(w.attempts, w.calls[c].request.key) {
        SpentIsNeverBegun(w, c, month);
      }
      BegunKeepsPayers(w.attempts, w.calls, w.books.audits, c, pc, reply.attempt);
    } else {
      BeginRefusedAdds(w, c, month);
      MoveKeepsPayers(w.attempts, w.calls, w.books.audits, c, pc);
    }
  }

  lemma BeginRefusedAdds(w: World, c: nat, month: int)
    requires c < |w.calls| && w.calls[c].pc.Beginning? && !BeginReply(w, c, month).1.Begun?
    ensures BeginReply(w, c, month).0 == w.attempts
  {
  }

  /** Finishing the attempt a call pays for leaves the others' as they are. */
  lemma FinishKeepsPayers(attempts: seq<Usage.Attempt>, calls: seq<Call>, audits: seq<Audit>, c: nat, r: Usage.Report,
                          pc: Pc)
    requires CallsPay(attempts, calls) && AuditsClosed(attempts, calls, audits) && c < |calls|
    requires forall i | 0 <= i < |attempts| :: attempts[i].id == i
    requires calls[c].pc.Reporting?
    requires !InPlay(pc) || (pc.Settling? && pc.attempt == calls[c].pc.attempt && r.error.None?)
    ensures var done, after := Usage.Finish(attempts, calls[c].pc.attempt, r), calls[c := calls[c].(pc := pc)];
      CallsPay(done, after) && AuditsClosed(done, after, audits)
  {
    var done, after := Usage.Finish(attempts, calls[c].pc.attempt, r), calls[c := calls[c].(pc := pc)];
    assert PaysItsOwn(attempts, calls[c]);
    forall d | 0 <= d < |after| && Paying(after[d].pc) ensures PaysItsOwn(done, after[d]) {
      if d != c {
        assert PaysItsOwn(attempts, calls[d]);
      }
    }
    forall i | 0 <= i < |audits| ensures Closed(done, after, audits[i].key) {
      assert Closed(attempts, calls, audits[i].key);
      SpentGrows(attempts, done, audits[i].key);
    }
  }

  lemma ReportKeepsPayers(w: World, c: nat)
    requires Sound(w) && c < |w.calls| && w.calls[c].pc.Reporting?
    ensures PayersKept(ReportStep(w, c))
  {
    FinishKeepsPayers(w.attempts, w.calls, w.books.audits, c, ReportOf(w.calls[c].pc.reply),
                      ReportStep(w, c).calls[c].pc);
  }

  /** A call about to settle finds no audit under its key: the check repeated there never finds one. */
  lemma SettleFindsNoAudit(w: World, c: nat)
    requires PayersKept(w) && c < |w.calls| && w.calls[c].pc.Settling?
    ensures forall i | 0 <= i < |w.books.audits| :: w.books.audits[i].key != w.calls[c].request.key
    ensures FindAudit(w.books.audits, w.calls[c].request.key).None?
  {
    forall i | 0 <= i < |w.books.audits| ensures w.books.audits[i].key != w.calls[c].request.key {
      assert Closed(w.attempts, w.calls, w.books.audits[i].key);
    }
  }

  /** No two calls pay for the same key at a time. */
  lemma OnePayer(attempts: seq<Usage.Attempt>, calls: seq<Call>, c: nat, d: nat)
    requires AttemptsInOrder(attempts) && CallsPay(attempts, calls)
    requires c < |calls| && d < |calls| && Paying(calls[c].pc) && Paying(calls[d].pc)
    requires calls[c].request.key == calls[d].request.key
    ensures c == d
  {
    Usage.OneExchangePerKey(attempts, calls[c].pc.attempt, calls[d].pc.attempt);
  }

  function NewAudit(w: World, c: nat, month: int): Audit
    requires c < |w.calls| && w.calls[c].pc.Settling?
  {
    var r, pc := w.calls[c].request, w.calls[c].pc;
    Audit(w.nextAudit, r.key, r.user, ToolName(r), r.inputHash, pc.route.cost,
          Seal(r, pc.route, pc.answer, pc.attempt), month)
  }

  /** The call that settles is the only one paying for its key, and its exchange succeeded. */
  lemma SettlingCloses(attempts: seq<Usage.Attempt>, calls: seq<Call>, c: nat, pc: Pc)
    requires CallsPay(attempts, calls) && AttemptsInOrder(attempts)
    requires c < |calls| && calls[c].pc.Settling? && !InPlay(pc)
    ensures Closed(attempts, calls[c := calls[c].(pc := pc)], calls[c].request.key)
  {
    var key, after := calls[c].request.key, calls[c := calls[c].(pc := pc)];
    forall d | 0 <= d < |after| && Paying(after[d].pc) ensures after[d].request.key != key {
      if after[d].request.key == key {
        OnePayer(attempts, calls, c, d);
      }
    }
    assert PaysItsOwn(attempts, calls[c]);
    assert Spent(attempts, key);
  }

  lemma SettleMoves(w: World, c: nat, entitled: bool, month: int)
    requires Sound(w) && c < |w.calls| && w.calls[c].pc.Settling?
    ensures var v, a := SettleStep(w, c, entitled, month), NewAudit(w, c, month);
      && v.attempts == w.attempts && |v.calls| == |w.calls|
      && (v == w
          || (v.calls == w.calls[c := w.calls[c].(pc := v.calls[c].pc)] && !InPlay(v.calls[c].pc)
              && v.books.audits in {w.books.audits, w.books.audits + [a]}))
  {
    SettleFindsNoAudit(w, c);
  }

  lemma SettleKeepsPayers(w: World, c: nat, entitled: bool, month: int)
    requires Sound(w) && c < |w.calls| && w.calls[c].pc.Settling?
    ensures PayersKept(SettleStep(w, c, entitled, month))
  {
    var v := SettleStep(w, c, entitled, month);
    SettleMoves(w, c, entitled, month);
    if v != w {
      MoveKeepsPayers(w.attempts, w.calls, w.books.audits, c, v.calls[c].pc);
      SettlingCloses(w.attempts, w.calls, c, v.calls[c].pc);
    }
  }

  lemma OpenKeepsPayers(w: World, c: nat, entitled: bool, found: Option<Route>)
    requires Sound(w) && c < |w.calls|
    ensures PayersKept(OpenStep(w, c, entitled, found))
  {
    MoveKeepsPayers(w.attempts, w.calls, w.books.audits, c, OpenStep(w, c, entitled, found).calls[c].pc);
  }

  lemma ArriveKeepsPayers(w: World, r: Request)
    requires Sound(w)
    ensures PayersKept(Next(w, Arrive(r)))
  {
    var v := Next(w, Arrive(r));
    forall i | 0 <= i < |v.books.audits| ensures Closed(v.attempts, v.calls, v.books.audits[i].key) {
      assert Closed(w.attempts, w.calls, w.books.audits[i].key);
    }
  }

  lemma MovingStepMoves(w: World, e: Event)
    requires (e.Admit? || e.Hear? || e.Release?) && e.c < |w.calls|
    ensures var v := Next(w, e);
      && v.attempts == w.attempts && v.books == w.books && |v.calls| == |w.calls|
      && v.calls == w.calls[e.c := w.calls[e.c].(pc := v.calls[e.c].pc)]
      && (Paying(v.calls[e.c].pc) ==>
            && Paying(w.calls[e.c].pc) && v.calls[e.c].pc.attempt == w.calls[e.c].pc.attempt
            && (v.calls[e.c].pc.Settling? <==> w.calls[e.c].pc.Settling?))
      && (InPlay(v.calls[e.c].pc) ==> InPlay(w.calls[e.c].pc))
  {
  }

  lemma MovingStepKeepsPayers(w: World, e: Event)
    requires Sound(w) && (e.Admit? || e.Hear? || e.Release?) && e.c < |w.calls|
    ensures PayersKept(Next(w, e))
  {
    MovingStepMoves(w, e);
    MoveKeepsPayers(w.attempts, w.calls, w.books.audits, e.c, Next(w, e).calls[e.c].pc);
  }

  /** A shorter list of audits is closed as well. */
  lemma BookStepKeepsPayers(w: World, e: Event)
    requires Sound(w)
    requires e.Credit? || e.Expire? || e.RoundStart? || e.RoundCommit? || e.RoundRollback?
             || e.Sweep? || e.Conciliate? || e.ReleaseHeld?
    ensures PayersKept(Next(w, e))
  {
    var v := Next(w, e);
    assert v.attempts == w.attempts && v.calls == w.calls && v.books.audits <= w.books.audits;
    forall i | 0 <= i < |v.books.audits| ensures Closed(v.attempts, v.calls, v.books.audits[i].key) {
      assert v.books.audits[i] == w.books.audits[i];
    }
  }

  // ---------------------------------------------------------------- the books

  lemma TotalAppend(ledger: seq<Entry>, e: Entry)
    ensures Total(ledger + [e]) == Total(ledger) + Amount(e)
  {
    assert (ledger + [e])[..|ledger|] == ledger;
  }

  lemma DebitsAppend(ledger: seq<Entry>, e: Entry, audit: nat)
    ensures Debits(ledger + [e], audit)
         == Debits(ledger, audit) + if e.Debit? && e.audit == audit then [e.amount] else []
  {
    assert (ledger + [e])[..|ledger|] == ledger;
  }

  lemma {:induction false} NoDebits(ledger: seq<Entry>, audit: nat)
    requires forall k | 0 <= k < |ledger| && ledger[k].Debit? :: ledger[k].audit != audit
    ensures Debits(ledger, audit) == []
  {
    if ledger != [] {
      NoDebits(ledger[..|ledger| - 1], audit);
    }
  }

  lemma EntryAddsUp(balance: int, ledger: seq<Entry>, e: Entry)
    requires AddsUp(balance, ledger) && balance + Amount(e) >= 0
    ensures AddsUp(balance + Amount(e), ledger + [e])
  {
    TotalAppend(ledger, e);
  }

  lemma EntryDebitsNoAudit(ledger: seq<Entry>, audits: seq<Audit>, e: Entry)
    requires EachDebitedOnce(ledger, audits) && DebitsAudited(ledger, audits) && !e.Debit?
    ensures EachDebitedOnce(ledger + [e], audits) && DebitsAudited(ledger + [e], audits)
  {
    forall i | 0 <= i < |audits| ensures Debits(ledger + [e], audits[i].id) == [audits[i].points] {
      DebitsAppend(ledger, e, audits[i].id);
    }
  }

  /** An entry that debits no audit leaves every audit's debits as they are. */
  lemma EntryKeepsBooks(b: Books, e: Entry, nextAudit: nat)
    requires BooksBalance(b, nextAudit) && !e.Debit? && b.balance + Amount(e) >= 0
    ensures BooksBalance(b.(balance := b.balance + Amount(e), ledger := b.ledger + [e]), nextAudit)
  {
    EntryAddsUp(b.balance, b.ledger, e);
    EntryDebitsNoAudit(b.ledger, b.audits, e);
  }

  lemma DebitsStayAudited(ledger: seq<Entry>, audits: seq<Audit>, a: Audit)
    requires DebitsAudited(ledger, audits)
    ensures DebitsAudited(ledger + [Debit(a.points, a.id)], audits + [a])
  {
    var all, after := ledger + [Debit(a.points, a.id)], audits + [a];
    forall k | 0 <= k < |all| && all[k].Debit? ensures HasAudit(after, all[k].audit) {
      if k < |ledger| {
        assert HasAudit(audits, ledger[k].audit);
        var i :| 0 <= i < |audits| && audits[i].id == ledger[k].audit;
        assert after[i].id == ledger[k].audit;
      } else {
        assert after[|audits|].id == a.id;
      }
    }
  }

  lemma NotDebitedYet(ledger: seq<Entry>, audits: seq<Audit>, id: nat)
    requires DebitsAudited(ledger, audits) && forall i | 0 <= i < |audits| :: audits[i].id < id
    ensures Debits(ledger, id) == []
  {
    forall k | 0 <= k < |ledger| && ledger[k].Debit? ensures ledger[k].audit != id {
      assert HasAudit(audits, ledger[k].audit);
    }
    NoDebits(ledger, id);
  }

  lemma DebitedOnceMore(ledger: seq<Entry>, audits: seq<Audit>, a: Audit)
    requires EachDebitedOnce(ledger, audits) && Debits(ledger, a.id) == []
    requires forall i | 0 <= i < |audits| :: audits[i].id < a.id
    ensures EachDebitedOnce(ledger + [Debit(a.points, a.id)], audits + [a])
  {
    var after := audits + [a];
    forall i | 0 <= i < |after| ensures Debits(ledger + [Debit(a.points, a.id)], after[i].id) == [after[i].points] {
      DebitsAppend(ledger, Debit(a.points, a.id), after[i].id);
    }
  }

  function WithSettlement(b: Books, a: Audit): Books {
    Books(b.balance - a.points, b.ledger + [Debit(a.points, a.id)], b.audits + [a])
  }

  /** A fresh audit with its debit, within the balance, keeps the books. */
  lemma SettlementKeepsBooks(b: Books, a: Audit)
    requires BooksBalance(b, a.id) && a.points <= b.balance
    requires forall i | 0 <= i < |b.audits| :: b.audits[i].key != a.key
    ensures BooksBalance(WithSettlement(b, a), a.id + 1)
  {
    EntryAddsUp(b.balance, b.ledger, Debit(a.points, a.id));
    NotDebitedYet(b.ledger, b.audits, a.id);
    DebitedOnceMore(b.ledger, b.audits, a);
    DebitsStayAudited(b.ledger, b.audits, a);
  }

  /** A settlement writes its audit and its debit together, or nothing. */
  lemma SettleWritesBothOrNothing(w: World, c: nat, entitled: bool, month: int)
    requires Sound(w) && c < |w.calls| && w.calls[c].pc.Settling?
    ensures var v, a := SettleStep(w, c, entitled, month), NewAudit(w, c, month);
      && v.saved == w.saved
      && ((v.books == w.books && v.nextAudit == w.nextAudit)
          || (a.points <= w.books.balance && v.nextAudit == w.nextAudit + 1
              && v.books == WithSettlement(w.books, a)))
  {
    SettleFindsNoAudit(w, c);
  }

  lemma SettleKeepsBooks(w: World, c: nat, entitled: bool, month: int)
    requires Sound(w) && c < |w.calls| && w.calls[c].pc.Settling?
    ensures var v := SettleStep(w, c, entitled, month); BooksKept(v.books, v.saved, v.nextAudit)
  {
    SettleWritesBothOrNothing(w, c, entitled, month);
    SettleFindsNoAudit(w, c);
    if SettleStep(w, c, entitled, month).books != w.books {
      KeptAfterSettlement(w.books, w.saved, NewAudit(w, c, month));
    }
  }

  lemma KeptAfterSettlement(b: Books, saved: Option<Books>, a: Audit)
    requires BooksKept(b, saved, a.id) && a.points <= b.balance
    requires forall i | 0 <= i < |b.audits| :: b.audits[i].key != a.key
    ensures BooksKept(WithSettlement(b, a), saved, a.id + 1)
  {
    SettlementKeepsBooks(b, a);
  }

  lemma KeptAfterEntry(b: Books, saved: Option<Books>, e: Entry, nextAudit: nat)
    requires BooksKept(b, saved, nextAudit) && !e.Debit? && b.balance + Amount(e) >= 0
    ensures BooksKept(b.(balance := b.balance + Amount(e), ledger := b.ledger + [e]), saved, nextAudit)
  {
    EntryKeepsBooks(b, e, nextAudit);
  }

  lemma CreditKeepsBooks(w: World, amount: nat)
    requires BooksKept(w.books, w.saved, w.nextAudit)
    ensures var v := CreditStep(w, amount); BooksKept(v.books, v.saved, v.nextAudit)
  {
    KeptAfterEntry(w.books, w.saved, Grant(amount), w.nextAudit);
  }

  lemma ExpireKeepsBooks(w: World, amount: nat)
    requires BooksKept(w.books, w.saved, w.nextAudit)
    ensures var v := ExpireStep(w, amount); BooksKept(v.books, v.saved, v.nextAudit)
  {
    if amount <= w.books.balance {
      KeptAfterEntry(w.books, w.saved, Expiry(amount), w.nextAudit);
    }
  }

  /** Every other step writes no books; a round that rolls back puts back the ones it found. */
  lemma OtherStepsWriteNoBooks(w: World, e: Event)
    requires !e.Settle? && !e.Credit? && !e.Expire?
    ensures var v := Next(w, e);
      && v.nextAudit == w.nextAudit
      && (v.books == w.books || (w.saved.Some? && v.books == w.saved.value && v.saved.None?))
      && (v.saved == w.saved || v.saved.None? || v.saved == Some(w.books))
  {
  }

  lemma StepKeepsBooks(w: World, e: Event)
    requires Sound(w)
    ensures var v := Next(w, e); BooksKept(v.books, v.saved, v.nextAudit)
  {
    if e.Settle? {
      if e.c < |w.calls| && w.calls[e.c].pc.Settling? {
        SettleKeepsBooks(w, e.c, e.entitled, e.month);
      }
    } else if e.Credit? {
      CreditKeepsBooks(w, e.amount);
    } else if e.Expire? {
      ExpireKeepsBooks(w, e.amount);
    } else {
      OtherStepsWriteNoBooks(w, e);
    }
  }

  // ---------------------------------------------------------------- every run

  lemma ReportKeepsOrder(w: World, c: nat)
    requires AttemptsInOrder(w.attempts) && c < |w.calls| && w.calls[c].pc.Reporting?
    ensures AttemptsInOrder(ReportStep(w, c).attempts)
  {
    Usage.FinishKeepsNumbered(w.attempts, w.calls[c].pc.attempt, ReportOf(w.calls[c].pc.reply));
  }

  lemma BeginStepKeepsOrder(w: World, c: nat, month: int)
    requires AttemptsInOrder(w.attempts) && c < |w.calls| && w.calls[c].pc.Beginning?
    ensures AttemptsInOrder(BeginStep(w, c, month).attempts)
  {
    var after := BeginReply(w, c, month).0;
    assert AttemptsInOrder(after) by {
      BeginKeepsOrder(w, c, month);
    }
    assert BeginStep(w, c, month).attempts == after by {
      BeginMoves(w, c, month);
    }
  }

  lemma StepKeepsOrder(w: World, e: Event)
    requires AttemptsInOrder(w.attempts)
    ensures AttemptsInOrder(Next(w, e).attempts)
  {
    if e.Begin? && e.c < |w.calls| && w.calls[e.c].pc.Beginning? {
      BeginStepKeepsOrder(w, e.c, e.month);
    } else if e.Report? && e.c < |w.calls| && w.calls[e.c].pc.Reporting? {
      ReportKeepsOrder(w, e.c);
    } else {
      assert Next(w, e).attempts == w.attempts;
    }
  }

  /** The steps that move a call; in none of them out of range or out of turn does anything happen. */
  predicate MovesACall(e: Event) {
    e.Open? || e.Admit? || e.Begin? || e.Hear? || e.Report? || e.Release? || e.Settle?
  }

  lemma OnlyItsTurnMoves(w: World, e: Event)
    requires MovesACall(e) && Next(w, e) != w
    ensures e.c < |w.calls|
    ensures e.Begin? ==> w.calls[e.c].pc.Beginning?
    ensures e.Report? ==> w.calls[e.c].pc.Reporting?
    ensures e.Settle? ==> w.calls[e.c].pc.Settling?
  {
  }

  lemma CallStepKeepsPayers(w: World, e: Event)
    requires Sound(w) && MovesACall(e) && e.c < |w.calls|
    requires e.Begin? ==> w.calls[e.c].pc.Beginning?
    requires e.Report? ==> w.calls[e.c].pc.Reporting?
    requires e.Settle? ==> w.calls[e.c].pc.Settling?
    ensures PayersKept(Next(w, e))
  {
    match e
    case Open(c, entitled, found) => OpenKeepsPayers(w, c, entitled, found);
    case Begin(c, month) => BeginKeepsPayers(w, c, month);
    case Report(c) => ReportKeepsPayers(w, c);
    case Settle(c, entitled, month) => SettleKeepsPayers(w, c, entitled, month);
    case _ => MovingStepKeepsPayers(w, e);
  }

  lemma StepKeepsPayers(w: World, e: Event)
    requires Sound(w)
    ensures PayersKept(Next(w, e))
  {
    if e.Arrive? {
      ArriveKeepsPayers(w, e.request);
    } else if !MovesACall(e) {
      BookStepKeepsPayers(w, e);
    } else if Next(w, e) != w {
      OnlyItsTurnMoves(w, e);
      CallStepKeepsPayers(w, e);
    }
  }

  lemma StepKeepsSound(w: World, e: Event)
    requires Sound(w)
    ensures Sound(Next(w, e))
  {
    StepKeepsOrder(w, e);
    StepKeepsPayers(w, e);
    StepKeepsBooks(w, e);
  }

  lemma {:induction false} RunAppend(w: World, a: seq<Event>, b: seq<Event>)
    ensures Run(w, a + b) == Run(Run(w, a), b)
    decreases |a|
  {
    if a == [] {
      assert a + b == b;
    } else {
      assert (a + b)[1..] == a[1..] + b;
      RunAppend(Next(w, a[0]), a[1..], b);
    }
  }

  lemma {:induction false} RunKeepsSound(w: World, events: seq<Event>)
    requires Sound(w)
    ensures Sound(Run(w, events))
    decreases |events|
  {
    if events != [] {
      StepKeepsSound(w, events[0]);
      RunKeepsSound(Next(w, events[0]), events[1..]);
    }
  }
}
