/** The usage ledger as an object, and the summary its owner reads: totals overall and per person. */
module UsageSummary {
  import opened Basics
  import opened UsageLedger

  /** What the summary counts of an attempt: the same rule as the budget's, stated over the record. */
  function CreditsOf(a: Attempt): nat {
    if a.status in {Running, Succeeded} || a.tokens.Some?
       || (a.error.Some? && a.error.value in {ProviderError, ProviderTimeout, OutputTooLarge})
    then a.reserved else 0
  }

  function Credits(records: seq<Attempt>): nat {
    if records == [] then 0 else Credits(records[..|records| - 1]) + CreditsOf(records[|records| - 1])
  }

  function Points(previous: seq<PaidAudit>): nat {
    if previous == [] then 0 else Points(previous[..|previous| - 1]) + previous[|previous| - 1].points
  }

  /** The attempts of a month, of one person or of everyone. */
  function Records(attempts: seq<Attempt>, month: int, user: Option<nat>): seq<Attempt> {
    if attempts == [] then []
    else
      var a := attempts[|attempts| - 1];
      Records(attempts[..|attempts| - 1], month, user)
      + if a.month == month && (user.None? || user.value == a.user) then [a] else []
  }

  /** The debited audits of a month that no attempt measures. */
  function Previous(audits: seq<PaidAudit>, attempts: seq<Attempt>, month: int, user: Option<nat>): seq<PaidAudit> {
    if audits == [] then []
    else
      var a := audits[|audits| - 1];
      Previous(audits[..|audits| - 1], attempts, month, user)
      + if a.month == month && !Measured(attempts, a.key) && (user.None? || user.value == a.user) then [a] else []
  }

  function OfUser(records: seq<Attempt>, user: nat): seq<Attempt> {
    if records == [] then []
    else OfUser(records[..|records| - 1], user)
         + if records[|records| - 1].user == user then [records[|records| - 1]] else []
  }

  function PreviousOf(previous: seq<PaidAudit>, user: nat): seq<PaidAudit> {
    if previous == [] then []
    else PreviousOf(previous[..|previous| - 1], user)
         + if previous[|previous| - 1].user == user then [previous[|previous| - 1]] else []
  }

  /** Tokens are reported only when every possibly paid exchange reported them and no older debit is unmeasured. */
  predicate Complete(records: seq<Attempt>, previous: seq<PaidAudit>) {
    && previous == []
    && forall i | 0 <= i < |records| ::
         (records[i].status in {Running, Succeeded}
          || (records[i].error.Some? && records[i].error.value in {ProviderError, ProviderTimeout, OutputTooLarge}))
         ==> records[i].tokens.Some?
  }

  function Tokens(records: seq<Attempt>): (nat, nat) {
    if records == [] then (0, 0)
    else
      var (p, c) := Tokens(records[..|records| - 1]);
      match records[|records| - 1].tokens
      case None => (p, c)
      case Some((dp, dc)) => (p + dp, c + dc)
  }

  datatype Totals = Totals(calls: nat, tokens: Option<(nat, nat)>, capacity: nat)

  function TotalsOf(records: seq<Attempt>, previous: seq<PaidAudit>): Totals {
    Totals(|records| + |previous|,
           if Complete(records, previous) then Some(Tokens(records)) else None,
           Credits(records) + Points(previous))
  }

  /** The people behind the records, each once, in order. */
  function Insert(users: seq<nat>, user: nat): seq<nat> {
    if users == [] || user < users[0] then [user] + users
    else if user == users[0] then users
    else [users[0]] + Insert(users[1..], user)
  }

  function UsersOf(records: seq<Attempt>, previous: seq<PaidAudit>): seq<nat> {
    if records != [] then Insert(UsersOf(records[..|records| - 1], previous), records[|records| - 1].user)
    else if previous != [] then Insert(UsersOf(records, previous[..|previous| - 1]), previous[|previous| - 1].user)
    else []
  }

  datatype Summary = Summary(total: Totals, budgetBlocked: bool, users: seq<(nat, Totals)>)

  function PerUser(users: seq<nat>, records: seq<Attempt>, previous: seq<PaidAudit>): seq<(nat, Totals)> {
    seq(|users|, i requires 0 <= i < |users| =>
      (users[i], TotalsOf(OfUser(records, users[i]), PreviousOf(previous, users[i]))))
  }

  function Summarize(attempts: seq<Attempt>, audits: seq<PaidAudit>, budget: Option<nat>, month: int, user: Option<nat>)
    : Summary
  {
    var records := Records(attempts, month, user);
    var previous := Previous(audits, attempts, month, user);
    var total := TotalsOf(records, previous);
    Summary(total, budget.Some? && total.capacity >= budget.value,
            PerUser(UsersOf(records, previous), records, previous))
  }

  // ---------------------------------------------------------------- the object

  class Ledger {
    var attempts: seq<Attempt>
    var audits: seq<PaidAudit>
    var budget: Option<nat>
    /** The owner was told the budget stopped an exchange. */
    var noticed: bool

    method Begin(x: Exchange, month: int, id: nat) returns (reply: BeginReply)
      modifies this
      ensures (attempts, reply) == UsageLedger.Begin(old(attempts), audits, budget, x, month, id)
      ensures audits == old(audits) && budget == old(budget) && noticed == (old(noticed) || reply.Blocked?)
    {
      var i := |attempts| - 1;
      while i >= 0 && attempts[i].key != x.key
        invariant -1 <= i < |attempts|
        invariant Latest(attempts, x.key) == Latest(attempts[..i + 1], x.key)
      {
        assert attempts[..i + 1][..i] == attempts[..i];
        i := i - 1;
      }
      assert attempts[..i + 1][..i + 1] == attempts[..i + 1];
      if i >= 0 {
        var last := attempts[i];
        if last.inputHash != x.inputHash || last.capability != x.capability || last.user != x.user {
          return Conflict;
        }
        if last.status != Failed || last.tokens.Some? {
          return InProgress;
        }
      }
      var consumed := CountConsumed(month);
      if budget.Some? && consumed + x.cost > budget.value {
        noticed := true;
        return Blocked;
      }
      var a := Attempt(id, x.user, x.key, x.inputHash, x.capability, if i >= 0 then attempts[i].number + 1 else 1,
                       Running, x.cost, None, None, month);
      attempts := attempts + [a];
      return Begun(a);
    }

    method CountConsumed(month: int) returns (sum: nat)
      ensures sum == Consumed(attempts, audits, month)
    {
      sum := 0;
      for i := 0 to |attempts|
        invariant sum == Reserved(attempts[..i], month)
      {
        assert attempts[..i + 1][..i] == attempts[..i];
        if attempts[i].month == month && MaybePaid(attempts[i]) {
          sum := sum + attempts[i].reserved;
        }
      }
      assert attempts[..|attempts|] == attempts;
      for i := 0 to |audits|
        invariant sum == Reserved(attempts, month) + Legacy(audits[..i], attempts, month)
      {
        assert audits[..i + 1][..i] == audits[..i];
        if audits[i].month == month && !Measured(attempts, audits[i].key) {
          sum := sum + audits[i].points;
        }
      }
      assert audits[..|audits|] == audits;
    }

    /** Only a running exchange is finished. */
    method Finish(id: nat, r: Report)
      modifies this
      ensures attempts == UsageLedger.Finish(old(attempts), id, r)
      ensures audits == old(audits) && budget == old(budget) && noticed == old(noticed)
    {
      ghost var before := attempts;
      for i := 0 to |attempts|
        invariant |attempts| == |before|
        invariant forall k | 0 <= k < i :: attempts[k] == UsageLedger.Finish(before, id, r)[k]
        invariant forall k | i <= k < |before| :: attempts[k] == before[k]
        invariant audits == old(audits) && budget == old(budget) && noticed == old(noticed)
      {
        if attempts[i].id == id && attempts[i].status == Running {
          attempts := attempts[i := attempts[i].(
            status := if r.error.Some? then Failed else Succeeded, tokens := r.tokens, error := r.error)];
        }
      }
    }
  }

  // ---------------------------------------------------------------- the summary and the budget

  lemma {:induction false} RecordsHoldTheReserved(attempts: seq<Attempt>, month: int)
    ensures Credits(Records(attempts, month, None)) == Reserved(attempts, month)
  {
    if attempts != [] {
      var n := |attempts| - 1;
      RecordsHoldTheReserved(attempts[..n], month);
      var before := Records(attempts[..n], month, None);
      var a := attempts[n];
      if a.month == month {
        assert (before + [a])[..|before|] == before;
      } else {
        assert before + [] == before;
      }
    }
  }

  lemma {:induction false} PreviousHoldTheLegacy(audits: seq<PaidAudit>, attempts: seq<Attempt>, month: int)
    ensures Points(Previous(audits, attempts, month, None)) == Legacy(audits, attempts, month)
  {
    if audits != [] {
      var n := |audits| - 1;
      PreviousHoldTheLegacy(audits[..n], attempts, month);
      var before := Previous(audits[..n], attempts, month, None);
      var a := audits[n];
      if a.month == month && !Measured(attempts, a.key) {
        assert (before + [a])[..|before|] == before;
      } else {
        assert before + [] == before;
      }
    }
  }

  /** The organization's capacity is exactly the sum the budget is checked against. */
  lemma CapacityIsConsumed(attempts: seq<Attempt>, audits: seq<PaidAudit>, budget: Option<nat>, month: int)
    ensures Summarize(attempts, audits, budget, month, None).total.capacity == Consumed(attempts, audits, month)
  {
    RecordsHoldTheReserved(attempts, month);
    PreviousHoldTheLegacy(audits, attempts, month);
  }

  // Per-person totals.

  ghost predicate Ascending(users: seq<nat>) {
    forall i, j | 0 <= i < j < |users| :: users[i] < users[j]
  }

  lemma {:induction false} InsertKeepsAscending(users: seq<nat>, user: nat)
    requires Ascending(users)
    ensures Ascending(Insert(users, user))
    ensures forall u :: u in Insert(users, user) <==> u in users || u == user
  {
    if users == [] || user < users[0] {
    } else if user > users[0] {
      assert users == [users[0]] + users[1..];
      InsertKeepsAscending(users[1..], user);
      var rest := Insert(users[1..], user);
      forall k | 0 <= k < |rest| ensures users[0] < rest[k] {
        assert rest[k] in rest;
      }
    }
  }

  /** The list names everyone behind the attempts, and behind the audits. */
  predicate ListsAttempts(users: seq<nat>, records: seq<Attempt>) {
    records == [] || (records[|records| - 1].user in users && ListsAttempts(users, records[..|records| - 1]))
  }

  predicate ListsAudits(users: seq<nat>, previous: seq<PaidAudit>) {
    previous == [] || (previous[|previous| - 1].user in users && ListsAudits(users, previous[..|previous| - 1]))
  }

  lemma {:induction false} ListsMoreAttempts(users: seq<nat>, more: seq<nat>, records: seq<Attempt>)
    requires ListsAttempts(users, records) && forall u | u in users :: u in more
    ensures ListsAttempts(more, records)
  {
    if records != [] {
      ListsMoreAttempts(users, more, records[..|records| - 1]);
    }
  }

  lemma {:induction false} ListsMoreAudits(users: seq<nat>, more: seq<nat>, previous: seq<PaidAudit>)
    requires ListsAudits(users, previous) && forall u | u in users :: u in more
    ensures ListsAudits(more, previous)
  {
    if previous != [] {
      ListsMoreAudits(users, more, previous[..|previous| - 1]);
    }
  }

  lemma {:induction false} UsersCoverAll(records: seq<Attempt>, previous: seq<PaidAudit>)
    ensures var users := UsersOf(records, previous);
      Ascending(users) && ListsAttempts(users, records) && ListsAudits(users, previous)
    decreases |records| + |previous|
  {
    var users := UsersOf(records, previous);
    if records != [] {
      var before := UsersOf(records[..|records| - 1], previous);
      UsersCoverAll(records[..|records| - 1], previous);
      InsertKeepsAscending(before, records[|records| - 1].user);
      ListsMoreAttempts(before, users, records[..|records| - 1]);
      ListsMoreAudits(before, users, previous);
    } else if previous != [] {
      var before := UsersOf(records, previous[..|previous| - 1]);
      UsersCoverAll(records, previous[..|previous| - 1]);
      InsertKeepsAscending(before, previous[|previous| - 1].user);
      ListsMoreAudits(before, users, previous[..|previous| - 1]);
    }
  }

  function CapacityOf(user: nat, records: seq<Attempt>, previous: seq<PaidAudit>): nat {
    Credits(OfUser(records, user)) + Points(PreviousOf(previous, user))
  }

  function CapacityOver(users: seq<nat>, records: seq<Attempt>, previous: seq<PaidAudit>): nat {
    if users == [] then 0 else CapacityOf(users[0], records, previous) + CapacityOver(users[1..], records, previous)
  }

  lemma CapacitySteps(user: nat, records: seq<Attempt>, previous: seq<PaidAudit>, a: Attempt, p: PaidAudit)
    ensures CapacityOf(user, records + [a], previous)
         == CapacityOf(user, records, previous) + if a.user == user then CreditsOf(a) else 0
    ensures CapacityOf(user, records, previous + [p])
         == CapacityOf(user, records, previous) + if p.user == user then p.points else 0
  {
    assert (records + [a])[..|records|] == records;
    assert (previous + [p])[..|previous|] == previous;
    var x, y := OfUser(records, user), PreviousOf(previous, user);
    assert (x + [a])[..|x|] == x && (y + [p])[..|y|] == y && x + [] == x && y + [] == y;
  }

  /** One more attempt adds its credits to exactly one person of a list that names everyone once. */
  lemma {:induction false} OneMoreAttempt(users: seq<nat>, records: seq<Attempt>, previous: seq<PaidAudit>, a: Attempt)
    requires Ascending(users)
    ensures CapacityOver(users, records + [a], previous)
         == CapacityOver(users, records, previous) + if a.user in users then CreditsOf(a) else 0
  {
    if users != [] {
      CapacitySteps(users[0], records, previous, a, PaidAudit(0, "", 0, 0));
      OneMoreAttempt(users[1..], records, previous, a);
      assert users == [users[0]] + users[1..];
    }
  }

  lemma {:induction false} OneMoreAudit(users: seq<nat>, records: seq<Attempt>, previous: seq<PaidAudit>, p: PaidAudit)
    requires Ascending(users)
    ensures CapacityOver(users, records, previous + [p])
         == CapacityOver(users, records, previous) + if p.user in users then p.points else 0
  {
    if users != [] {
      CapacitySteps(users[0], records, previous, Attempt(0, 0, "", "", "", 0, Running, 0, None, None, 0), p);
      OneMoreAudit(users[1..], records, previous, p);
      assert users == [users[0]] + users[1..];
    }
  }

  lemma {:induction false} NothingOver(users: seq<nat>)
    ensures CapacityOver(users, [], []) == 0
  {
    if users != [] {
      NothingOver(users[1..]);
    }
  }

  lemma LastAuditAdds(users: seq<nat>, previous: seq<PaidAudit>, before: seq<PaidAudit>, last: PaidAudit)
    requires Ascending(users) && last.user in users && previous == before + [last]
    ensures CapacityOver(users, [], previous) == CapacityOver(users, [], before) + last.points
  {
    OneMoreAudit(users, [], before, last);
  }

  lemma {:induction false} AuditsAddUp(users: seq<nat>, previous: seq<PaidAudit>)
    requires Ascending(users) && ListsAudits(users, previous)
    ensures CapacityOver(users, [], previous) == Points(previous)
  {
    if previous == [] {
      NothingOver(users);
    } else {
      var before, last := previous[..|previous| - 1], previous[|previous| - 1];
      assert previous == before + [last];
      LastAuditAdds(users, previous, before, last);
      AuditsAddUp(users, before);
    }
  }

  lemma LastAttemptAdds(users: seq<nat>, previous: seq<PaidAudit>, records: seq<Attempt>, before: seq<Attempt>,
                        last: Attempt)
    requires Ascending(users) && last.user in users && records == before + [last]
    ensures CapacityOver(users, records, previous) == CapacityOver(users, before, previous) + CreditsOf(last)
  {
    OneMoreAttempt(users, before, previous, last);
  }

  lemma {:induction false} CapacitiesAddUp(users: seq<nat>, records: seq<Attempt>, previous: seq<PaidAudit>)
    requires Ascending(users) && ListsAttempts(users, records) && ListsAudits(users, previous)
    ensures CapacityOver(users, records, previous) == Credits(records) + Points(previous)
    decreases |records|
  {
    if records == [] {
      AuditsAddUp(users, previous);
    } else {
      var before, last := records[..|records| - 1], records[|records| - 1];
      assert records == before + [last];
      LastAttemptAdds(users, previous, records, before, last);
      CapacitiesAddUp(users, before, previous);
    }
  }

  function CapacitySum(rows: seq<(nat, Totals)>): nat {
    if rows == [] then 0 else rows[0].1.capacity + CapacitySum(rows[1..])
  }

  lemma {:induction false} PerUserSum(users: seq<nat>, records: seq<Attempt>, previous: seq<PaidAudit>)
    ensures CapacitySum(PerUser(users, records, previous)) == CapacityOver(users, records, previous)
  {
    if users != [] {
      assert PerUser(users, records, previous)[1..] == PerUser(users[1..], records, previous);
      PerUserSum(users[1..], records, previous);
    }
  }

  /** The rows per person name each person once and their capacities add up to the total, for any filter. */
  lemma PerUserCapacitiesAddUp(attempts: seq<Attempt>, audits: seq<PaidAudit>, budget: Option<nat>, month: int,
                               user: Option<nat>)
    ensures var s := Summarize(attempts, audits, budget, month, user);
      CapacitySum(s.users) == s.total.capacity
      && forall i, j | 0 <= i < j < |s.users| :: s.users[i].0 < s.users[j].0
  {
    var records := Records(attempts, month, user);
    var previous := Previous(audits, attempts, month, user);
    UsersCoverAll(records, previous);
    var users := UsersOf(records, previous);
    CapacitiesAddUp(users, records, previous);
    PerUserSum(users, records, previous);
  }

  /** An exchange under a key never used. */
  predicate Fresh(x: Exchange, attempts: seq<Attempt>) {
    x.cost > 0 && !Measured(attempts, x.key)
  }

  lemma {:induction false} UnmeasuredHasNoLatest(attempts: seq<Attempt>, key: string)
    ensures Latest(attempts, key) < 0 <==> !Measured(attempts, key)
  {
  }

  /** The organization reads «blocked» exactly when every exchange that costs something is refused. */
  lemma BlockedIffEveryExchangeIsRefused(attempts: seq<Attempt>, audits: seq<PaidAudit>, budget: Option<nat>,
                                         month: int, x: Exchange, id: nat)
    requires x.cost > 0
    ensures var blocked := Summarize(attempts, audits, budget, month, None).budgetBlocked;
      (blocked ==> !Begin(attempts, audits, budget, x, month, id).1.Begun?)
      && (!blocked && Fresh(x.(cost := 1), attempts) ==>
            Begin(attempts, audits, budget, x.(cost := 1), month, id).1.Begun?)
  {
    CapacityIsConsumed(attempts, audits, budget, month);
    UnmeasuredHasNoLatest(attempts, x.key);
  }

  lemma {:induction false} UserRecordsAreFewer(attempts: seq<Attempt>, month: int, user: nat)
    ensures Credits(Records(attempts, month, Some(user))) <= Credits(Records(attempts, month, None))
  {
    if attempts != [] {
      var n := |attempts| - 1;
      UserRecordsAreFewer(attempts[..n], month, user);
      var a := attempts[n];
      var x, y := Records(attempts[..n], month, Some(user)), Records(attempts[..n], month, None);
      assert (x + [a])[..|x|] == x && (y + [a])[..|y|] == y && x + [] == x && y + [] == y;
    }
  }

  lemma {:induction false} UserPreviousAreFewer(audits: seq<PaidAudit>, attempts: seq<Attempt>, month: int, user: nat)
    ensures Points(Previous(audits, attempts, month, Some(user))) <= Points(Previous(audits, attempts, month, None))
  {
    if audits != [] {
      var n := |audits| - 1;
      UserPreviousAreFewer(audits[..n], attempts, month, user);
      var a := audits[n];
      var x, y := Previous(audits[..n], attempts, month, Some(user)), Previous(audits[..n], attempts, month, None);
      assert (x + [a])[..|x|] == x && (y + [a])[..|y|] == y && x + [] == x && y + [] == y;
    }
  }

  /** A member's own summary compares only their own capacity with the budget: «blocked» there still means every
      exchange is refused, but not the other way round. */
  lemma MemberBlockedImpliesRefused(attempts: seq<Attempt>, audits: seq<PaidAudit>, budget: Option<nat>,
                                    month: int, user: nat, x: Exchange, id: nat)
    requires x.cost > 0 && Summarize(attempts, audits, budget, month, Some(user)).budgetBlocked
    ensures !Begin(attempts, audits, budget, x, month, id).1.Begun?
  {
    UserRecordsAreFewer(attempts, month, user);
    UserPreviousAreFewer(audits, attempts, month, user);
    BlockedIffEveryExchangeIsRefused(attempts, audits, budget, month, x, id);
  }

  lemma {:induction false} OwnRecords(attempts: seq<Attempt>, month: int, user: nat)
    ensures OfUser(Records(attempts, month, None), user) == Records(attempts, month, Some(user))
  {
    if attempts != [] {
      var n := |attempts| - 1;
      OwnRecords(attempts[..n], month, user);
      var all := Records(attempts[..n], month, None);
      assert (all + [attempts[n]])[..|all|] == all && all + [] == all;
      assert Records(attempts[..n], month, Some(user)) + [] == Records(attempts[..n], month, Some(user));
    }
  }

  lemma {:induction false} OwnPrevious(audits: seq<PaidAudit>, attempts: seq<Attempt>, month: int, user: nat)
    ensures PreviousOf(Previous(audits, attempts, month, None), user) == Previous(audits, attempts, month, Some(user))
  {
    if audits != [] {
      var n := |audits| - 1;
      OwnPrevious(audits[..n], attempts, month, user);
      var all := Previous(audits[..n], attempts, month, None);
      assert (all + [audits[n]])[..|all|] == all && all + [] == all;
      assert Previous(audits[..n], attempts, month, Some(user)) + [] == Previous(audits[..n], attempts, month, Some(user));
    }
  }

  /** What a member reads of themselves is their row in the owner's summary. */
  lemma MemberReadsTheirRow(attempts: seq<Attempt>, audits: seq<PaidAudit>, budget: Option<nat>, month: int, i: nat)
    requires i < |Summarize(attempts, audits, budget, month, None).users|
    ensures var (user, totals) := Summarize(attempts, audits, budget, month, None).users[i];
      Summarize(attempts, audits, budget, month, Some(user)).total == totals
  {
    var user := Summarize(attempts, audits, budget, month, None).users[i].0;
    OwnRecords(attempts, month, user);
    OwnPrevious(audits, attempts, month, user);
  }

  /** One member spent a credit of the month, another nine. */
  function TwoMembers(month: int): seq<Attempt> {
    [Attempt(0, 1, "a", "hash", "agent", 1, Succeeded, 1, Some((1, 1)), None, month),
     Attempt(1, 2, "b", "hash", "agent", 1, Succeeded, 9, Some((1, 1)), None, month)]
  }

  lemma TwoMembersRecords(month: int, user: nat)
    ensures var two := TwoMembers(month);
      Records(two, month, Some(user)) == if user == 1 then [two[0]] else if user == 2 then [two[1]] else []
  {
    var two := TwoMembers(month);
    var one := two[..1];
    assert one == [two[0]] && one[..0] == [];
    assert Records(one, month, Some(user)) == if user == 1 then [two[0]] else [];
  }

  lemma OneRecordCredits(a: Attempt)
    ensures Credits([a]) == CreditsOf(a)
  {
    assert [a][..0] == [];
  }

  lemma TwoMembersConsume(month: int)
    ensures Consumed(TwoMembers(month), [], month) == 10
  {
    var two := TwoMembers(month);
    assert two[..1] == [two[0]] && two[..1][..0] == [];
    assert Reserved(two[..1], month) == 1;
  }

  /** On a budget of ten neither member reads «blocked», and every exchange that costs something is refused. */
  lemma AnUnblockedMemberIsRefused(month: int, user: nat, x: Exchange, id: nat)
    requires x.cost > 0
    ensures !Summarize(TwoMembers(month), [], Some(10), month, Some(user)).budgetBlocked
    ensures !Begin(TwoMembers(month), [], Some(10), x, month, id).1.Begun?
  {
    TwoMembersRecords(month, user);
    OneRecordCredits(TwoMembers(month)[0]);
    OneRecordCredits(TwoMembers(month)[1]);
    TwoMembersConsume(month);
  }
}
