/** The organization's billing rows as an object: what `invoke` and the holds write, step by step, proved against the
    steps of the protocol. */
module MeteringRecords {
  import opened Basics
  import opened Metering
  import Usage = UsageLedger

  class Account {
    var books: Books
    var saved: Option<Books>
    var inFlight: set<string>
    var attempts: seq<Usage.Attempt>
    var holds: seq<Hold>
    var budget: Option<nat>
    var calls: seq<Call>
    var nextAudit: nat

    function State(): World
      reads this
    {
      World(books, saved, inFlight, attempts, holds, budget, calls, nextAudit)
    }

    /** The audit that completed a key, if one did. */
    method LookUp(key: string) returns (found: Option<Audit>)
      ensures found == FindAudit(books.audits, key)
    {
      var i := |books.audits|;
      assert books.audits[..i] == books.audits;
      while i > 0 && books.audits[i - 1].key != key
        invariant i <= |books.audits| && FindAudit(books.audits, key) == FindAudit(books.audits[..i], key)
      {
        assert books.audits[..i][..i - 1] == books.audits[..i - 1];
        i := i - 1;
      }
      found := if i == 0 then None else Some(books.audits[i - 1]);
    }

    method LookUpHold(key: string) returns (i: nat)
      ensures i == HoldAt(holds, key)
    {
      i := 0;
      while i < |holds| && holds[i].key != key
        invariant i <= |holds| && HoldAt(holds, key) == i + HoldAt(holds[i..], key)
      {
        assert holds[i..][1..] == holds[i + 1..];
        i := i + 1;
      }
    }

    method SumHeld(key: string) returns (held: nat)
      ensures held == HeldBeside(holds, key)
    {
      held := 0;
      for i := 0 to |holds|
        invariant held == HeldBeside(holds[..i], key)
      {
        assert holds[..i + 1][..i] == holds[..i];
        if holds[i].key != key && holds[i].status in {Active, Doubtful} {
          held := held + holds[i].credits;
        }
      }
      assert holds[..|holds|] == holds;
    }

    method MoveTo(c: nat, pc: Pc)
      requires c < |calls|
      modifies this`calls
      ensures State() == Move(old(State()), c, pc)
    {
      calls := calls[c := calls[c].(pc := pc)];
    }

    /** The first transaction of a call: replay, entitlement, route and balance. */
    method Open(c: nat, entitled: bool, found: Option<Route>)
      requires c < |calls| && calls[c].pc == Arrived && HasTheLock(State(), c)
      modifies this
      ensures State() == Next(old(State()), Event.Open(c, entitled, found))
    {
      var r := calls[c].request;
      var audit := LookUp(r.key);
      if audit.Some? {
        if audit.value.envelope.capability != r.capability || audit.value.inputHash != r.inputHash
           || audit.value.tool != ToolName(r) {
          MoveTo(c, Done(Refused(Conflict)));
        } else {
          MoveTo(c, Done(Answered(Unseal(audit.value.id, audit.value.envelope))));
        }
        return;
      }
      if !entitled {
        MoveTo(c, Done(Refused(NoEntitlement)));
      } else if found.None? {
        MoveTo(c, Done(Refused(UnknownCapability)));
      } else if books.balance < found.value.cost {
        MoveTo(c, Done(Refused(NoCredits)));
      } else {
        MoveTo(c, Admitting(found.value));
      }
    }

    /** The hold is taken, reused or refused. */
    method Admit(c: nat)
      requires c < |calls| && calls[c].pc.Admitting? && calls[c].request.key !in inFlight
      modifies this
      ensures State() == Next(old(State()), Event.Admit(c))
    {
      var key, route := calls[c].request.key, calls[c].pc.route;
      if route.cost == 0 {
        MoveTo(c, Done(Refused(InvalidCredits)));
        return;
      }
      var i := LookUpHold(key);
      if i < |holds| && holds[i].status in {Active, Settled} {
        MoveTo(c, Beginning(route));
        return;
      }
      if i < |holds| && holds[i].status == Doubtful {
        MoveTo(c, Done(Refused(Uncertain)));
        return;
      }
      var reserved := SumHeld(key);
      var balance := if saved.Some? then saved.value.balance else books.balance;
      if balance - reserved < route.cost {
        MoveTo(c, Done(Refused(NoCredits)));
        return;
      }
      if i < |holds| {
        holds := holds[i := Hold(key, Active, route.cost)];
      } else {
        holds := holds + [Hold(key, Active, route.cost)];
      }
      MoveTo(c, Beginning(route));
    }

    /** An active hold is released, or left uncertain after a timeout. */
    method FinishWithoutDebit(c: nat)
      requires c < |calls| && calls[c].pc.Releasing? && calls[c].request.key !in inFlight
      modifies this
      ensures State() == Next(old(State()), Release(c))
    {
      var i := LookUpHold(calls[c].request.key);
      if i < |holds| && holds[i].status == Active {
        holds := holds[i := holds[i].(status := if calls[c].pc.uncertain then Doubtful else Released)];
      }
      MoveTo(c, Done(calls[c].pc.result));
    }

    /** The last transaction of a call: replay again, then audit and debit together, then the hold. */
    method Settle(c: nat, entitled: bool, month: int)
      requires c < |calls| && calls[c].pc.Settling? && HasTheLock(State(), c)
      modifies this
      ensures State() == Next(old(State()), Event.Settle(c, entitled, month))
    {
      var r, pc := calls[c].request, calls[c].pc;
      var known := LookUp(r.key);
      if known.Some? {
        var replay := Replay(known.value, r);
        MoveTo(c, if replay.Answered? then Releasing(false, replay) else Done(replay));
        return;
      }
      var before := books;
      var id := nextAudit;
      // The audit first, then the debit: a refused debit takes the audit back.
      books := books.(audits := books.audits + [
        Audit(id, r.key, r.user, ToolName(r), r.inputHash, pc.route.cost, Seal(r, pc.route, pc.answer, pc.attempt), month)]);
      if !entitled || books.balance < pc.route.cost {
        books := before;
        MoveTo(c, Done(Refused(if entitled then NoCredits else NoEntitlement)));
        return;
      }
      books := books.(balance := books.balance - pc.route.cost, ledger := books.ledger + [Debit(pc.route.cost, id)]);
      nextAudit := id + 1;
      if saved.Some? {
        inFlight := inFlight + {r.key};
      } else {
        var i := LookUpHold(r.key);
        if i < |holds| && holds[i].status == Active {
          holds := holds[i := holds[i].(status := Settled)];
        }
      }
      MoveTo(c, Done(Answered(Respond(id, r, pc.route, pc.answer, pc.attempt))));
    }
  }
}
