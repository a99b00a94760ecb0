/** What a run may say of itself (`postconditions.py`): the re-read of the windows a step promised, and the outcome
    written on the receipt. */
module Postconditions {
  import opened Basics
  import opened JobTypes

  // ---------------------------------------------------------------- the re-read

  type Id = string

  /** What a new window is recognized by. */
  datatype Look = Look(location: string, quantity: int)

  datatype Window = Window(id: Id, look: Look)

  datatype Change =
    | Add(after: Look)
    | Remove(gone: Id)
    | Edit(id: Id, before: Id, quantity: int)

  /** The identities the changes start from; a new window starts from none. */
  function Known(diff: seq<Change>): set<Id> {
    set i | 0 <= i < |diff| :: match diff[i] case Add(_) => "" case Remove(gone) => gone case Edit(_, before, _) => before
  }

  function Wanted(diff: seq<Change>): seq<Look> {
    if diff == [] then []
    else
      var c := diff[|diff| - 1];
      Wanted(diff[..|diff| - 1]) + if c.Add? then [c.after] else []
  }

  function Free(saved: map<Id, Look>, known: set<Id>): map<Id, Look> {
    map id | id in saved && id !in known :: saved[id]
  }

  /** Distinct saved windows for the wanted ones, each with the look that was wanted. */
  ghost predicate Fulfils(at: seq<Id>, wanted: seq<Look>, free: map<Id, Look>) {
    && |at| == |wanted|
    && (forall i | 0 <= i < |at| :: at[i] in free && free[at[i]] == wanted[i])
    && (forall i, j | 0 <= i < j < |at| :: at[i] != at[j])
  }

  predicate Kept(saved: map<Id, Look>, c: Change) {
    match c
    case Add(_) => true
    case Remove(gone) => gone !in saved
    case Edit(id, _, quantity) => id in saved && saved[id].quantity == quantity
  }

  /** Every new window has a saved window of its own, every removed one is gone and every edited one is there with its
      quantity. */
  ghost predicate Promised(saved: map<Id, Look>, diff: seq<Change>) {
    && (exists at :: Fulfils(at, Wanted(diff), Free(saved, Known(diff))))
    && (forall i | 0 <= i < |diff| :: Kept(saved, diff[i]))
  }

  function Holders(free: map<Id, Look>, look: Look): set<Id> {
    set id | id in free && free[id] == look
  }

  ghost predicate Enough(wanted: seq<Look>, free: map<Id, Look>) {
    forall look :: multiset(wanted)[look] <= |Holders(free, look)|
  }

  lemma HoldersWithout(free: map<Id, Look>, id: Id, look: Look)
    requires id in free
    ensures |Holders(free - {id}, look)| == |Holders(free, look)| - if free[id] == look then 1 else 0
  {
    if free[id] == look {
      assert Holders(free - {id}, look) == Holders(free, look) - {id};
    } else {
      assert Holders(free - {id}, look) == Holders(free, look);
    }
  }

  lemma LastWanted(wanted: seq<Look>, look: Look)
    requires wanted != []
    ensures multiset(wanted)[look]
         == multiset(wanted[..|wanted| - 1])[look] + if wanted[|wanted| - 1] == look then 1 else 0
  {
    assert wanted == wanted[..|wanted| - 1] + [wanted[|wanted| - 1]];
  }

  /** Counting enough of each look is having distinct windows for all. */
  lemma {:induction false} EnoughGivesWindows(wanted: seq<Look>, free: map<Id, Look>) returns (at: seq<Id>)
    requires Enough(wanted, free)
    ensures Fulfils(at, wanted, free)
    decreases |wanted|
  {
    if wanted == [] {
      at := [];
    } else {
      var n := |wanted| - 1;
      var look := wanted[n];
      LastWanted(wanted, look);
      assert |Holders(free, look)| > 0;
      var id :| id in Holders(free, look);
      forall other ensures multiset(wanted[..n])[other] <= |Holders(free - {id}, other)| {
        LastWanted(wanted, other);
        HoldersWithout(free, id, other);
      }
      var rest := EnoughGivesWindows(wanted[..n], free - {id});
      at := rest + [id];
    }
  }

  lemma {:induction false} WindowsGiveEnough(at: seq<Id>, wanted: seq<Look>, free: map<Id, Look>)
    requires Fulfils(at, wanted, free)
    ensures Enough(wanted, free)
    decreases |at|
  {
    if at != [] {
      var n := |at| - 1;
      WindowsGiveEnough(at[..n], wanted[..n], free - {at[n]});
      forall look ensures multiset(wanted)[look] <= |Holders(free, look)| {
        LastWanted(wanted, look);
        HoldersWithout(free, at[n], look);
      }
    }
  }

  method CountWanted(diff: seq<Change>) returns (expected: multiset<Look>)
    ensures expected == multiset(Wanted(diff))
  {
    expected := multiset{};
    for i := 0 to |diff|
      invariant expected == multiset(Wanted(diff[..i]))
    {
      assert diff[..i + 1][..i] == diff[..i];
      if diff[i].Add? {
        expected := expected + multiset{diff[i].after};
      }
    }
    assert diff[..|diff|] == diff;
  }

  method CountFree(free: map<Id, Look>) returns (available: multiset<Look>)
    ensures forall look :: available[look] == |Holders(free, look)|
  {
    available := multiset{};
    var left := free;
    while left != map[]
      invariant forall id | id in left :: id in free && left[id] == free[id]
      invariant forall look :: available[look] + |Holders(left, look)| == |Holders(free, look)|
      decreases |left|
    {
      var id :| id in left;
      forall look ensures available[look] + (if left[id] == look then 1 else 0) + |Holders(left - {id}, look)|
                       == |Holders(free, look)| {
        HoldersWithout(left, id, look);
      }
      available := available + multiset{left[id]};
      left := left - {id};
    }
    assert forall look :: Holders(left, look) == {};
  }

  lemma EnoughIsWindows(wanted: seq<Look>, free: map<Id, Look>)
    ensures Enough(wanted, free) <==> exists at :: Fulfils(at, wanted, free)
  {
    if Enough(wanted, free) {
      var at := EnoughGivesWindows(wanted, free);
    }
    if at :| Fulfils(at, wanted, free) {
      WindowsGiveEnough(at, wanted, free);
    }
  }

  /** How many of the looks asked for are not saved often enough. */
  method MissingLooks(expected: multiset<Look>, available: multiset<Look>) returns (problems: nat)
    ensures problems == 0 <==> forall look :: expected[look] <= available[look]
  {
    problems := 0;
    var looks := set look | look in expected;
    while looks != {}
      invariant problems == 0 <==> forall look | look !in looks :: expected[look] <= available[look]
      decreases |looks|
    {
      var look :| look in looks;
      if available[look] < expected[look] {
        problems := problems + 1;
      }
      looks := looks - {look};
    }
  }

  /** The check passes exactly when what was promised is what is saved. */
  method ProjectOpsCheck(saved: map<Id, Look>, diff: seq<Change>) returns (passed: bool)
    ensures passed <==> Promised(saved, diff)
  {
    var expected := CountWanted(diff);
    var available := CountFree(Free(saved, Known(diff)));
    var problems := MissingLooks(expected, available);
    EnoughIsWindows(Wanted(diff), Free(saved, Known(diff)));
    ghost var missing := problems;
    for i := 0 to |diff|
      invariant problems == 0 <==> missing == 0 && forall k | 0 <= k < i :: Kept(saved, diff[k])
    {
      match diff[i] {
        case Add(_) =>
        case Remove(gone) =>
          if gone in saved {
            problems := problems + 1;
          }
        case Edit(id, _, quantity) =>
          if id !in saved || saved[id].quantity != quantity {
            problems := problems + 1;
          }
      }
    }
    passed := problems == 0;
  }

  // ---------------------------------------------------------------- the receipt

  datatype Mode = Chat | Work

  datatype Autonomy = Propose | Approve | Draft

  /** A step as the receipt reads it: the last decision recorded for it, and whether its re-read passed. */
  datatype Judged = Judged(step: Step, decision: Option<Action>, verified: bool)

  datatype Status = IsApplied | IsBlocked | IsPending | IsProposed | IsUndone

  /** Where a step with no decision stands. */
  function Waiting(mode: Mode, autonomy: Autonomy): Status {
    if autonomy in {Propose, Approve} || mode.Chat? then IsProposed else IsPending
  }

  /** The line a step gets on the receipt; other kinds get none. */
  function Line(j: Judged, mode: Mode, autonomy: Autonomy): Option<Status> {
    var applied := j.step.applied.Some? || j.decision == Some(Applied);
    match j.step.kind
    case Other => None
    case Prepare => Some(IsPending)
    case QuoteDraft =>
      Some(if applied then IsApplied else if j.step.applyError then IsBlocked else Waiting(mode, autonomy))
    case _ =>
      Some(if applied then
             if j.step.kind.ProjectOps? && j.step.applied.Some? && !j.verified then IsBlocked else IsApplied
           else if j.decision == Some(Undone) then IsUndone
           else if j.step.applyError || j.decision in {Some(Declined), Some(ApplyFailed)} then IsBlocked
           else Waiting(mode, autonomy))
  }

  /** The work a run opened: whether it could be read again, and how many windows it has. */
  datatype Created = Created(readable: bool, windows: nat)

  datatype Run = Run(
    steps: seq<Judged>, created: Option<Created>, questions: nat, unread: bool, mode: Mode, autonomy: Autonomy)

  datatype Verdict = Answer | Blocked | Proposal | Partial | Complete

  function LineAt(r: Run, i: nat): Option<Status>
    requires i < |r.steps|
  {
    Line(r.steps[i], r.mode, r.autonomy)
  }

  predicate AnyOf(r: Run, n: nat, status: Status)
    requires n <= |r.steps|
  {
    exists i | 0 <= i < n :: LineAt(r, i) == Some(status)
  }

  predicate Any(r: Run, status: Status) {
    AnyOf(r, |r.steps|, status)
  }

  /** A step other than a prepared action has a line. */
  predicate AnyGated(r: Run, n: nat)
    requires n <= |r.steps|
  {
    exists i | 0 <= i < n :: Gated(r.steps[i].step.kind) && !r.steps[i].step.kind.Prepare?
  }

  predicate Plans(r: Run) {
    exists i | 0 <= i < |r.steps| :: r.steps[i].step.kind.ProjectOps?
  }

  /** A work opened by the run, which saved nothing in it and planned nothing for it. */
  predicate EmptyDestination(r: Run) {
    r.created.Some? && r.created.value.readable && r.created.value.windows == 0 && !Plans(r)
  }

  function Outcome(r: Run): Verdict {
    var open := r.questions > 0 || r.unread;
    var applied, pending, blocked := Any(r, IsApplied), Any(r, IsPending) || Any(r, IsProposed), Any(r, IsBlocked);
    if !AnyGated(r, |r.steps|) && r.created.None? && !open && !pending then Answer
    else if blocked && !applied && !pending && !open then Blocked
    else if r.mode.Chat? || r.autonomy.Propose? then if open then Partial else Proposal
    else if r.autonomy.Approve? && pending && !applied then if open then Partial else Proposal
    else if EmptyDestination(r) || blocked || open || Any(r, IsProposed) then Partial
    else Complete
  }

  method BuildReceipt(r: Run) returns (outcome: Verdict)
    ensures outcome == Outcome(r)
  {
    var planned := false;
    for i := 0 to |r.steps|
      invariant planned <==> exists k | 0 <= k < i :: r.steps[k].step.kind.ProjectOps?
    {
      if r.steps[i].step.kind.ProjectOps? {
        planned := true;
      }
    }
    var empty := r.created.Some? && r.created.value.readable && r.created.value.windows == 0 && !planned;
    var gated, applied, pending, blocked, proposed := false, false, false, false, false;
    for i := 0 to |r.steps|
      invariant gated <==> AnyGated(r, i)
      invariant applied <==> AnyOf(r, i, IsApplied)
      invariant pending <==> AnyOf(r, i, IsPending) || AnyOf(r, i, IsProposed)
      invariant blocked <==> AnyOf(r, i, IsBlocked)
      invariant proposed <==> AnyOf(r, i, IsProposed)
    {
      var j := r.steps[i];
      ghost var line := LineAt(r, i);
      if j.step.kind.Prepare? {
        pending := true;
        continue;
      }
      if j.step.kind.Other? {
        continue;
      }
      gated := true;
      var done := j.step.applied.Some? || j.decision == Some(Applied);
      if j.step.kind.QuoteDraft? {
        if done {
          applied := true;
        } else if j.step.applyError {
          blocked := true;
        } else {
          pending := true;
          proposed := proposed || r.autonomy in {Propose, Approve} || r.mode.Chat?;
        }
        continue;
      }
      if done {
        if j.step.kind.ProjectOps? && j.step.applied.Some? && !j.verified {
          blocked := true;
          continue;
        }
        applied := true;
      } else if j.decision == Some(Undone) {
      } else if j.step.applyError || j.decision in {Some(Declined), Some(ApplyFailed)} {
        blocked := true;
      } else {
        pending := true;
        proposed := proposed || r.autonomy in {Propose, Approve} || r.mode.Chat?;
      }
    }
    var open := r.questions > 0 || r.unread;
    if !gated && r.created.None? && !open && !pending {
      outcome := Answer;
    } else if blocked && !applied && !pending && !open {
      outcome := Blocked;
    } else if r.mode.Chat? || r.autonomy.Propose? {
      outcome := if open then Partial else Proposal;
    } else if r.autonomy.Approve? && pending && !applied {
      outcome := if open then Partial else Proposal;
    } else if empty || blocked || open || proposed {
      outcome := Partial;
    } else {
      outcome := Complete;
    }
  }

  /** A step is settled when it is applied and its windows verified, or undone. */
  predicate SettledStep(j: Judged) {
    && !j.step.kind.Prepare?
    && (Gated(j.step.kind) ==>
          || ((j.step.applied.Some? || j.decision == Some(Applied))
              && (j.step.kind.ProjectOps? && j.step.applied.Some? ==> j.verified))
          || (!j.step.kind.QuoteDraft? && j.step.applied.None? && j.decision == Some(Undone)))
  }

  /** A run that says «complete» has no blocked step, no open question and no partly read file: its steps are settled,
      or wait for a person in a run that neither proposes nor asks for approval. */
  lemma CompleteHasNothingBlockedOrOpen(r: Run)
    requires Outcome(r) == Complete
    ensures r.questions == 0 && !r.unread && r.mode.Work? && !r.autonomy.Propose? && !EmptyDestination(r)
    ensures forall i | 0 <= i < |r.steps| :: LineAt(r, i) != Some(IsBlocked) && LineAt(r, i) != Some(IsProposed)
    ensures forall i | 0 <= i < |r.steps| && LineAt(r, i) != Some(IsPending) :: SettledStep(r.steps[i])
  {
    forall i | 0 <= i < |r.steps| ensures LineAt(r, i) != Some(IsBlocked) && LineAt(r, i) != Some(IsProposed) {
      assert LineAt(r, i) == Some(IsBlocked) ==> Any(r, IsBlocked);
      assert LineAt(r, i) == Some(IsProposed) ==> Any(r, IsProposed);
    }
    forall i | 0 <= i < |r.steps| && LineAt(r, i) != Some(IsPending) ensures SettledStep(r.steps[i]) {
      assert LineAt(r, i) != Some(IsBlocked) && LineAt(r, i) != Some(IsProposed);
    }
  }

  /** Among runs that change something, «complete» is said exactly of those that work, propose nothing, have nothing
      blocked, nothing asked, nothing unread and no empty destination. */
  lemma CompleteExactly(r: Run)
    requires AnyGated(r, |r.steps|) || r.created.Some?
    ensures Outcome(r) == Complete <==>
      && r.mode.Work? && !r.autonomy.Propose? && r.questions == 0 && !r.unread && !EmptyDestination(r)
      && (forall i | 0 <= i < |r.steps| :: LineAt(r, i) != Some(IsBlocked) && LineAt(r, i) != Some(IsProposed))
      && (r.autonomy.Approve? ==> Any(r, IsApplied) || !Any(r, IsPending))
  {
    assert Any(r, IsBlocked) <==> exists i | 0 <= i < |r.steps| :: LineAt(r, i) == Some(IsBlocked);
    assert Any(r, IsProposed) <==> exists i | 0 <= i < |r.steps| :: LineAt(r, i) == Some(IsProposed);
  }

  /** Not promised by «complete»: that nothing waits. A drafted change nobody decided leaves the run complete. */
  lemma CompleteMayWait(content: nat)
    ensures var j := Judged(Step(BatchOps, content, None, false, None, false), None, false);
      var r := Run([j], None, 0, false, Work, Draft);
      Outcome(r) == Complete && LineAt(r, 0) == Some(IsPending)
  {
    var j := Judged(Step(BatchOps, content, None, false, None, false), None, false);
    var r := Run([j], None, 0, false, Work, Draft);
    assert LineAt(r, 0) == Some(IsPending) && Gated(r.steps[0].step.kind);
    assert AnyGated(r, 1);
  }

  /** Nor that the work it opened can still be read. */
  lemma CompleteMayLackItsWork()
    ensures Outcome(Run([], Some(Created(false, 0)), 0, false, Work, Draft)) == Complete
  {
  }
}
