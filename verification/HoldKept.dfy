/** When a call keeps its hold: nobody else releases it between admission and settlement. Keys that are used by one
    call at a time are enough for every call, and then whatever was admitted can be paid. */
module HoldKept {
  import opened Basics
  import opened Metering
  import opened MeteringSafety
  import opened MeteringResults
  import opened HoldCover
  import Usage = UsageLedger

  /** Between its admission and its settlement. */
  predicate Underway(pc: Pc) {
    pc.Beginning? || Paying(pc)
  }

  /** The hold of the call's key is active, covers its cost and is not settled by the open round. */
  predicate Owns(w: World, c: nat)
    requires c < |w.calls| && Underway(w.calls[c].pc)
  {
    var key := w.calls[c].request.key;
    var i := HoldAt(w.holds, key);
    i < |w.holds| && w.holds[i].status == Active && w.holds[i].credits >= w.calls[c].pc.route.cost && key !in w.inFlight
  }

  // ---------------------------------------------------------------- holds by key

  lemma FirstHold(holds: seq<Hold>, i: nat, key: string)
    requires i < |holds| && holds[i].key == key && forall k | 0 <= k < i :: holds[k].key != key
    ensures HoldAt(holds, key) == i
  {
  }

  /** Rewriting holds in place moves none; a new one goes to the end. */
  lemma HoldStays(before: seq<Hold>, after: seq<Hold>, key: string)
    requires |before| <= |after| && forall k | 0 <= k < |before| :: after[k].key == before[k].key
    ensures HoldAt(before, key) < |before| ==> HoldAt(after, key) == HoldAt(before, key)
    ensures |before| == |after| ==> HoldAt(after, key) == HoldAt(before, key)
  {
    var i := HoldAt(before, key);
    if i < |before| {
      FirstHold(after, i, key);
    }
  }

  /** No event removes, moves or renames a hold. */
  lemma HoldsStay(w: World, e: Event)
    ensures |w.holds| <= |Next(w, e).holds|
    ensures forall k | 0 <= k < |w.holds| :: Next(w, e).holds[k].key == w.holds[k].key
  {
  }

  /** The key an event's hold write goes to. */
  predicate Touches(w: World, e: Event, key: string) {
    match e
    case Admit(c) => c < |w.calls| && w.calls[c].pc.Admitting? && w.calls[c].request.key == key
    case Release(c) => c < |w.calls| && w.calls[c].pc.Releasing? && w.calls[c].request.key == key
    case Settle(c, _, _) => c < |w.calls| && w.calls[c].pc.Settling? && w.calls[c].request.key == key
    case Sweep(k) => k == key
    case Conciliate(k, _) => k == key
    case ReleaseHeld(k) => k == key
    case RoundCommit => key in w.inFlight
    case _ => false
  }

  /** Every other event leaves the hold of a key as it is. */
  lemma UntouchedEntry(w: World, e: Event, i: nat)
    requires i < |w.holds| && !Touches(w, e, w.holds[i].key)
    ensures i < |Next(w, e).holds| && Next(w, e).holds[i] == w.holds[i]
  {
  }

  lemma OnlyItsOwnIsAdded(w: World, e: Event, i: nat)
    requires |w.holds| <= i < |Next(w, e).holds|
    ensures Touches(w, e, Next(w, e).holds[i].key)
  {
  }

  lemma UntouchedHold(w: World, e: Event, key: string)
    requires !Touches(w, e, key)
    ensures var v := Next(w, e);
      var i, j := HoldAt(w.holds, key), HoldAt(v.holds, key);
      if i < |w.holds| then j == i && v.holds[i] == w.holds[i] else j == |v.holds|
  {
    var v, i, j := Next(w, e), HoldAt(w.holds, key), HoldAt(Next(w, e).holds, key);
    HoldsStay(w, e);
    HoldStays(w.holds, v.holds, key);
    if i < |w.holds| {
      UntouchedEntry(w, e, i);
    } else if j < |v.holds| {
      assert j >= |w.holds|;
      OnlyItsOwnIsAdded(w, e, j);
    }
  }

  lemma UntouchedInFlight(w: World, e: Event, key: string)
    requires key !in w.inFlight && !Touches(w, e, key)
    ensures key !in Next(w, e).inFlight
  {
  }

  lemma StepKeepsSpent(w: World, e: Event, key: string)
    requires Spent(w.attempts, key)
    ensures Spent(Next(w, e).attempts, key)
  {
    if e.Begin? && e.c < |w.calls| && w.calls[e.c].pc.Beginning? {
      BeginGrows(w, e.c, e.month, key);
      BeginMoves(w, e.c, e.month);
    } else if e.Report? && e.c < |w.calls| && w.calls[e.c].pc.Reporting? {
      SpentGrows(w.attempts, Next(w, e).attempts, key);
    } else {
      assert Next(w, e).attempts == w.attempts;
    }
  }

  // ---------------------------------------------------------------- one call and its hold

  /** Nobody else gives the hold of call c up: no sweep or release of its key, no release by another call of it. */
  predicate LeavesHold(w: World, e: Event, c: nat)
    requires c < |w.calls|
  {
    var key := w.calls[c].request.key;
    && (e.Sweep? || e.ReleaseHeld? ==> e.key != key)
    && (e.Release? && e.c < |w.calls| && e.c != c ==> w.calls[e.c].request.key != key)
  }

  /** A call underway owns its hold, unless its exchange is spent and it can only be refused. */
  ghost predicate OwnsOrRefused(w: World, c: nat)
    requires c < |w.calls|
  {
    var call := w.calls[c];
    && (Paying(call.pc) ==> Owns(w, c))
    && (call.pc.Beginning? ==> Owns(w, c) || Spent(w.attempts, call.request.key))
  }

  /** Calls stay in place, with their requests. */
  lemma CallStays(w: World, e: Event, c: nat)
    requires c < |w.calls|
    ensures c < |Next(w, e).calls| && Next(w, e).calls[c].request == w.calls[c].request
    ensures !StepsCall(e, c) ==> Next(w, e).calls[c] == w.calls[c]
  {
    if e.Open? || e.Admit? || e.Begin? || e.Hear? || e.Report? || e.Release? || e.Settle? {
      OneCallMoves(w, e);
    }
  }

  lemma OneCallMoves(w: World, e: Event)
    requires e.Open? || e.Admit? || e.Begin? || e.Hear? || e.Report? || e.Release? || e.Settle?
    ensures var v := Next(w, e);
      |v.calls| == |w.calls|
      && (e.c < |w.calls| ==> v.calls == w.calls[e.c := w.calls[e.c].(pc := v.calls[e.c].pc)])
      && (e.c >= |w.calls| ==> v == w)
  {
  }

  predicate StepsCall(e: Event, c: nat) {
    (e.Open? || e.Admit? || e.Begin? || e.Hear? || e.Report? || e.Release? || e.Settle?) && e.c == c
  }

  lemma UntouchedKeepsTheHold(w: World, e: Event, c: nat)
    requires c < |w.calls| && Underway(w.calls[c].pc) && Owns(w, c)
    requires c < |Next(w, e).calls| && Next(w, e).calls[c] == w.calls[c]
    requires !Touches(w, e, w.calls[c].request.key)
    ensures Owns(Next(w, e), c)
  {
    UntouchedHold(w, e, w.calls[c].request.key);
    UntouchedInFlight(w, e, w.calls[c].request.key);
    SameHoldIsOwned(w, Next(w, e), c);
  }

  lemma SameHoldIsOwned(w: World, v: World, c: nat)
    requires c < |w.calls| && Underway(w.calls[c].pc) && Owns(w, c)
    requires c < |v.calls| && v.calls[c] == w.calls[c]
    requires var key := w.calls[c].request.key;
      var i := HoldAt(w.holds, key);
      HoldAt(v.holds, key) == i < |v.holds| && v.holds[i] == w.holds[i] && key !in v.inFlight
    ensures Owns(v, c)
  {
  }

  /** An active hold is neither taken again nor reconciled. */
  lemma ActiveHoldStays(w: World, e: Event, key: string)
    requires var i := HoldAt(w.holds, key); i < |w.holds| && w.holds[i].status == Active
    requires Touches(w, e, key) && (e.Admit? || e.Conciliate?)
    ensures Next(w, e).holds == w.holds && Next(w, e).inFlight == w.inFlight
  {
  }

  /** A step by another call, the wallet or the round. */
  lemma OthersKeepTheHold(w: World, e: Event, c: nat)
    requires Sound(w) && c < |w.calls| && Underway(w.calls[c].pc) && Owns(w, c)
    requires LeavesHold(w, e, c) && !StepsCall(e, c)
    ensures c < |Next(w, e).calls| && OwnsOrRefused(Next(w, e), c)
  {
    CallStays(w, e, c);
    var key := w.calls[c].request.key;
    if !Touches(w, e, key) {
      UntouchedKeepsTheHold(w, e, c);
    } else if e.Settle? {
      if Paying(w.calls[c].pc) {
        OnePayer(w.attempts, w.calls, c, e.c);
      }
      assert PaysItsOwn(w.attempts, w.calls[e.c]);
      assert Spent(w.attempts, key);
      StepKeepsSpent(w, e, key);
    } else {
      ActiveHoldStays(w, e, key);
    }
  }

  /** Its own steps up to the settlement write no hold. */
  lemma OwnStepWritesNoHold(w: World, e: Event, c: nat)
    requires c < |w.calls| && Underway(w.calls[c].pc) && StepsCall(e, c)
    requires c < |Next(w, e).calls| && Underway(Next(w, e).calls[c].pc)
    ensures var v := Next(w, e);
      v.holds == w.holds && v.inFlight == w.inFlight && v.calls[c].pc.route == w.calls[c].pc.route
    ensures w.calls[c].pc.Beginning? && Paying(Next(w, e).calls[c].pc) ==>
      e.Begin? && BeginReply(w, c, e.month).1.Begun?
    ensures Paying(w.calls[c].pc) ==> Paying(Next(w, e).calls[c].pc)
    ensures Next(w, e).calls[c].pc.Beginning? ==> Next(w, e) == w
  {
  }

  lemma OwnStepKeepsTheHold(w: World, e: Event, c: nat)
    requires Sound(w) && c < |w.calls| && Underway(w.calls[c].pc) && OwnsOrRefused(w, c) && StepsCall(e, c)
    ensures c < |Next(w, e).calls| && OwnsOrRefused(Next(w, e), c)
  {
    CallStays(w, e, c);
    if Underway(Next(w, e).calls[c].pc) {
      OwnStepWritesNoHold(w, e, c);
      if w.calls[c].pc.Beginning? && Spent(w.attempts, w.calls[c].request.key) && e.Begin? {
        SpentIsNeverBegun(w, c, e.month);
      }
    }
  }

  lemma StepKeepsTheHold(w: World, e: Event, c: nat)
    requires Sound(w) && c < |w.calls| && !Early(w.calls[c].pc) && OwnsOrRefused(w, c) && LeavesHold(w, e, c)
    ensures c < |Next(w, e).calls| && !Early(Next(w, e).calls[c].pc) && OwnsOrRefused(Next(w, e), c)
  {
    CallStays(w, e, c);
    CallGoesOn(w, e, c);
    if Underway(w.calls[c].pc) {
      if StepsCall(e, c) {
        OwnStepKeepsTheHold(w, e, c);
      } else if Owns(w, c) {
        OthersKeepTheHold(w, e, c);
      } else {
        StepKeepsSpent(w, e, w.calls[c].request.key);
      }
    }
  }

  predicate Early(pc: Pc) {
    pc.Arrived? || pc.Admitting?
  }

  lemma CallGoesOn(w: World, e: Event, c: nat)
    requires c < |w.calls| && !Early(w.calls[c].pc)
    ensures c < |Next(w, e).calls| && !Early(Next(w, e).calls[c].pc)
    ensures !Underway(w.calls[c].pc) ==> !Underway(Next(w, e).calls[c].pc)
  {
    CallStays(w, e, c);
  }

  ghost predicate HoldIsLeft(w: World, events: seq<Event>, c: nat)
    decreases |events|
  {
    c < |w.calls| && (events == [] || (LeavesHold(w, events[0], c) && HoldIsLeft(Next(w, events[0]), events[1..], c)))
  }

  lemma {:induction false} RunKeepsTheHold(w: World, events: seq<Event>, c: nat)
    requires Sound(w) && c < |w.calls| && !Early(w.calls[c].pc) && OwnsOrRefused(w, c) && HoldIsLeft(w, events, c)
    ensures c < |Run(w, events).calls| && OwnsOrRefused(Run(w, events), c)
    decreases |events|
  {
    if events != [] {
      StepKeepsSound(w, events[0]);
      StepKeepsTheHold(w, events[0], c);
      RunKeepsTheHold(Next(w, events[0]), events[1..], c);
    }
  }

  /** An admission leaves the call with a hold that covers it, unless it reuses a settled hold or a smaller one. */
  lemma AdmissionOwnsIff(w: World, c: nat)
    requires c < |w.calls| && w.calls[c].pc.Admitting? && AdmitStep(w, c).calls[c].pc.Beginning?
    ensures var i := HoldAt(w.holds, w.calls[c].request.key);
      Owns(AdmitStep(w, c), c)
      <==> !(i < |w.holds| && (w.holds[i].status == Settled
                               || (w.holds[i].status == Active && w.holds[i].credits < w.calls[c].pc.route.cost)))
  {
    var key := w.calls[c].request.key;
    var v := AdmitStep(w, c);
    var i := HoldAt(w.holds, key);
    if v.holds != w.holds {
      FirstHold(v.holds, i, key);
    }
  }

  /** A call admitted with a hold that covers it has that hold whenever it comes to settle, if meanwhile nobody swept
      or released its key and no other call of the key released it. */
  lemma HoldIsKept(w: World, c: nat, events: seq<Event>)
    requires Sound(w) && c < |w.calls| && w.calls[c].pc.Admitting?
    requires AdmitStep(w, c).calls[c].pc.Beginning? && Owns(AdmitStep(w, c), c)
    requires HoldIsLeft(AdmitStep(w, c), events, c)
    ensures var v := Run(AdmitStep(w, c), events);
      c < |v.calls| && (v.calls[c].pc.Settling? ==> KeepsItsHold(v, c))
  {
    StepKeepsSound(w, Admit(c));
    RunKeepsTheHold(AdmitStep(w, c), events, c);
  }

  // ---------------------------------------------------------------- one open call per key

  predicate OpenKey(calls: seq<Call>, key: string) {
    exists c | 0 <= c < |calls| :: !calls[c].pc.Done? && calls[c].request.key == key
  }

  ghost predicate OneOpen(calls: seq<Call>) {
    forall c, d | 0 <= c < d < |calls| && !calls[c].pc.Done? && !calls[d].pc.Done? ::
      calls[c].request.key != calls[d].request.key
  }

  /** Some call between its admission and its end answers for the key's hold. */
  predicate Owned(calls: seq<Call>, key: string) {
    exists c | 0 <= c < |calls| :: calls[c].request.key == key && (Underway(calls[c].pc) || calls[c].pc.Releasing?)
  }

  predicate HasActive(holds: seq<Hold>, key: string) {
    var i := HoldAt(holds, key);
    i < |holds| && holds[i].status == Active
  }

  ghost predicate ActiveAccounted(w: World, key: string) {
    HasActive(w.holds, key) ==> Spent(w.attempts, key) || Owned(w.calls, key)
  }

  ghost predicate Kept(w: World) {
    && OneOpen(w.calls)
    && (forall c | 0 <= c < |w.calls| :: OwnsOrRefused(w, c))
    && (forall key :: ActiveAccounted(w, key))
    && (forall key | key in w.inFlight :: Spent(w.attempts, key))
  }

  /** What a caller and the caretakers keep: no key is used by two calls at a time, nobody sweeps or releases the hold
      of a call that is open, no admission reuses the settled hold of an exchange that never succeeded, and nothing
      expires. */
  ghost predicate Undisturbed(w: World, e: Event) {
    match e
    case Arrive(request) => !OpenKey(w.calls, request.key)
    case Sweep(key) => !OpenKey(w.calls, key)
    case ReleaseHeld(key) => !OpenKey(w.calls, key)
    case Admit(c) =>
      c < |w.calls| && w.calls[c].pc.Admitting? ==>
        var key := w.calls[c].request.key;
        var i := HoldAt(w.holds, key);
        i < |w.holds| && w.holds[i].status == Settled ==> Spent(w.attempts, key)
    case Expire(_) => false
    case _ => true
  }

  lemma DoneStaysDone(w: World, e: Event, c: nat)
    requires c < |w.calls| && w.calls[c].pc.Done?
    ensures c < |Next(w, e).calls| && Next(w, e).calls[c] == w.calls[c]
  {
    CallStays(w, e, c);
  }

  lemma OnlyArrivalsAreAdded(w: World, e: Event)
    ensures |w.calls| <= |Next(w, e).calls|
    ensures |Next(w, e).calls| > |w.calls| ==> e.Arrive? && Next(w, e).calls == w.calls + [Call(e.request, Arrived)]
  {
    if e.Open? || e.Admit? || e.Begin? || e.Hear? || e.Report? || e.Release? || e.Settle? {
      OneCallMoves(w, e);
    }
  }

  lemma StepKeepsOneOpen(w: World, e: Event)
    requires OneOpen(w.calls) && Undisturbed(w, e)
    ensures OneOpen(Next(w, e).calls)
  {
    var v := Next(w, e);
    OnlyArrivalsAreAdded(w, e);
    forall c, d | 0 <= c < d < |v.calls| && !v.calls[c].pc.Done? && !v.calls[d].pc.Done?
      ensures v.calls[c].request.key != v.calls[d].request.key
    {
      CallStays(w, e, c);
      if w.calls[c].pc.Done? {
        DoneStaysDone(w, e, c);
      }
      if d < |w.calls| {
        CallStays(w, e, d);
        if w.calls[d].pc.Done? {
          DoneStaysDone(w, e, d);
        }
      }
    }
  }

  /** With one open call per key nobody else releases the hold of a call underway. */
  lemma NobodyElseReleases(w: World, e: Event, c: nat)
    requires OneOpen(w.calls) && Undisturbed(w, e) && c < |w.calls| && Underway(w.calls[c].pc)
    ensures LeavesHold(w, e, c) || Next(w, e) == w
  {
    assert OpenKey(w.calls, w.calls[c].request.key);
  }

  /** An active hold found at the admission belongs to a spent exchange. */
  lemma FoundActiveIsSpent(w: World, c: nat)
    requires Kept(w) && c < |w.calls| && w.calls[c].pc.Admitting? && HasActive(w.holds, w.calls[c].request.key)
    ensures Spent(w.attempts, w.calls[c].request.key)
  {
    var key := w.calls[c].request.key;
    assert ActiveAccounted(w, key);
    if Owned(w.calls, key) {
      var d :| 0 <= d < |w.calls| && w.calls[d].request.key == key
        && (Underway(w.calls[d].pc) || w.calls[d].pc.Releasing?);
      assert false;
    }
  }

  lemma AdmissionOwns(w: World, c: nat)
    requires Kept(w) && Undisturbed(w, Admit(c)) && c < |w.calls| && w.calls[c].pc.Admitting?
    ensures OwnsOrRefused(AdmitStep(w, c), c)
  {
    var key := w.calls[c].request.key;
    if AdmitStep(w, c).calls[c].pc.Beginning? {
      AdmissionOwnsIff(w, c);
      assert AdmitStep(w, c).attempts == w.attempts;
      if HasActive(w.holds, key) {
        FoundActiveIsSpent(w, c);
      }
    }
  }

  lemma EarlyCallMoves(w: World, e: Event, c: nat)
    requires c < |w.calls| && Early(w.calls[c].pc)
    ensures var v := Next(w, e);
      c < |v.calls| && (Underway(v.calls[c].pc) ==> e == Admit(c) && w.calls[c].pc.Admitting?)
  {
    CallStays(w, e, c);
  }

  lemma EveryCallOwns(w: World, e: Event, c: nat)
    requires Sound(w) && Kept(w) && Undisturbed(w, e) && c < |Next(w, e).calls|
    ensures OwnsOrRefused(Next(w, e), c)
  {
    OnlyArrivalsAreAdded(w, e);
    if c < |w.calls| {
      if Early(w.calls[c].pc) {
        EarlyCallMoves(w, e, c);
        if Underway(Next(w, e).calls[c].pc) {
          AdmissionOwns(w, c);
        }
      } else {
        CallGoesOn(w, e, c);
        if Underway(w.calls[c].pc) {
          NobodyElseReleases(w, e, c);
          if Next(w, e) != w {
            StepKeepsTheHold(w, e, c);
          }
        }
      }
    }
  }

  lemma OwnerGoesOn(w: World, e: Event, key: string)
    requires Owned(w.calls, key) && !Touches(w, e, key)
    ensures Owned(Next(w, e).calls, key)
  {
    var c :| 0 <= c < |w.calls| && w.calls[c].request.key == key
      && (Underway(w.calls[c].pc) || w.calls[c].pc.Releasing?);
    CallStays(w, e, c);
    OwnerStep(w, e, c);
  }

  lemma OwnerStep(w: World, e: Event, c: nat)
    requires c < |w.calls| && (Underway(w.calls[c].pc) || w.calls[c].pc.Releasing?)
    requires !Touches(w, e, w.calls[c].request.key)
    ensures c < |Next(w, e).calls|
    ensures Underway(Next(w, e).calls[c].pc) || Next(w, e).calls[c].pc.Releasing?
  {
    CallStays(w, e, c);
  }

  /** After the write of a call, a caretaker or a round commit, an active hold is still accounted for. */
  lemma TouchedIsAccounted(w: World, e: Event, key: string)
    requires Sound(w) && Kept(w) && Undisturbed(w, e) && Touches(w, e, key)
    ensures ActiveAccounted(Next(w, e), key)
  {
    var v := Next(w, e);
    assert ActiveAccounted(w, key);
    if e.Settle? {
      assert PaysItsOwn(w.attempts, w.calls[e.c]);
      assert Spent(w.attempts, key);
    }
    if Spent(w.attempts, key) {
      StepKeepsSpent(w, e, key);
    } else if e.Admit? {
      AdmittedIsAccounted(w, e.c);
    } else {
      CaretakerIsAccounted(w, e, key);
    }
  }

  lemma AdmittedIsAccounted(w: World, c: nat)
    requires Kept(w) && c < |w.calls| && w.calls[c].pc.Admitting? && !Spent(w.attempts, w.calls[c].request.key)
    ensures ActiveAccounted(AdmitStep(w, c), w.calls[c].request.key)
  {
    var v := AdmitStep(w, c);
    if HasActive(w.holds, w.calls[c].request.key) {
      FoundActiveIsSpent(w, c);
    }
    if v.holds != w.holds {
      assert v.calls[c].request.key == w.calls[c].request.key && Underway(v.calls[c].pc);
    }
  }

  lemma OwnedIsOpen(calls: seq<Call>, key: string)
    ensures Owned(calls, key) ==> OpenKey(calls, key)
  {
    if Owned(calls, key) {
      var c :| 0 <= c < |calls| && calls[c].request.key == key && (Underway(calls[c].pc) || calls[c].pc.Releasing?);
      assert !calls[c].pc.Done?;
    }
  }

  lemma CaretakerIsAccounted(w: World, e: Event, key: string)
    requires Kept(w) && Undisturbed(w, e) && Touches(w, e, key) && !Spent(w.attempts, key)
    requires e.Release? || e.Sweep? || e.ReleaseHeld? || e.Conciliate? || e.RoundCommit?
    ensures ActiveAccounted(Next(w, e), key)
  {
    var v := Next(w, e);
    assert ActiveAccounted(w, key);
    assert key !in w.inFlight;
    HoldsStay(w, e);
    HoldStays(w.holds, v.holds, key);
    OwnedIsOpen(w.calls, key);
  }

  lemma EveryActiveIsAccounted(w: World, e: Event, key: string)
    requires Sound(w) && Kept(w) && Undisturbed(w, e)
    ensures ActiveAccounted(Next(w, e), key)
  {
    if Touches(w, e, key) {
      TouchedIsAccounted(w, e, key);
    } else {
      assert ActiveAccounted(w, key);
      UntouchedHold(w, e, key);
      if Spent(w.attempts, key) {
        StepKeepsSpent(w, e, key);
      } else if Owned(w.calls, key) {
        OwnerGoesOn(w, e, key);
      }
    }
  }

  lemma InFlightIsSpent(w: World, e: Event, key: string)
    requires Sound(w) && Kept(w) && key in Next(w, e).inFlight
    ensures Spent(Next(w, e).attempts, key)
  {
    if key !in w.inFlight {
      assert Touches(w, e, key) by {
        if !Touches(w, e, key) {
          UntouchedInFlight(w, e, key);
        }
      }
      SettledInRound(w, e, key);
      assert PaysItsOwn(w.attempts, w.calls[e.c]);
      assert Spent(w.attempts, key);
    }
    StepKeepsSpent(w, e, key);
  }

  lemma SettledInRound(w: World, e: Event, key: string)
    requires key !in w.inFlight && key in Next(w, e).inFlight
    ensures e.Settle? && Touches(w, e, key)
  {
  }

  lemma StepKeepsKept(w: World, e: Event)
    requires Sound(w) && Kept(w) && Undisturbed(w, e)
    ensures Kept(Next(w, e))
  {
    StepKeepsOneOpen(w, e);
    StepKeepsOwners(w, e);
    StepKeepsAccounts(w, e);
  }

  lemma StepKeepsOwners(w: World, e: Event)
    requires Sound(w) && Kept(w) && Undisturbed(w, e)
    ensures forall c | 0 <= c < |Next(w, e).calls| :: OwnsOrRefused(Next(w, e), c)
  {
    forall c | 0 <= c < |Next(w, e).calls| ensures OwnsOrRefused(Next(w, e), c) {
      EveryCallOwns(w, e, c);
    }
  }

  lemma StepKeepsAccounts(w: World, e: Event)
    requires Sound(w) && Kept(w) && Undisturbed(w, e)
    ensures forall key :: ActiveAccounted(Next(w, e), key)
    ensures forall key | key in Next(w, e).inFlight :: Spent(Next(w, e).attempts, key)
  {
    forall key ensures ActiveAccounted(Next(w, e), key) {
      EveryActiveIsAccounted(w, e, key);
    }
    forall key | key in Next(w, e).inFlight ensures Spent(Next(w, e).attempts, key) {
      InFlightIsSpent(w, e, key);
    }
  }

  lemma KeptIsCalm(w: World, e: Event)
    requires Kept(w) && Undisturbed(w, e)
    ensures Calm(w, e)
  {
    if e.Settle? && e.c < |w.calls| {
      assert OwnsOrRefused(w, e.c);
    }
  }

  ghost predicate AllUndisturbed(w: World, events: seq<Event>)
    decreases |events|
  {
    events == [] || (Undisturbed(w, events[0]) && AllUndisturbed(Next(w, events[0]), events[1..]))
  }

  lemma {:induction false} UndisturbedRunsAreCalm(w: World, events: seq<Event>)
    requires Sound(w) && Kept(w) && AllUndisturbed(w, events)
    ensures AllCalm(w, events) && Kept(Run(w, events))
    decreases |events|
  {
    if events != [] {
      StepKeepsSound(w, events[0]);
      StepKeepsKept(w, events[0]);
      KeptIsCalm(w, events[0]);
      UndisturbedRunsAreCalm(Next(w, events[0]), events[1..]);
    }
  }

  /** In every run in which no two open calls share a key and the caretakers leave open calls alone, an entitled call
      that reaches its settlement is answered: what was admitted can be paid. `HoldHazard` has, for
      each rule, a run that breaks it alone and loses the payment. */
  lemma AdmittedCallsCanPay(w: World, events: seq<Event>, c: nat, month: int)
    requires Sound(w) && Covered(w) && Kept(w) && AllUndisturbed(w, events)
    requires var v := Run(w, events);
      c < |v.calls| && v.calls[c].pc.Settling? && HasTheLock(v, c)
    ensures var v := SettleStep(Run(w, events), c, true, month);
      c < |v.calls| && v.calls[c].pc.Done? && v.calls[c].pc.outcome.Answered?
  {
    UndisturbedRunsAreCalm(w, events);
    assert OwnsOrRefused(Run(w, events), c);
    KeptHoldsCanPay(w, events, c, month);
  }
}
