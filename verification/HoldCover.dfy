/** What the holds are for: they cover what they retain, and a call that kept its hold can pay. */
module HoldCover {
  import opened Basics
  import opened Metering
  import opened MeteringSafety
  import Usage = UsageLedger

  function Weight(h: Hold, keys: set<string>): nat {
    if h.key !in keys && h.status in {Active, Doubtful} then h.credits else 0
  }

  /** What active and doubtful holds retain, without those of the given keys. */
  function Held(holds: seq<Hold>, keys: set<string>): nat {
    if holds == [] then 0 else Held(holds[..|holds| - 1], keys) + Weight(holds[|holds| - 1], keys)
  }

  ghost predicate OneHoldPerKey(holds: seq<Hold>) {
    forall i, j | 0 <= i < j < |holds| :: holds[i].key != holds[j].key
  }

  /** Every hold of these keys is active. */
  ghost predicate AllActive(holds: seq<Hold>, keys: set<string>) {
    forall k | 0 <= k < |holds| && holds[k].key in keys :: holds[k].status == Active
  }

  /** Every retained credit is there, for what others see and for the open round; its settled holds stay active
      until it commits. */
  ghost predicate Covered(w: World) {
    && OneHoldPerKey(w.holds)
    && AllActive(w.holds, w.inFlight)
    && Visible(w).balance >= Held(w.holds, {})
    && w.books.balance - Held(w.holds, w.inFlight) >= Visible(w).balance - Held(w.holds, {})
    && (w.saved.None? ==> w.inFlight == {})
  }

  lemma {:induction false} HeldUpdate(holds: seq<Hold>, i: nat, h: Hold, keys: set<string>)
    requires i < |holds|
    ensures Held(holds[i := h], keys) == Held(holds, keys) - Weight(holds[i], keys) + Weight(h, keys)
  {
    var n := |holds| - 1;
    if i < n {
      assert holds[i := h][..n] == holds[..n][i := h];
      HeldUpdate(holds[..n], i, h, keys);
    } else {
      assert holds[i := h][..n] == holds[..n];
    }
  }

  lemma HeldAppend(holds: seq<Hold>, h: Hold, keys: set<string>)
    ensures Held(holds + [h], keys) == Held(holds, keys) + Weight(h, keys)
  {
    assert (holds + [h])[..|holds|] == holds;
  }

  lemma {:induction false} HeldBesideIsHeld(holds: seq<Hold>, key: string)
    ensures HeldBeside(holds, key) == Held(holds, {key})
  {
    if holds != [] {
      HeldBesideIsHeld(holds[..|holds| - 1], key);
    }
  }

  /** Leaving out one more key leaves out its hold. */
  lemma {:induction false} HeldWithout(holds: seq<Hold>, keys: set<string>, key: string)
    requires OneHoldPerKey(holds)
    ensures var i := HoldAt(holds, key);
      Held(holds, keys + {key}) == Held(holds, keys) - if i < |holds| then Weight(holds[i], keys) else 0
  {
    if holds != [] {
      var n := |holds| - 1;
      HeldWithout(holds[..n], keys, key);
      HoldAtPrefix(holds, n, key);
    }
  }

  lemma {:induction false} HoldAtPrefix(holds: seq<Hold>, n: nat, key: string)
    requires n <= |holds|
    ensures HoldAt(holds[..n], key) == if HoldAt(holds, key) < n then HoldAt(holds, key) else n
  {
  }

  lemma {:induction false} HeldAfterCommit(holds: seq<Hold>, keys: set<string>)
    requires AllActive(holds, keys)
    ensures Held(SettleAll(holds, keys), {}) == Held(holds, keys)
  {
    if holds != [] {
      var n := |holds| - 1;
      assert SettleAll(holds, keys)[..n] == SettleAll(holds[..n], keys);
      HeldAfterCommit(holds[..n], keys);
    }
  }

  /** A hold that stops retaining, of a key the round did not settle. */
  lemma ReleasingKeepsCover(w: World, v: World, i: nat, h: Hold)
    requires Covered(w) && i < |w.holds| && h.key == w.holds[i].key && h.credits == w.holds[i].credits
    requires w.holds[i].key !in w.inFlight && (h.status in {Active, Doubtful} ==> w.holds[i].status in {Active, Doubtful})
    requires v.holds == w.holds[i := h] && v.books.balance == w.books.balance && v.inFlight == w.inFlight
    requires v.saved == w.saved
    ensures Covered(v)
  {
    HeldUpdate(w.holds, i, h, {});
    HeldUpdate(w.holds, i, h, w.inFlight);
  }

  /** Taking a hold where none retains adds exactly its credits. */
  lemma PutHeld(holds: seq<Hold>, h: Hold, keys: set<string>)
    requires OneHoldPerKey(holds)
    requires var i := HoldAt(holds, h.key); i < |holds| ==> holds[i].status in {Settled, Released}
    ensures Held(PutHold(holds, h), keys) == Held(holds, keys) + Weight(h, keys)
    ensures OneHoldPerKey(PutHold(holds, h))
  {
    var i := HoldAt(holds, h.key);
    if i < |holds| {
      HeldUpdate(holds, i, h, keys);
    } else {
      HeldAppend(holds, h, keys);
    }
  }

  /** A key that retains nothing adds nothing to what the others hold. */
  lemma FreeKeyIsBeside(holds: seq<Hold>, key: string)
    requires OneHoldPerKey(holds)
    requires var i := HoldAt(holds, key); i < |holds| ==> holds[i].status in {Settled, Released}
    ensures HeldBeside(holds, key) == Held(holds, {})
  {
    HeldBesideIsHeld(holds, key);
    HeldWithout(holds, {}, key);
    assert {} + {key} == {key};
  }

  lemma PutKeepsInFlight(holds: seq<Hold>, h: Hold, keys: set<string>)
    requires AllActive(holds, keys) && h.status == Active
    ensures AllActive(PutHold(holds, h), keys)
  {
  }

  lemma PuttingKeepsCover(w: World, v: World, h: Hold)
    requires Covered(w) && h.key !in w.inFlight && h.status == Active
    requires var i := HoldAt(w.holds, h.key); i < |w.holds| ==> w.holds[i].status in {Settled, Released}
    requires Visible(w).balance - HeldBeside(w.holds, h.key) >= h.credits
    requires v == w.(holds := PutHold(w.holds, h), calls := v.calls)
    ensures Covered(v)
  {
    PutHeld(w.holds, h, {});
    PutHeld(w.holds, h, w.inFlight);
    FreeKeyIsBeside(w.holds, h.key);
    PutKeepsInFlight(w.holds, h, w.inFlight);
  }

  lemma AdmitKeepsCover(w: World, c: nat)
    requires Covered(w) && c < |w.calls|
    ensures Covered(AdmitStep(w, c))
  {
    var v := AdmitStep(w, c);
    if v.holds != w.holds {
      PuttingKeepsCover(w, v, Hold(w.calls[c].request.key, Active, w.calls[c].pc.route.cost));
    }
  }

  /** The call's hold is active and retains what the call is about to pay. */
  predicate KeepsItsHold(w: World, c: nat)
    requires c < |w.calls| && w.calls[c].pc.Settling?
  {
    var key := w.calls[c].request.key;
    var i := HoldAt(w.holds, key);
    i < |w.holds| && w.holds[i].status == Active && w.holds[i].credits >= w.calls[c].pc.route.cost && key !in w.inFlight
  }

  /** A call that kept its hold is never refused for credits. */
  lemma KeptHoldPays(w: World, c: nat)
    requires Covered(w) && c < |w.calls| && w.calls[c].pc.Settling? && KeepsItsHold(w, c)
    ensures w.calls[c].pc.route.cost <= w.books.balance
  {
    HeldWithout(w.holds, w.inFlight, w.calls[c].request.key);
  }

  lemma SettleKeepsCover(w: World, c: nat, entitled: bool, month: int)
    requires Sound(w) && Covered(w) && c < |w.calls| && w.calls[c].pc.Settling? && KeepsItsHold(w, c)
    ensures Covered(SettleStep(w, c, entitled, month))
  {
    var v := SettleStep(w, c, entitled, month);
    if entitled && HasTheLock(w, c) {
      KeptHoldSettles(w, c, month);
      KeptHoldPays(w, c);
      if w.saved.Some? {
        SettlingInRoundKeepsCover(w, v, c);
      } else {
        SettlingKeepsCover(w, v, c);
      }
    } else {
      SettleFindsNoAudit(w, c);
      assert v.books == w.books && v.holds == w.holds && v.saved == w.saved && v.inFlight == w.inFlight;
    }
  }

  lemma SettlingInRoundKeepsCover(w: World, v: World, c: nat)
    requires Covered(w) && c < |w.calls| && w.calls[c].pc.Settling? && KeepsItsHold(w, c) && w.saved.Some?
    requires v.saved == w.saved && v.holds == w.holds && v.inFlight == w.inFlight + {w.calls[c].request.key}
    requires v.books.balance == w.books.balance - w.calls[c].pc.route.cost
    ensures Covered(v)
  {
    HeldWithout(w.holds, w.inFlight, w.calls[c].request.key);
  }

  lemma SettlingKeepsCover(w: World, v: World, c: nat)
    requires Covered(w) && c < |w.calls| && w.calls[c].pc.Settling? && KeepsItsHold(w, c) && w.saved.None?
    requires v.saved.None? && v.holds == SetActive(w.holds, w.calls[c].request.key, Settled) && v.inFlight == w.inFlight
    requires v.books.balance == w.books.balance - w.calls[c].pc.route.cost
    ensures Covered(v)
  {
    var i := HoldAt(w.holds, w.calls[c].request.key);
    HeldUpdate(w.holds, i, w.holds[i].(status := Settled), {});
  }

  /** What an entitled settlement with its hold writes. */
  lemma KeptHoldSettles(w: World, c: nat, month: int)
    requires Sound(w) && Covered(w) && c < |w.calls| && w.calls[c].pc.Settling? && KeepsItsHold(w, c) && HasTheLock(w, c)
    ensures var v, key := SettleStep(w, c, true, month), w.calls[c].request.key;
      && v.saved == w.saved && v.books.balance == w.books.balance - w.calls[c].pc.route.cost
      && v.inFlight == (if w.saved.Some? then w.inFlight + {key} else w.inFlight)
      && v.holds == (if w.saved.Some? then w.holds else SetActive(w.holds, key, Settled))
      && |v.calls| == |w.calls| && v.calls[c].pc.Done? && v.calls[c].pc.outcome.Answered?
  {
    assert FindAudit(w.books.audits, w.calls[c].request.key).None? by {
      SettleFindsNoAudit(w, c);
    }
    assert w.calls[c].pc.route.cost <= w.books.balance by {
      KeptHoldPays(w, c);
    }
  }

  lemma CommitKeepsCover(w: World)
    requires Covered(w)
    ensures Covered(Next(w, RoundCommit))
  {
    HeldAfterCommit(w.holds, w.inFlight);
  }

  lemma HoldStepKeepsCover(w: World, e: Event)
    requires Covered(w) && (e.Sweep? || e.Conciliate? || e.ReleaseHeld?)
    ensures Covered(Next(w, e))
  {
    var v, i := Next(w, e), HoldAt(w.holds, e.key);
    if v.holds != w.holds {
      ReleasingKeepsCover(w, v, i, v.holds[i]);
    }
  }

  lemma ReleaseKeepsCover(w: World, c: nat)
    requires Covered(w) && c < |w.calls|
    ensures Covered(Next(w, Release(c)))
  {
    var v, i := Next(w, Release(c)), HoldAt(w.holds, w.calls[c].request.key);
    if v.holds != w.holds {
      ReleasingKeepsCover(w, v, i, v.holds[i]);
    }
  }

  /** Nothing expires, and who settles kept its hold. */
  predicate Calm(w: World, e: Event) {
    && !e.Expire?
    && (e.Settle? && e.c < |w.calls| && w.calls[e.c].pc.Settling? ==> KeepsItsHold(w, e.c))
  }

  lemma OtherStepsKeepCover(w: World, e: Event)
    requires Covered(w)
    requires e.Arrive? || e.Open? || e.Begin? || e.Hear? || e.Report? || e.Credit? || e.RoundStart? || e.RoundRollback?
    ensures Covered(Next(w, e))
  {
    var v := Next(w, e);
    assert v.holds == w.holds;
  }

  lemma StepKeepsCover(w: World, e: Event)
    requires Sound(w) && Covered(w) && Calm(w, e)
    ensures Covered(Next(w, e))
  {
    if e.Admit? {
      if e.c < |w.calls| {
        AdmitKeepsCover(w, e.c);
      }
    } else if e.Settle? {
      if e.c < |w.calls| && w.calls[e.c].pc.Settling? {
        SettleKeepsCover(w, e.c, e.entitled, e.month);
      }
    } else if e.Release? {
      if e.c < |w.calls| {
        ReleaseKeepsCover(w, e.c);
      }
    } else if e.RoundCommit? {
      CommitKeepsCover(w);
    } else if e.Sweep? || e.Conciliate? || e.ReleaseHeld? {
      HoldStepKeepsCover(w, e);
    } else {
      OtherStepsKeepCover(w, e);
    }
  }

  ghost predicate AllCalm(w: World, events: seq<Event>)
    decreases |events|
  {
    events == [] || (Calm(w, events[0]) && AllCalm(Next(w, events[0]), events[1..]))
  }

  lemma {:induction false} CalmRunsStayCovered(w: World, events: seq<Event>)
    requires Sound(w) && Covered(w) && AllCalm(w, events)
    ensures Sound(Run(w, events)) && Covered(Run(w, events))
    decreases |events|
  {
    if events != [] {
      StepKeepsSound(w, events[0]);
      StepKeepsCover(w, events[0]);
      CalmRunsStayCovered(Next(w, events[0]), events[1..]);
    }
  }

  /** However calls interleave, as long as every settlement finds its own hold, an entitled one is answered.
      `HoldKept` shows when calls keep their holds. */
  lemma KeptHoldsCanPay(w: World, events: seq<Event>, c: nat, month: int)
    requires Sound(w) && Covered(w) && AllCalm(w, events)
    requires var v := Run(w, events);
      c < |v.calls| && v.calls[c].pc.Settling? && KeepsItsHold(v, c) && HasTheLock(v, c)
    ensures var v := SettleStep(Run(w, events), c, true, month);
      c < |v.calls| && v.calls[c].pc.Done? && v.calls[c].pc.outcome.Answered?
  {
    CalmRunsStayCovered(w, events);
    KeptHoldSettles(Run(w, events), c, month);
  }
}
