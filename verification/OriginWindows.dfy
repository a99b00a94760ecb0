/** From the proposed operations to the windows they create (`origins.py`, `bind` and `attach`): each new window keeps
    its phrase or is refused, and each phrase is bound to the window its own operation created. */
module OriginWindows {
  import opened Basics
  import opened Origins
  import opened OriginBinding

  // ---------------------------------------------------------------- bind

  datatype Origin = Origin(opIndex: nat, span: Span)

  datatype Refusal = Refusal(reason: Reason, span: Option<Span>)

  datatype Verdict = Keep | KeepWindow(span: Span) | Refuse(refusal: Refusal)

  function SpanFor(op: Op, sources: seq<string>, rd: Reader): Option<Span>
    requires op.Object? && Readable(sources, rd)
  {
    match op.cited
    case Phrase(quote) => Locate(quote, sources, rd.fold, rd.space)
    case NoPhrase => Shortest(Offers(op, sources, rd))
  }

  function Judge(op: Op, sources: seq<string>, rd: Reader): Verdict
    requires Readable(sources, rd)
  {
    if !IsWindow(op) then Keep
    else
      var span := SpanFor(op, sources, rd);
      if span.None? then Refuse(Refusal(OriginMissing, None))
      else
        var reason := Check(op, span.value.quote, rd);
        if reason.Some? then Refuse(Refusal(reason.value, span)) else KeepWindow(span.value)
  }

  datatype Binding = Binding(kept: seq<Op>, origins: seq<Origin>, refused: seq<Refusal>)

  function Bind(ops: seq<Op>, sources: seq<string>, rd: Reader): Binding
    requires Readable(sources, rd)
  {
    if ops == [] then Binding([], [], [])
    else
      var b, op := Bind(ops[..|ops| - 1], sources, rd), ops[|ops| - 1];
      match Judge(op, sources, rd)
      case Keep => b.(kept := b.kept + [Bare(op)])
      case KeepWindow(span) => b.(kept := b.kept + [Bare(op)], origins := b.origins + [Origin(|b.kept|, span)])
      case Refuse(refusal) => b.(refused := b.refused + [refusal])
  }

  method BindOrigins(ops: seq<Op>, sources: seq<string>, rd: Reader)
    returns (kept: seq<Op>, origins: seq<Origin>, refused: seq<Refusal>)
    requires Readable(sources, rd)
    ensures Binding(kept, origins, refused) == Bind(ops, sources, rd)
  {
    kept, origins, refused := [], [], [];
    for i := 0 to |ops|
      invariant Binding(kept, origins, refused) == Bind(ops[..i], sources, rd)
    {
      assert ops[..i + 1][..i] == ops[..i];
      var op := ops[i];
      if op.NotAnObject? || !op.kind.AddPosition? {
        kept := kept + [Bare(op)];
        continue;
      }
      var span;
      if op.cited.Phrase? {
        span := FindSpan(op.cited.quote, sources, rd.fold, rd.space);
      } else {
        span := FindOrigin(op, sources, rd);
      }
      if span.None? {
        refused := refused + [Refusal(OriginMissing, None)];
        continue;
      }
      var reason := Check(op, span.value.quote, rd);
      if reason.Some? {
        refused := refused + [Refusal(reason.value, span)];
        continue;
      }
      origins := origins + [Origin(|kept|, span.value)];
      kept := kept + [Bare(op)];
    }
    assert ops[..|ops|] == ops;
  }

  /** The places of the operations that stay. */
  function Stays(ops: seq<Op>, sources: seq<string>, rd: Reader): seq<nat>
    requires Readable(sources, rd)
  {
    if ops == [] then []
    else
      var n := |ops| - 1;
      Stays(ops[..n], sources, rd) + if Judge(ops[n], sources, rd).Refuse? then [] else [n]
  }

  /** The places of the windows refused. */
  function Leaves(ops: seq<Op>, sources: seq<string>, rd: Reader): seq<nat>
    requires Readable(sources, rd)
  {
    if ops == [] then []
    else
      var n := |ops| - 1;
      Leaves(ops[..n], sources, rd) + if Judge(ops[n], sources, rd).Refuse? then [n] else []
  }

  ghost predicate Increasing(places: seq<nat>, n: nat) {
    && (forall i, j | 0 <= i < j < |places| :: places[i] < places[j])
    && (forall i | 0 <= i < |places| :: places[i] < n)
  }

  /** Each operation up to one place is among those that stay or those that leave. */
  ghost predicate Placed(ops: seq<Op>, n: nat, stay: seq<nat>, leave: seq<nat>, sources: seq<string>, rd: Reader)
    requires Readable(sources, rd) && n <= |ops|
  {
    forall i | 0 <= i < n :: if Judge(ops[i], sources, rd).Refuse? then i in leave else i in stay
  }

  lemma {:induction false} StaysIncrease(ops: seq<Op>, sources: seq<string>, rd: Reader)
    requires Readable(sources, rd)
    ensures Increasing(Stays(ops, sources, rd), |ops|)
  {
    if ops != [] {
      StaysIncrease(ops[..|ops| - 1], sources, rd);
    }
  }

  lemma {:induction false} LeavesIncrease(ops: seq<Op>, sources: seq<string>, rd: Reader)
    requires Readable(sources, rd)
    ensures Increasing(Leaves(ops, sources, rd), |ops|)
    ensures |Stays(ops, sources, rd)| + |Leaves(ops, sources, rd)| == |ops|
  {
    if ops != [] {
      LeavesIncrease(ops[..|ops| - 1], sources, rd);
    }
  }

  lemma {:induction false} EachIsPlaced(ops: seq<Op>, n: nat, sources: seq<string>, rd: Reader)
    requires Readable(sources, rd) && n <= |ops|
    ensures Placed(ops, n, Stays(ops[..n], sources, rd), Leaves(ops[..n], sources, rd), sources, rd)
  {
    if n > 0 {
      assert ops[..n][..n - 1] == ops[..n - 1];
      EachIsPlaced(ops, n - 1, sources, rd);
    }
  }

  /** The operations that stay are the originals without their citation. */
  ghost predicate Survive(ops: seq<Op>, kept: seq<Op>, stay: seq<nat>) {
    |kept| == |stay| && forall k | 0 <= k < |stay| :: stay[k] < |ops| && kept[k] == Bare(ops[stay[k]])
  }

  ghost predicate AreWindows(ops: seq<Op>, leave: seq<nat>) {
    forall k | 0 <= k < |leave| :: leave[k] < |ops| && IsWindow(ops[leave[k]])
  }

  lemma {:induction false} BindUpTo(ops: seq<Op>, n: nat, sources: seq<string>, rd: Reader)
    requires Readable(sources, rd) && n <= |ops|
    ensures Survive(ops, Bind(ops[..n], sources, rd).kept, Stays(ops[..n], sources, rd))
    ensures AreWindows(ops, Leaves(ops[..n], sources, rd))
    ensures |Bind(ops[..n], sources, rd).refused| == |Leaves(ops[..n], sources, rd)|
  {
    if n > 0 {
      assert ops[..n][..n - 1] == ops[..n - 1];
      BindUpTo(ops, n - 1, sources, rd);
    }
  }

  /** The order of the operations is kept: the ones that stay are the originals without their citation, one after the
      other, and every operation that does not stay is a window refused for a reason, in the same order. */
  lemma BindKeepsOrder(ops: seq<Op>, sources: seq<string>, rd: Reader)
    requires Readable(sources, rd)
    ensures var b, stay, leave := Bind(ops, sources, rd), Stays(ops, sources, rd), Leaves(ops, sources, rd);
      && Increasing(stay, |ops|) && Increasing(leave, |ops|) && |stay| + |leave| == |ops|
      && Survive(ops, b.kept, stay) && AreWindows(ops, leave) && |b.refused| == |leave|
      && Placed(ops, |ops|, stay, leave, sources, rd)
  {
    assert ops[..|ops|] == ops;
    StaysIncrease(ops, sources, rd);
    LeavesIncrease(ops, sources, rd);
    EachIsPlaced(ops, |ops|, sources, rd);
    BindUpTo(ops, |ops|, sources, rd);
  }

  function WindowCount(ops: seq<Op>): nat {
    if ops == [] then 0
    else WindowCount(ops[..|ops| - 1]) + if IsWindow(ops[|ops| - 1]) then 1 else 0
  }

  lemma WindowCountAppend(ops: seq<Op>, op: Op)
    ensures WindowCount(ops + [op]) == WindowCount(ops) + if IsWindow(op) then 1 else 0
  {
    assert (ops + [op])[..|ops|] == ops;
  }

  /** Every proposed window is kept with exactly one origin or refused, exactly once. */
  lemma {:induction false} EveryWindowIsJudgedOnce(ops: seq<Op>, sources: seq<string>, rd: Reader)
    requires Readable(sources, rd)
    ensures var b := Bind(ops, sources, rd);
      && |b.origins| + |b.refused| == WindowCount(ops)
      && |b.origins| == WindowCount(b.kept)
  {
    if ops != [] {
      var n := |ops| - 1;
      EveryWindowIsJudgedOnce(ops[..n], sources, rd);
      WindowCountAppend(Bind(ops[..n], sources, rd).kept, Bare(ops[n]));
    }
  }

  /** The phrase is a literal piece of a source and states the window's width, height and quantity. */
  ghost predicate Stated(op: Op, span: Span, sources: seq<string>, rd: Reader)
    requires op.Object?
  {
    && Supports(span, op, sources, rd)
    && op.width.Some? && States(rd.numbers(span.quote), op.width.value)
    && op.height.Some? && States(rd.numbers(span.quote), op.height.value)
    && (op.quantity == 1 || op.quantity in rd.counts(span.quote))
  }

  lemma SpanIsStated(op: Op, sources: seq<string>, rd: Reader)
    requires Readable(sources, rd) && IsWindow(op) && Judge(op, sources, rd).KeepWindow?
    ensures Stated(Bare(op), Judge(op, sources, rd).span, sources, rd)
  {
    match op.cited {
      case Phrase(quote) => LocateIsSound(quote, sources, rd.fold, rd.space);
      case NoPhrase =>
        OffersSupport(op, sources, rd);
        var i := ShortestIsFirst(Offers(op, sources, rd));
    }
  }

  /** Each origin belongs to a window that stays, in order, and its phrase states that window. */
  ghost predicate SoundOrigins(kept: seq<Op>, origins: seq<Origin>, sources: seq<string>, rd: Reader) {
    && (forall i, j | 0 <= i < j < |origins| :: origins[i].opIndex < origins[j].opIndex)
    && (forall i | 0 <= i < |origins| ::
          && origins[i].opIndex < |kept| && IsWindow(kept[origins[i].opIndex])
          && Stated(kept[origins[i].opIndex], origins[i].span, sources, rd))
  }

  lemma KeepingStaysSound(kept: seq<Op>, origins: seq<Origin>, op: Op, sources: seq<string>, rd: Reader)
    requires SoundOrigins(kept, origins, sources, rd)
    ensures SoundOrigins(kept + [op], origins, sources, rd)
  {
  }

  lemma KeepingWithItsOriginStaysSound(kept: seq<Op>, origins: seq<Origin>, op: Op, span: Span, sources: seq<string>,
                                       rd: Reader)
    requires SoundOrigins(kept, origins, sources, rd) && IsWindow(op) && Stated(op, span, sources, rd)
    ensures SoundOrigins(kept + [op], origins + [Origin(|kept|, span)], sources, rd)
  {
  }

  lemma {:induction false} BindIsSound(ops: seq<Op>, sources: seq<string>, rd: Reader)
    requires Readable(sources, rd)
    ensures SoundOrigins(Bind(ops, sources, rd).kept, Bind(ops, sources, rd).origins, sources, rd)
  {
    if ops != [] {
      var n := |ops| - 1;
      BindIsSound(ops[..n], sources, rd);
      var before := Bind(ops[..n], sources, rd);
      KeepingStaysSound(before.kept, before.origins, Bare(ops[n]), sources, rd);
      if Judge(ops[n], sources, rd).KeepWindow? {
        SpanIsStated(ops[n], sources, rd);
        KeepingWithItsOriginStaysSound(before.kept, before.origins, Bare(ops[n]), Judge(ops[n], sources, rd).span,
                                       sources, rd);
      }
    }
  }

  /** A window without a citation is refused exactly when no clause states it. */
  lemma UncitedIsRefusedIffNothingStatesIt(op: Op, sources: seq<string>, rd: Reader)
    requires Readable(sources, rd) && IsWindow(op) && op.cited.NoPhrase?
    ensures Judge(op, sources, rd).Refuse? <==> Offers(op, sources, rd) == []
  {
    OffersSupport(op, sources, rd);
    var i := ShortestIsFirst(Offers(op, sources, rd));
  }

  // ---------------------------------------------------------------- attach

  /** A window of the preview, and a difference the preview lists. */
  datatype Position = Position(id: nat, location: string)

  datatype Change = Change(added: bool, after: Option<Position>)

  datatype Bound = BoundTo(position: Position, span: Span) | Unbound(span: Span)

  datatype IndexError = OutOfRange

  /** How many windows an operation appends. */
  function Appended(op: Op): int
    requires op.Object?
  {
    match op.kind
    case AddPosition => 1
    case AddDesign => 1
    case Duplicate(count) => count
    case DuplicateMany(ids) => ids
    case OtherKind => 0
  }

  function Grown(op: Op): int {
    if op.Object? then Appended(op) else 0
  }

  function Total(ops: seq<Op>): int {
    if ops == [] then 0 else Total(ops[..|ops| - 1]) + Grown(ops[|ops| - 1])
  }

  function Before(diff: seq<Change>): set<nat> {
    set i | 0 <= i < |diff| && !diff[i].added && diff[i].after.Some? :: diff[i].after.value.id
  }

  function Added(diff: seq<Change>, before: set<nat>): seq<Position> {
    if diff == [] then []
    else
      var c := diff[|diff| - 1];
      Added(diff[..|diff| - 1], before)
      + if c.added && c.after.Some? && c.after.value.id !in before then [c.after.value] else []
  }

  /** Indexing a list: a negative index counts from its end. */
  function At<T>(s: seq<T>, i: int): Result<T, IndexError> {
    if 0 <= i < |s| then Ok(s[i]) else if -|s| <= i < 0 then Ok(s[|s| + i]) else Err(OutOfRange)
  }

  function BindTo(origins: seq<Origin>, ops: seq<Op>, added: seq<Position>): Result<seq<Bound>, IndexError> {
    if origins == [] then Ok([])
    else
      var n := |origins| - 1;
      var rest, o := BindTo(origins[..n], ops, added), origins[n];
      if rest.Err? then rest
      else if o.opIndex >= |ops| then Err(OutOfRange)
      else
        match At(added, Total(ops[..o.opIndex]))
        case Ok(p) => Ok(rest.value + [BoundTo(p, o.span)])
        case Err(e) => Err(e)
  }

  function Unplaced(origins: seq<Origin>): seq<Bound> {
    seq(|origins|, i requires 0 <= i < |origins| => Unbound(origins[i].span))
  }

  function Attach(origins: seq<Origin>, ops: seq<Op>, diff: seq<Change>): Result<seq<Bound>, IndexError> {
    var added := Added(diff, Before(diff));
    if origins == [] then Ok([])
    else if Total(ops) != |added| then Ok(Unplaced(origins))
    else BindTo(origins, ops, added)
  }

  method AttachOrigins(origins: seq<Origin>, ops: seq<Op>, diff: seq<Change>) returns (r: Result<seq<Bound>, IndexError>)
    requires forall i | 0 <= i < |origins| :: origins[i].opIndex < |ops| && ops[origins[i].opIndex].Object?
    ensures r == Attach(origins, ops, diff)
  {
    if origins == [] {
      return Ok([]);
    }
    var added := ComputeAdded(diff);
    var offsets: map<nat, int>, cursor := map[], 0;
    for i := 0 to |ops|
      invariant cursor == Total(ops[..i])
      invariant forall k | 0 <= k < i && ops[k].Object? :: k in offsets && offsets[k] == Total(ops[..k])
    {
      assert ops[..i + 1][..i] == ops[..i];
      if ops[i].Object? {
        offsets := offsets[i := cursor];
        cursor := cursor + Appended(ops[i]);
      }
    }
    assert ops[..|ops|] == ops;
    if cursor != |added| {
      return Ok(Unplaced(origins));
    }
    var bound: seq<Bound> := [];
    for i := 0 to |origins|
      invariant BindTo(origins[..i], ops, added) == Ok(bound)
    {
      assert origins[..i + 1][..i] == origins[..i];
      var p := At(added, offsets[origins[i].opIndex]);
      if p.Err? {
        BindFails(origins, i + 1, ops, added);
        return Err(OutOfRange);
      }
      bound := bound + [BoundTo(p.value, origins[i].span)];
    }
    assert origins[..|origins|] == origins;
    return Ok(bound);
  }

  lemma {:induction false} BindFails(origins: seq<Origin>, n: nat, ops: seq<Op>, added: seq<Position>)
    requires n <= |origins| && BindTo(origins[..n], ops, added).Err?
    ensures BindTo(origins, ops, added) == Err(OutOfRange)
    decreases |origins| - n
  {
    if n == |origins| {
      assert origins[..n] == origins;
      assert BindTo(origins, ops, added).error == OutOfRange;
    } else {
      assert origins[..n + 1][..n] == origins[..n];
      BindFails(origins, n + 1, ops, added);
    }
  }

  method ComputeAdded(diff: seq<Change>) returns (added: seq<Position>)
    ensures added == Added(diff, Before(diff))
  {
    var before := Before(diff);
    added := [];
    for i := 0 to |diff|
      invariant added == Added(diff[..i], before)
    {
      assert diff[..i + 1][..i] == diff[..i];
      var c := diff[i];
      if c.added && c.after.Some? && c.after.value.id !in before {
        added := added + [c.after.value];
      }
    }
    assert diff[..|diff|] == diff;
  }

  /** No operation takes windows away from the count. */
  predicate NoNegativeCounts(ops: seq<Op>) {
    forall i | 0 <= i < |ops| :: Grown(ops[i]) >= 0
  }

  lemma {:induction false} TotalGrows(ops: seq<Op>, i: nat, j: nat)
    requires NoNegativeCounts(ops) && i <= j <= |ops|
    ensures 0 <= Total(ops[..i]) <= Total(ops[..j])
    decreases j
  {
    if i < j {
      assert ops[..j][..j - 1] == ops[..j - 1];
      TotalGrows(ops, i, j - 1);
    } else if j > 0 {
      assert ops[..j][..j - 1] == ops[..j - 1];
      TotalGrows(ops, j - 1, j - 1);
    }
  }

  /** The origins name windows among the operations, in order, as `bind` leaves them. */
  ghost predicate Aligned(origins: seq<Origin>, ops: seq<Op>) {
    && (forall i | 0 <= i < |origins| :: origins[i].opIndex < |ops| && IsWindow(ops[origins[i].opIndex]))
    && (forall i, j | 0 <= i < j < |origins| :: origins[i].opIndex < origins[j].opIndex)
  }

  /** The place of the window an operation creates is inside the appended ones, and later operations create later
      windows. */
  lemma WindowsHaveTheirPlace(ops: seq<Op>, i: nat, j: nat)
    requires NoNegativeCounts(ops) && i <= j < |ops| && IsWindow(ops[i]) && IsWindow(ops[j])
    ensures 0 <= Total(ops[..i]) <= Total(ops[..j]) < Total(ops)
    ensures i < j ==> Total(ops[..i]) < Total(ops[..j])
  {
    assert ops[..j + 1][..j] == ops[..j] && ops[..i + 1][..i] == ops[..i] && ops[..|ops|] == ops;
    TotalGrows(ops, i, j);
    TotalGrows(ops, j + 1, |ops|);
    if i < j {
      TotalGrows(ops, i + 1, j);
    }
  }

  lemma {:induction false} BindToIsTotal(origins: seq<Origin>, ops: seq<Op>, added: seq<Position>)
    requires Aligned(origins, ops) && NoNegativeCounts(ops) && Total(ops) == |added|
    ensures var r := BindTo(origins, ops, added);
      && r.Ok? && |r.value| == |origins|
      && forall i | 0 <= i < |origins| ::
           && 0 <= Total(ops[..origins[i].opIndex]) < |added|
           && r.value[i] == BoundTo(added[Total(ops[..origins[i].opIndex])], origins[i].span)
  {
    if origins != [] {
      var n := |origins| - 1;
      BindToIsTotal(origins[..n], ops, added);
      WindowsHaveTheirPlace(ops, origins[n].opIndex, origins[n].opIndex);
    }
  }

  /** The appended windows, operation by operation. */
  function Joined(blocks: seq<seq<Position>>): seq<Position> {
    if blocks == [] then [] else Joined(blocks[..|blocks| - 1]) + blocks[|blocks| - 1]
  }

  /** The preview appends, for each operation in turn, as many windows as the operation announces. */
  ghost predicate Appends(ops: seq<Op>, blocks: seq<seq<Position>>) {
    |blocks| == |ops| && forall i | 0 <= i < |ops| :: |blocks[i]| == Grown(ops[i])
  }

  lemma {:induction false} BlockStarts(ops: seq<Op>, blocks: seq<seq<Position>>, i: nat)
    requires Appends(ops, blocks) && i < |ops| && blocks[i] != []
    ensures 0 <= Total(ops[..i]) < |Joined(blocks)| && Joined(blocks)[Total(ops[..i])] == blocks[i][0]
    ensures |Joined(blocks)| == Total(ops)
    decreases |ops|
  {
    var n := |ops| - 1;
    JoinedLength(ops[..n], blocks[..n]);
    if i < n {
      BlockStarts(ops[..n], blocks[..n], i);
      assert ops[..n][..i] == ops[..i];
    }
  }

  lemma {:induction false} JoinedLength(ops: seq<Op>, blocks: seq<seq<Position>>)
    requires Appends(ops, blocks)
    ensures |Joined(blocks)| == Total(ops)
  {
    if ops != [] {
      JoinedLength(ops[..|ops| - 1], blocks[..|blocks| - 1]);
    }
  }

  /** When the preview appends each operation's windows in turn, every origin is bound to the very window its own
      operation created. */
  lemma OriginsFindTheirWindows(origins: seq<Origin>, ops: seq<Op>, diff: seq<Change>, blocks: seq<seq<Position>>)
    requires Aligned(origins, ops) && Appends(ops, blocks) && Added(diff, Before(diff)) == Joined(blocks)
    ensures var r := Attach(origins, ops, diff);
      && r.Ok? && |r.value| == |origins|
      && forall i | 0 <= i < |origins| ::
           blocks[origins[i].opIndex] != [] && r.value[i] == BoundTo(blocks[origins[i].opIndex][0], origins[i].span)
  {
    JoinedLength(ops, blocks);
    forall i | 0 <= i < |ops| ensures Grown(ops[i]) >= 0 {
      assert |blocks[i]| == Grown(ops[i]);
    }
    BindToIsTotal(origins, ops, Joined(blocks));
    forall i | 0 <= i < |origins|
      ensures blocks[origins[i].opIndex] != []
      ensures Attach(origins, ops, diff).value[i] == BoundTo(blocks[origins[i].opIndex][0], origins[i].span)
    {
      var k := origins[i].opIndex;
      assert |blocks[k]| == 1;
      BlockStarts(ops, blocks, k);
    }
  }

  /** Whatever the preview did, attaching never fails and never binds two origins to the same place; when the number
      of new windows is not the announced one it binds none. */
  lemma AttachIsConservative(origins: seq<Origin>, ops: seq<Op>, diff: seq<Change>)
    requires Aligned(origins, ops) && NoNegativeCounts(ops)
    ensures var r, added := Attach(origins, ops, diff), Added(diff, Before(diff));
      && r.Ok? && |r.value| == |origins|
      && (forall i | 0 <= i < |origins| :: r.value[i].span == origins[i].span)
      && (Total(ops) != |added| ==> forall i | 0 <= i < |origins| :: r.value[i].Unbound?)
      && (Total(ops) == |added| ==>
            (forall i | 0 <= i < |origins| ::
               0 <= Total(ops[..origins[i].opIndex]) < |added|
               && r.value[i] == BoundTo(added[Total(ops[..origins[i].opIndex])], origins[i].span))
            && (forall i, j | 0 <= i < j < |origins| ::
                  Total(ops[..origins[i].opIndex]) < Total(ops[..origins[j].opIndex])))
  {
    if Total(ops) == |Added(diff, Before(diff))| {
      BindToIsTotal(origins, ops, Added(diff, Before(diff)));
      forall i, j | 0 <= i < j < |origins|
        ensures Total(ops[..origins[i].opIndex]) < Total(ops[..origins[j].opIndex])
      {
        WindowsHaveTheirPlace(ops, origins[i].opIndex, origins[j].opIndex);
      }
    }
  }

  /** What `bind` leaves is what `attach` expects. */
  lemma BindAligns(ops: seq<Op>, sources: seq<string>, rd: Reader)
    requires Readable(sources, rd)
    ensures Aligned(Bind(ops, sources, rd).origins, Bind(ops, sources, rd).kept)
  {
    BindIsSound(ops, sources, rd);
  }

  /** Outside the list, in either direction. */
  predicate Misses(ops: seq<Op>, o: Origin, n: nat)
    requires o.opIndex < |ops|
  {
    var place := Total(ops[..o.opIndex]);
    !(0 <= place + n && place < n)
  }

  lemma {:induction false} BindFailsIff(origins: seq<Origin>, ops: seq<Op>, added: seq<Position>)
    requires forall i | 0 <= i < |origins| :: origins[i].opIndex < |ops|
    ensures BindTo(origins, ops, added).Err? <==> exists i | 0 <= i < |origins| :: Misses(ops, origins[i], |added|)
  {
    if origins != [] {
      var n := |origins| - 1;
      BindFailsIff(origins[..n], ops, added);
      if i :| 0 <= i < n && Misses(ops, origins[..n][i], |added|) {
        assert Misses(ops, origins[i], |added|);
      }
      if i :| 0 <= i < |origins| && Misses(ops, origins[i], |added|) {
        assert i < n ==> Misses(ops, origins[..n][i], |added|);
      }
    }
  }

  /** Attaching fails exactly when the totals agree and the counts before some origin's operation add up to a place the
      list does not have, from its start or from its end. */
  lemma AttachFailsIff(origins: seq<Origin>, ops: seq<Op>, diff: seq<Change>)
    requires forall i | 0 <= i < |origins| :: origins[i].opIndex < |ops|
    ensures var added := Added(diff, Before(diff));
      Attach(origins, ops, diff).Err? <==>
        Total(ops) == |added| && exists i | 0 <= i < |origins| :: Misses(ops, origins[i], |added|)
  {
    BindFailsIff(origins, ops, Added(diff, Before(diff)));
  }

  const MAX_COUNT := 100

  /** What the registry of operations lets through: whoever names a count names one to a hundred. */
  predicate Validated(ops: seq<Op>) {
    forall i | 0 <= i < |ops| :: ops[i].Object? && ops[i].kind.Duplicate? ==> 1 <= ops[i].kind.count <= MAX_COUNT
  }

  /** On operations that passed it, attaching never fails: no count below one arrives. */
  lemma ValidatedNeverFails(origins: seq<Origin>, ops: seq<Op>, diff: seq<Change>)
    requires Aligned(origins, ops) && Validated(ops)
    ensures NoNegativeCounts(ops) && Attach(origins, ops, diff).Ok?
    ensures forall i | 0 <= i < |origins| && Total(ops) == |Added(diff, Before(diff))| ::
      !Misses(ops, origins[i], |Added(diff, Before(diff))|)
  {
    AttachIsConservative(origins, ops, diff);
  }

  /** Without that validation a negative count would break it: the counts add up, and the second window has no
      place. */
  lemma ANegativeCountLosesAWindow(span: Span, p: Position)
    ensures var add, minus := Object(AddPosition, NoPhrase, None, None, 1, 0),
                              Object(Duplicate(-1), NoPhrase, None, None, 1, 0);
      Attach([Origin(1, span)], [add, add, minus], [Change(true, Some(p))]) == Err(OutOfRange)
  {
    var add := Object(AddPosition, NoPhrase, None, None, 1, 0);
    var minus := Object(Duplicate(-1), NoPhrase, None, None, 1, 0);
    var ops, diff, origins := [add, add, minus], [Change(true, Some(p))], [Origin(1, span)];
    assert ops[..2] == [add, add] && [add, add][..1] == [add] && [add][..0] == [] && ops[..1] == [add];
    assert Total([add]) == 1 && Total([add, add]) == 2 && Total(ops) == 1;
    assert diff[..0] == [] && Before(diff) == {};
    assert Added(diff, {}) == [p];
    assert origins[..0] == [];
    assert BindTo(origins, ops, [p]) == Err(OutOfRange);
  }
}
