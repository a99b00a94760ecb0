/** Which phrase each proposed window comes from (`origins.py`): the clauses of a request, the shortest one that
    states a window, the split of the proposed operations from their origins, and the window each origin is bound
    to. The reading of numbers and the two sentence patterns are parameters;
    `NumberScanner` is the module's reading of numbers. */
module OriginBinding {
  import opened Basics
  import opened Origins

  // ---------------------------------------------------------------- operations

  /** What the operation cites: nothing the server can read as a phrase, or a phrase. */
  datatype Citation = NoPhrase | Phrase(quote: string)

  datatype Kind = AddPosition | AddDesign | Duplicate(count: int) | DuplicateMany(ids: nat) | OtherKind

  /** An element of the proposed list; the last two fields of a window are absent when they cannot be read. */
  datatype Op =
    | NotAnObject
    | Object(kind: Kind, cited: Citation, width: Option<real>, height: Option<real>, quantity: int, rest: nat)

  predicate IsWindow(op: Op) {
    op.Object? && op.kind.AddPosition?
  }

  /** The operation without its origin, as the engine previews it. */
  function Bare(op: Op): Op {
    if op.Object? then op.(cited := NoPhrase) else op
  }

  // ---------------------------------------------------------------- what a phrase states

  datatype Measure = Millimetres | Centimetres | Metres | Unstated

  /** A number of a phrase as the scanner reads it; `marked` when it was written with a decimal mark. */
  datatype Number = Number(value: real, unit: Measure, marked: bool)

  /** Every millimetre value a number can mean. */
  predicate CanMean(n: Number, v: real) {
    n.value > 0.0
    && match n.unit
       case Millimetres => v == n.value
       case Centimetres => v == n.value * 10.0
       case Metres => v == n.value * 1000.0
       case Unstated =>
         || v == n.value
         || ((n.marked || n.value < 10.0) && v == n.value * 1000.0)
         || (10.0 <= n.value <= 300.0 && v == n.value * 10.0)
  }

  predicate States(numbers: seq<Number>, v: real) {
    exists i | 0 <= i < |numbers| :: CanMean(numbers[i], v)
  }

  method Measures(numbers: seq<Number>) returns (values: set<real>)
    ensures forall v :: v in values <==> States(numbers, v)
  {
    values := {};
    for i := 0 to |numbers|
      invariant forall v :: v in values <==> exists k | 0 <= k < i :: CanMean(numbers[k], v)
    {
      var n := numbers[i];
      if n.value <= 0.0 {
        continue;
      }
      match n.unit {
        case Millimetres => values := values + {n.value};
        case Centimetres => values := values + {n.value * 10.0};
        case Metres => values := values + {n.value * 1000.0};
        case Unstated =>
          values := values + {n.value};
          if n.marked || n.value < 10.0 {
            values := values + {n.value * 1000.0};
          }
          if 10.0 <= n.value <= 300.0 {
            values := values + {n.value * 10.0};
          }
      }
    }
  }

  /** A sentence of a text and the clause boundaries found inside it. */
  datatype Segment = Segment(start: nat, end: nat, cuts: seq<(nat, nat)>)

  /** What the module does not spell out: reading numbers and counts in a phrase, and cutting a text. */
  datatype Reader = Reader(
    fold: Fold,
    space: Space,
    numbers: string -> seq<Number>,
    counts: string -> set<int>,
    segments: string -> seq<Segment>)

  datatype Reason = OriginMissing | MeasureMissing | QuantityMissing

  /** Nothing when the phrase states the window's measures and its quantity. */
  function Check(op: Op, quote: string, rd: Reader): Option<Reason>
    requires op.Object?
  {
    if op.height.None? || !States(rd.numbers(quote), op.height.value) then Some(MeasureMissing)
    else if op.width.None? || !States(rd.numbers(quote), op.width.value) then Some(MeasureMissing)
    else if op.quantity != 1 && op.quantity !in rd.counts(quote) then Some(QuantityMissing)
    else None
  }

  // ---------------------------------------------------------------- clauses

  /** The pieces between the cuts of a segment. */
  function PiecesFrom(cursor: nat, end: nat, cuts: seq<(nat, nat)>): seq<(nat, nat)>
    decreases |cuts|
  {
    if cuts == [] then [(cursor, end)] else [(cursor, cuts[0].0)] + PiecesFrom(cuts[0].1, end, cuts[1..])
  }

  /** The runs that start with one piece, from a last piece on. */
  function RunsOf(pieces: seq<(nat, nat)>, first: nat, last: nat): seq<(nat, nat)>
    requires first <= last <= |pieces|
    decreases |pieces| - last
  {
    if last == |pieces| then [] else [(pieces[first].0, pieces[last].1)] + RunsOf(pieces, first, last + 1)
  }

  function RunsFrom(pieces: seq<(nat, nat)>, first: nat): seq<(nat, nat)>
    requires first <= |pieces|
    decreases |pieces| - first
  {
    if first == |pieces| then [] else RunsOf(pieces, first, first) + RunsFrom(pieces, first + 1)
  }

  function PiecesOf(segment: Segment): seq<(nat, nat)> {
    PiecesFrom(segment.start, segment.end, segment.cuts)
  }

  function SegmentRuns(segment: Segment): seq<(nat, nat)> {
    RunsFrom(PiecesOf(segment), 0)
  }

  function Clauses(segments: seq<Segment>): seq<(nat, nat)> {
    if segments == [] then []
    else Clauses(segments[..|segments| - 1]) + SegmentRuns(segments[|segments| - 1])
  }

  method ComputeClauses(segments: seq<Segment>) returns (spans: seq<(nat, nat)>)
    ensures spans == Clauses(segments)
  {
    spans := [];
    for s := 0 to |segments|
      invariant spans == Clauses(segments[..s])
    {
      assert segments[..s + 1][..s] == segments[..s];
      var pieces := ComputePieces(segments[s].start, segments[s].end, segments[s].cuts);
      spans := AddRuns(spans, pieces);
    }
    assert segments[..|segments|] == segments;
  }

  lemma OneMoreOf<T>(a: seq<T>, x: T, rest: seq<T>)
    ensures a + ([x] + rest) == (a + [x]) + rest
  {
  }

  lemma Regroup<T>(a: seq<T>, b: seq<T>, c: seq<T>)
    ensures a + (b + c) == (a + b) + c
  {
  }

  /** The two inner loops: from each first piece to each last one. */
  method AddRuns(before: seq<(nat, nat)>, pieces: seq<(nat, nat)>) returns (spans: seq<(nat, nat)>)
    ensures spans == before + RunsFrom(pieces, 0)
  {
    spans := before;
    for first := 0 to |pieces|
      invariant spans + RunsFrom(pieces, first) == before + RunsFrom(pieces, 0)
    {
      ghost var entry := spans;
      Regroup(entry, RunsOf(pieces, first, first), RunsFrom(pieces, first + 1));
      for last := first to |pieces|
        invariant spans + RunsOf(pieces, first, last) == entry + RunsOf(pieces, first, first)
      {
        OneMoreOf(spans, (pieces[first].0, pieces[last].1), RunsOf(pieces, first, last + 1));
        spans := spans + [(pieces[first].0, pieces[last].1)];
      }
      assert spans == spans + RunsOf(pieces, first, |pieces|);
    }
    assert spans == spans + RunsFrom(pieces, |pieces|);
  }

  method ComputePieces(start: nat, end: nat, cuts: seq<(nat, nat)>) returns (pieces: seq<(nat, nat)>)
    ensures pieces == PiecesFrom(start, end, cuts)
  {
    pieces := [];
    var cursor := start;
    for i := 0 to |cuts|
      invariant pieces + PiecesFrom(cursor, end, cuts[i..]) == PiecesFrom(start, end, cuts)
    {
      assert cuts[i..][1..] == cuts[i + 1..];
      ghost var rest := PiecesFrom(cuts[i].1, end, cuts[i + 1..]);
      assert pieces + ([(cursor, cuts[i].0)] + rest) == pieces + [(cursor, cuts[i].0)] + rest;
      pieces := pieces + [(cursor, cuts[i].0)];
      cursor := cuts[i].1;
    }
    pieces := pieces + [(cursor, end)];
  }

  /** It starts where one piece starts and ends where that piece or a later one ends. */
  predicate StartsAtPiece(pieces: seq<(nat, nat)>, first: nat, from: nat, run: (nat, nat))
    requires first <= from
  {
    exists k | from <= k < |pieces| :: run == (pieces[first].0, pieces[k].1)
  }

  predicate IsRun(pieces: seq<(nat, nat)>, from: nat, run: (nat, nat)) {
    exists first | from <= first < |pieces| :: StartsAtPiece(pieces, first, first, run)
  }

  lemma {:induction false} RunsOfAre(pieces: seq<(nat, nat)>, first: nat, last: nat, run: (nat, nat))
    requires first <= last <= |pieces|
    ensures run in RunsOf(pieces, first, last) <==> StartsAtPiece(pieces, first, last, run)
    decreases |pieces| - last
  {
    if last < |pieces| {
      RunsOfAre(pieces, first, last + 1, run);
    }
  }

  lemma InConcat<T>(a: seq<T>, b: seq<T>, x: T)
    ensures x in a + b <==> x in a || x in b
  {
  }

  lemma {:induction false} RunFrom(pieces: seq<(nat, nat)>, first: nat, run: (nat, nat)) returns (a: nat)
    requires first <= |pieces| && run in RunsFrom(pieces, first)
    ensures first <= a < |pieces| && StartsAtPiece(pieces, a, a, run)
    decreases |pieces| - first
  {
    InConcat(RunsOf(pieces, first, first), RunsFrom(pieces, first + 1), run);
    if run in RunsOf(pieces, first, first) {
      RunsOfAre(pieces, first, first, run);
      a := first;
    } else {
      a := RunFrom(pieces, first + 1, run);
    }
  }

  /** The runs from a later piece on are the last ones. */
  lemma {:induction false} RunsSplit(pieces: seq<(nat, nat)>, first: nat, a: nat) returns (before: seq<(nat, nat)>)
    requires first <= a <= |pieces|
    ensures RunsFrom(pieces, first) == before + RunsFrom(pieces, a)
    decreases a - first
  {
    if first == a {
      before := [];
    } else {
      before := RunsSplit(pieces, first + 1, a);
      Regroup(RunsOf(pieces, first, first), before, RunsFrom(pieces, a));
      before := RunsOf(pieces, first, first) + before;
    }
  }

  lemma RunIsListed(pieces: seq<(nat, nat)>, a: nat, run: (nat, nat))
    requires a < |pieces| && run in RunsOf(pieces, a, a)
    ensures run in RunsFrom(pieces, 0)
  {
    var before := RunsSplit(pieces, 0, a);
    var here, later := RunsOf(pieces, a, a), RunsFrom(pieces, a + 1);
    InConcat(here, later, run);
    InConcat(before, here + later, run);
  }

  lemma RunsFromAre(pieces: seq<(nat, nat)>, run: (nat, nat))
    ensures run in RunsFrom(pieces, 0) <==> IsRun(pieces, 0, run)
  {
    if run in RunsFrom(pieces, 0) {
      var a := RunFrom(pieces, 0, run);
    }
    if IsRun(pieces, 0, run) {
      var a :| 0 <= a < |pieces| && StartsAtPiece(pieces, a, a, run);
      RunsOfAre(pieces, a, a, run);
      RunIsListed(pieces, a, run);
    }
  }

  lemma {:induction false} ClauseFrom(segments: seq<Segment>, run: (nat, nat)) returns (s: nat)
    requires run in Clauses(segments)
    ensures s < |segments| && run in SegmentRuns(segments[s])
  {
    var n := |segments| - 1;
    if run in SegmentRuns(segments[n]) {
      s := n;
    } else {
      s := ClauseFrom(segments[..n], run);
    }
  }

  lemma {:induction false} ClauseIsListed(segments: seq<Segment>, s: nat, run: (nat, nat))
    requires s < |segments| && run in SegmentRuns(segments[s])
    ensures run in Clauses(segments)
  {
    var n := |segments| - 1;
    if s < n {
      ClauseIsListed(segments[..n], s, run);
    }
  }

  /** The clauses of a text are exactly the runs of the pieces of its segments. */
  lemma ClausesAreTheRuns(segments: seq<Segment>, run: (nat, nat))
    ensures run in Clauses(segments) <==>
      exists s | 0 <= s < |segments| :: IsRun(PiecesOf(segments[s]), 0, run)
  {
    if run in Clauses(segments) {
      var s := ClauseFrom(segments, run);
      RunsFromAre(PiecesOf(segments[s]), run);
    }
    if s :| 0 <= s < |segments| && IsRun(PiecesOf(segments[s]), 0, run) {
      RunsFromAre(PiecesOf(segments[s]), run);
      ClauseIsListed(segments, s, run);
    }
  }

  // ---------------------------------------------------------------- the shortest clause that states a window

  predicate Edge(c: char) {
    c in " \t\n.,;"
  }

  /** The first and the past-the-last index that hold no edge character. */
  function Inner(s: string): (r: (nat, nat))
    ensures r.0 <= r.1 <= |s|
    ensures r.0 < r.1 ==> !Edge(s[r.0]) && !Edge(s[r.1 - 1])
    ensures forall k | 0 <= k < |s| && !(r.0 <= k < r.1) :: Edge(s[k])
  {
    if s == [] then (0, 0)
    else if Edge(s[|s| - 1]) then Inner(s[..|s| - 1])
    else (InnerStart(s, 0), |s|)
  }

  function InnerStart(s: string, i: nat): (j: nat)
    requires i < |s| && !Edge(s[|s| - 1])
    ensures i <= j < |s| && !Edge(s[j]) && forall k | i <= k < j :: Edge(s[k])
    decreases |s| - i
  {
    if Edge(s[i]) then InnerStart(s, i + 1) else i
  }

  function Strip(s: string): string {
    s[Inner(s).0..Inner(s).1]
  }

  /** The first place a text stands in another, from one index on. */
  function IndexFrom(s: string, part: string, i: nat): (j: nat)
    requires i <= |s|
    ensures i <= j <= |s|
    decreases |s| - i
  {
    if i == |s| || (i + |part| <= |s| && s[i..i + |part|] == part) then i else IndexFrom(s, part, i + 1)
  }

  /** Searching a text for its stripped self finds it where stripping left it. */
  lemma {:induction false} StrippedIsFoundInPlace(s: string, i: nat)
    requires Strip(s) != [] && i <= Inner(s).0
    ensures IndexFrom(s, Strip(s), i) == Inner(s).0
    decreases |s| - i
  {
    var (a, b) := Inner(s);
    if i < a {
      assert i + (b - a) <= |s| ==> s[i..i + (b - a)][0] == s[i] != Strip(s)[0];
      StrippedIsFoundInPlace(s, i + 1);
    }
  }

  /** The phrase one clause offers, when it states the window. */
  function Offer(op: Op, index: nat, source: string, clause: (nat, nat), rd: Reader): Option<Span>
    requires op.Object? && clause.0 <= clause.1 <= |source|
  {
    var segment := source[clause.0..clause.1];
    var stripped := Strip(segment);
    if stripped == [] || |stripped| > MAX_QUOTE || Check(op, stripped, rd).Some? then None
    else
      var begin := clause.0 + IndexFrom(segment, stripped, 0);
      Some(Span(index, begin, begin + |stripped|, stripped))
  }

  predicate Inside(clauses: seq<(nat, nat)>, n: nat) {
    forall i | 0 <= i < |clauses| :: clauses[i].0 <= clauses[i].1 <= n
  }

  function ClausesOf(source: string, rd: Reader): seq<(nat, nat)> {
    Clauses(rd.segments(source))
  }

  predicate Readable(sources: seq<string>, rd: Reader) {
    forall k | 0 <= k < |sources| :: Inside(ClausesOf(sources[k], rd), |sources[k]|)
  }

  function OffersOf(op: Op, index: nat, source: string, clauses: seq<(nat, nat)>, rd: Reader): seq<Span>
    requires op.Object? && Inside(clauses, |source|)
  {
    if clauses == [] then []
    else
      var last := Offer(op, index, source, clauses[|clauses| - 1], rd);
      OffersOf(op, index, source, clauses[..|clauses| - 1], rd) + if last.Some? then [last.value] else []
  }

  function Offers(op: Op, sources: seq<string>, rd: Reader): seq<Span>
    requires op.Object? && Readable(sources, rd)
  {
    if sources == [] then []
    else
      var n := |sources| - 1;
      Offers(op, sources[..n], rd)
      + OffersOf(op, n, sources[n], ClausesOf(sources[n], rd), rd)
  }

  /** The first of the shortest. */
  function Shortest(spans: seq<Span>): Option<Span> {
    if spans == [] then None
    else
      var best, last := Shortest(spans[..|spans| - 1]), spans[|spans| - 1];
      if best.None? || |last.quote| < |best.value.quote| then Some(last) else best
  }

  method FindOrigin(op: Op, sources: seq<string>, rd: Reader) returns (best: Option<Span>)
    requires op.Object? && Readable(sources, rd)
    ensures best == Shortest(Offers(op, sources, rd))
  {
    best := None;
    for k := 0 to |sources|
      invariant best == Shortest(Offers(op, sources[..k], rd))
    {
      assert sources[..k + 1][..k] == sources[..k];
      var clauses := ComputeClauses(rd.segments(sources[k]));
      assert Inside(ClausesOf(sources[k], rd), |sources[k]|);
      best := BestOfSource(op, k, sources[k], clauses, rd, best, Offers(op, sources[..k], rd));
    }
    assert sources[..|sources|] == sources;
  }

  method BestOfSource(op: Op, k: nat, source: string, clauses: seq<(nat, nat)>, rd: Reader, entry: Option<Span>,
                      ghost earlier: seq<Span>) returns (best: Option<Span>)
    requires op.Object? && Inside(clauses, |source|) && entry == Shortest(earlier)
    ensures best == Shortest(earlier + OffersOf(op, k, source, clauses, rd))
  {
    best := entry;
    assert earlier + [] == earlier;
    for i := 0 to |clauses|
      invariant best == Shortest(earlier + OffersOf(op, k, source, clauses[..i], rd))
    {
      OneMoreOffer(op, k, source, clauses, i, rd, earlier);
      var offer := Offer(op, k, source, clauses[i], rd);
      if offer.Some? && (best.None? || |offer.value.quote| < |best.value.quote|) {
        best := offer;
      }
    }
    assert clauses[..|clauses|] == clauses;
  }

  lemma OneMoreOffer(op: Op, k: nat, source: string, clauses: seq<(nat, nat)>, i: nat, rd: Reader, earlier: seq<Span>)
    requires op.Object? && Inside(clauses, |source|) && i < |clauses|
    ensures var before := Shortest(earlier + OffersOf(op, k, source, clauses[..i], rd));
      var offer := Offer(op, k, source, clauses[i], rd);
      Shortest(earlier + OffersOf(op, k, source, clauses[..i + 1], rd))
      == if offer.Some? && (before.None? || |offer.value.quote| < |before.value.quote|) then offer else before
  {
    assert clauses[..i + 1][..i] == clauses[..i];
    var before := earlier + OffersOf(op, k, source, clauses[..i], rd);
    var offer := Offer(op, k, source, clauses[i], rd);
    if offer.Some? {
      assert earlier + OffersOf(op, k, source, clauses[..i + 1], rd) == before + [offer.value];
      assert (before + [offer.value])[..|before|] == before;
    } else {
      assert earlier + OffersOf(op, k, source, clauses[..i + 1], rd) == before;
    }
  }

  predicate FirstShortest(spans: seq<Span>, i: nat) {
    && i < |spans|
    && (forall j | 0 <= j < |spans| :: |spans[i].quote| <= |spans[j].quote|)
    && (forall j | 0 <= j < i :: |spans[i].quote| < |spans[j].quote|)
  }

  /** The search gives the first of the shortest offers, and nothing exactly when there is none. */
  lemma {:induction false} ShortestIsFirst(spans: seq<Span>) returns (i: nat)
    ensures if spans == [] then Shortest(spans).None? else FirstShortest(spans, i) && Shortest(spans) == Some(spans[i])
  {
    i := 0;
    if spans != [] {
      var n := |spans| - 1;
      i := ShortestIsFirst(spans[..n]);
      assert n > 0 ==> spans[..n][i] == spans[i];
      if n == 0 || |spans[n].quote| < |spans[i].quote| {
        i := n;
      }
      assert forall j | 0 <= j < n :: spans[..n][j] == spans[j];
    }
  }

  // The patterns find their matches in order and inside the text; then so do the clauses.

  predicate Ascending(spans: seq<(nat, nat)>, from: nat, to: nat)
    decreases |spans|
  {
    if spans == [] then from <= to
    else from <= spans[0].0 <= spans[0].1 && Ascending(spans[1..], spans[0].1, to)
  }

  /** Pieces follow one another inside the segment. */
  predicate Chained(pieces: seq<(nat, nat)>, from: nat, to: nat) {
    forall i, j | 0 <= i <= j < |pieces| :: from <= pieces[i].0 <= pieces[j].1 <= to
  }

  lemma {:induction false} PiecesAreChained(cursor: nat, end: nat, cuts: seq<(nat, nat)>)
    requires Ascending(cuts, cursor, end)
    ensures Chained(PiecesFrom(cursor, end, cuts), cursor, end)
    decreases |cuts|
  {
    if cuts != [] {
      PiecesAreChained(cuts[0].1, end, cuts[1..]);
      AscendingFits(cuts[1..], cuts[0].1, end);
      var rest := PiecesFrom(cuts[0].1, end, cuts[1..]);
      var all := PiecesFrom(cursor, end, cuts);
      assert all[0] == (cursor, cuts[0].0);
      forall i, j | 0 <= i <= j < |all| ensures cursor <= all[i].0 <= all[j].1 <= end {
        assert i > 0 ==> all[i] == rest[i - 1];
        assert j > 0 ==> all[j] == rest[j - 1] && rest[j - 1].0 <= rest[j - 1].1;
      }
    }
  }

  lemma {:induction false} AscendingFits(cuts: seq<(nat, nat)>, from: nat, to: nat)
    requires Ascending(cuts, from, to)
    ensures from <= to
    decreases |cuts|
  {
    if cuts != [] {
      AscendingFits(cuts[1..], cuts[0].1, to);
    }
  }

  /** Every clause is a piece of the text, inside one segment. */
  lemma {:induction false} ClausesStayInside(segments: seq<Segment>, n: nat)
    requires forall s | 0 <= s < |segments| ::
      segments[s].end <= n && Ascending(segments[s].cuts, segments[s].start, segments[s].end)
    ensures Inside(Clauses(segments), n)
  {
    forall i | 0 <= i < |Clauses(segments)| ensures Clauses(segments)[i].0 <= Clauses(segments)[i].1 <= n {
      var run := Clauses(segments)[i];
      ClausesAreTheRuns(segments, run);
      var s :| 0 <= s < |segments| && IsRun(PiecesOf(segments[s]), 0, run);
      PiecesAreChained(segments[s].start, segments[s].end, segments[s].cuts);
    }
  }

  /** A phrase the server may give a window: a literal piece of a source, of at most 400 characters, that states it. */
  ghost predicate Supports(span: Span, op: Op, sources: seq<string>, rd: Reader)
    requires op.Object?
  {
    && span.source < |sources| && span.start <= span.end <= |sources[span.source]|
    && span.quote == sources[span.source][span.start..span.end]
    && Check(op, span.quote, rd).None?
  }

  lemma OfferSupports(op: Op, sources: seq<string>, index: nat, clause: (nat, nat), rd: Reader)
    requires op.Object? && index < |sources| && clause.0 <= clause.1 <= |sources[index]|
    ensures var offer := Offer(op, index, sources[index], clause, rd);
      offer.Some? ==> Supports(offer.value, op, sources, rd) && 0 < |offer.value.quote| <= MAX_QUOTE
  {
    var segment := sources[index][clause.0..clause.1];
    if Strip(segment) != [] {
      StrippedIsFoundInPlace(segment, 0);
      SliceOfSlice(sources[index], clause.0, clause.1, Inner(segment).0, Inner(segment).1);
    }
  }

  lemma SliceOfSlice(s: string, lo: nat, hi: nat, a: nat, b: nat)
    requires lo <= hi <= |s| && a <= b <= hi - lo
    ensures s[lo..hi][a..b] == s[lo + a..lo + b]
  {
    forall k | 0 <= k < b - a ensures s[lo..hi][a..b][k] == s[lo + a..lo + b][k] {
      assert s[lo..hi][a + k] == s[lo + a + k];
    }
  }

  lemma {:induction false} OffersOfSupport(op: Op, sources: seq<string>, index: nat, clauses: seq<(nat, nat)>, rd: Reader)
    requires op.Object? && index < |sources| && Inside(clauses, |sources[index]|)
    ensures forall i | 0 <= i < |OffersOf(op, index, sources[index], clauses, rd)| ::
      Supports(OffersOf(op, index, sources[index], clauses, rd)[i], op, sources, rd)
  {
    if clauses != [] {
      OffersOfSupport(op, sources, index, clauses[..|clauses| - 1], rd);
      OfferSupports(op, sources, index, clauses[|clauses| - 1], rd);
    }
  }

  lemma {:induction false} OffersSupport(op: Op, sources: seq<string>, rd: Reader)
    requires op.Object? && Readable(sources, rd)
    ensures forall i | 0 <= i < |Offers(op, sources, rd)| :: Supports(Offers(op, sources, rd)[i], op, sources, rd)
  {
    if sources != [] {
      var n := |sources| - 1;
      OffersSupport(op, sources[..n], rd);
      OffersOfSupport(op, sources, n, ClausesOf(sources[n], rd), rd);
      forall i | 0 <= i < |Offers(op, sources[..n], rd)|
        ensures Supports(Offers(op, sources[..n], rd)[i], op, sources, rd)
      {
        var s := Offers(op, sources[..n], rd)[i];
        assert sources[..n][s.source] == sources[s.source];
      }
    }
  }
}
