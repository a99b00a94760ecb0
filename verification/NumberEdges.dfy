/** Which numbers and count words of a piece are those of the text it is cut from: exactly those whose edges are clear,
    no digit or mark next to a digit of the number, no unit behind it, no letter next to the count word. */
module NumberEdges {
  import opened Basics
  import opened Origins
  import opened OriginBinding
  import opened NumberScanner

  /** `y` is the piece of `s` that starts at `n`. */
  predicate PieceAt(s: string, n: nat, y: string) {
    n + |y| <= |s| && s[n..n + |y|] == y
  }

  lemma SliceMoves(s: string, n: nat, y: string, p: nat, q: nat)
    requires PieceAt(s, n, y) && p <= q <= |y|
    ensures s[n + p..n + q] == y[p..q]
  {
    SliceOfSlice(s, n, n + |y|, p, q);
  }

  // ---------------------------------------------------------------- the start of a number

  /** Only a number at the very start of the piece depends on what stands before it. */
  predicate LeftClear(s: string, n: nat, p: nat)
    requires n <= |s|
  {
    p > 0 || n == 0 || !(Digit(s[n - 1]) || Mark(s[n - 1]))
  }

  lemma StartsIff(s: string, n: nat, y: string, p: nat)
    requires PieceAt(s, n, y) && Starts(y, p)
    ensures Starts(s, n + p) <==> LeftClear(s, n, p)
  {
    assert y[p] == s[n + p];
    if p > 0 {
      assert y[p - 1] == s[n + (p - 1)];
    }
  }

  // ---------------------------------------------------------------- its digits

  lemma {:induction false} DigitsMove(s: string, n: nat, y: string, p: nat)
    requires PieceAt(s, n, y) && p <= |y|
    ensures DigitsEnd(y, p) < |y| ==> DigitsEnd(s, n + p) == n + DigitsEnd(y, p)
    ensures DigitsEnd(y, p) == |y| ==> DigitsEnd(s, n + p) == DigitsEnd(s, n + |y|)
    decreases |y| - p
  {
    if p < |y| {
      assert s[n + p] == y[p];
      if Digit(y[p]) {
        DigitsMove(s, n, y, p + 1);
      }
    }
  }

  /** How many digits stand at a place. */
  function DigitsAt(s: string, i: nat): nat
    requires i <= |s|
  {
    DigitsEnd(s, i) - i
  }

  /** One to three decimals stand behind a mark. */
  predicate DecimalsBehind(s: string, i: nat)
    requires i <= |s|
  {
    i < |s| && Mark(s[i]) && 1 <= DigitsAt(s, i + 1) <= MAX_DECIMALS
  }

  /** The digits of a number of the piece go on in the text: they touch the end of the piece and a digit follows, or a
      mark with decimals; or its mark is the last of the piece and decimals follow; or its decimals are cut. */
  predicate DigitsGoOn(s: string, n: nat, y: string, p: nat)
    requires n + |y| <= |s| && p <= |y|
  {
    var d, hi := DigitsEnd(y, p), n + |y|;
    if d == |y| then DigitsAt(s, hi) > 0 || DecimalsBehind(s, hi)
    else if !Mark(y[d]) || DigitsEnd(y, d + 1) < |y| then false
    else if d + 1 == |y| then 1 <= DigitsAt(s, hi) <= MAX_DECIMALS
    else |y| - (d + 1) <= MAX_DECIMALS && DigitsAt(s, hi) > 0
  }

  /** The digits and decimals of the number end where they end in the piece. */
  predicate SameDigits(s: string, n: nat, y: string, p: nat)
    requires n + |y| <= |s| && p <= |y| && RawEnd(y, p).Some?
  {
    RawEnd(s, n + p) == Some(n + RawEnd(y, p).value)
  }

  lemma DigitsIff(s: string, n: nat, y: string, p: nat)
    requires PieceAt(s, n, y) && p <= |y| && RawEnd(y, p).Some?
    ensures SameDigits(s, n, y, p) <==> !DigitsGoOn(s, n, y, p)
  {
    var d := DigitsEnd(y, p);
    DigitsMove(s, n, y, p);
    if d < |y| {
      assert y[d] == s[n + d];
      DigitsMove(s, n, y, d + 1);
    }
  }

  // ---------------------------------------------------------------- its unit

  /** The text goes on with a unit after this place. */
  predicate UnitFollows(s: string, hi: nat, lex: Lexicon)
    requires hi <= |s|
  {
    !UnitOf(s, hi, lex).Unstated?
  }

  /** What a number of the piece finds after its digits means the same unit in the text: with nothing but whitespace left
      in the piece, no unit follows it; with a word that touches its end, the word goes on to mean the same. */
  predicate UnitKept(s: string, n: nat, y: string, q: nat, lex: Lexicon)
    requires n + |y| <= |s| && q <= |y|
  {
    var u := Skip(y, q, lex.space);
    if u == |y| then !UnitFollows(s, n + |y|, lex)
    else LettersEnd(y, u) < |y| || MeasureOf(WordOf(y, u) + WordOf(s, n + |y|), lex) == MeasureOf(WordOf(y, u), lex)
  }

  lemma {:induction false} LettersMove(s: string, n: nat, y: string, u: nat)
    requires PieceAt(s, n, y) && u <= |y|
    ensures LettersEnd(y, u) < |y| ==> LettersEnd(s, n + u) == n + LettersEnd(y, u)
    ensures LettersEnd(y, u) == |y| ==> LettersEnd(s, n + u) == LettersEnd(s, n + |y|)
    decreases |y| - u
  {
    if u < |y| {
      assert s[n + u] == y[u];
      if WordLetter(y[u]) {
        LettersMove(s, n, y, u + 1);
      }
    }
  }

  lemma TailJoins(s: string, n: nat, y: string, u: nat, e: nat)
    requires PieceAt(s, n, y) && u <= |y| && n + |y| <= e <= |s|
    ensures s[n + u..e] == y[u..] + s[n + |y|..e]
  {
    SliceMoves(s, n, y, u, |y|);
    assert s[n + u..e] == s[n + u..n + |y|] + s[n + |y|..e];
  }

  lemma WordInside(s: string, n: nat, y: string, u: nat)
    requires PieceAt(s, n, y) && u <= |y| && LettersEnd(y, u) < |y|
    ensures WordOf(s, n + u) == WordOf(y, u)
  {
    LettersMove(s, n, y, u);
    SliceMoves(s, n, y, u, LettersEnd(y, u));
  }

  /** A word of the piece that touches its end goes on in the text; any other one is the same. */
  lemma WordMoves(s: string, n: nat, y: string, u: nat)
    requires PieceAt(s, n, y) && u <= |y|
    ensures LettersEnd(y, u) < |y| ==> WordOf(s, n + u) == WordOf(y, u)
    ensures LettersEnd(y, u) == |y| ==> WordOf(s, n + u) == WordOf(y, u) + WordOf(s, n + |y|)
  {
    if LettersEnd(y, u) == |y| {
      LettersMove(s, n, y, u);
      var e := LettersEnd(s, n + |y|);
      TailJoins(s, n, y, u, e);
      LoweredConcat(y[u..], s[n + |y|..e]);
    } else {
      WordInside(s, n, y, u);
    }
  }

  lemma LoweredConcat(a: string, b: string)
    ensures Lowered(a + b) == Lowered(a) + Lowered(b)
  {
  }

  lemma {:induction false} SkipThrough(s: string, i: nat, j: nat, space: Space)
    requires i <= j <= |s| && forall k | i <= k < j :: s[k] in space
    ensures Skip(s, i, space) == Skip(s, j, space)
    decreases j - i
  {
    if i < j {
      SkipThrough(s, i + 1, j, space);
    }
  }

  lemma SkipMoves(s: string, n: nat, y: string, q: nat, space: Space)
    requires PieceAt(s, n, y) && q <= |y|
    ensures Skip(y, q, space) == |y| ==> Skip(s, n + q, space) == Skip(s, n + |y|, space)
    ensures Skip(y, q, space) < |y| ==> Skip(s, n + q, space) == n + Skip(y, q, space)
  {
    var j := Skip(y, q, space);
    SkipStops(y, q, space);
    forall k | n + q <= k < n + j ensures s[k] in space {
      assert y[k - n] == s[n + (k - n)];
    }
    if j < |y| {
      assert y[j] == s[n + j];
      SkipIs(s, n + q, n + j, space);
    } else {
      SkipThrough(s, n + q, n + j, space);
    }
  }

  predicate SameUnit(s: string, n: nat, y: string, q: nat, lex: Lexicon)
    requires n + |y| <= |s| && q <= |y|
  {
    UnitOf(s, n + q, lex) == UnitOf(y, q, lex)
  }

  lemma UnitIff(s: string, n: nat, y: string, q: nat, lex: Lexicon)
    requires PieceAt(s, n, y) && q <= |y| && "" !in lex.units
    ensures SameUnit(s, n, y, q, lex) <==> UnitKept(s, n, y, q, lex)
  {
    var u := Skip(y, q, lex.space);
    SkipMoves(s, n, y, q, lex.space);
    if u == |y| {
      assert WordOf(y, u) == "" && MeasureOf("", lex).Unstated?;
    } else {
      WordMoves(s, n, y, u);
    }
  }

  // ---------------------------------------------------------------- a number of the piece

  /** The number of the piece stands in the text, digit for digit, with the same unit. */
  predicate SameNumber(s: string, n: nat, y: string, p: nat, lex: Lexicon)
    requires PieceAt(s, n, y) && HasNumber(y, p)
  {
    Starts(s, n + p) && SameDigits(s, n, y, p) && SameUnit(s, n, y, RawEnd(y, p).value, lex)
  }

  /** Its edges are clear. */
  predicate EdgesClear(s: string, n: nat, y: string, p: nat, lex: Lexicon)
    requires PieceAt(s, n, y) && HasNumber(y, p)
  {
    LeftClear(s, n, p) && !DigitsGoOn(s, n, y, p) && UnitKept(s, n, y, RawEnd(y, p).value, lex)
  }

  /** A number of a piece is a number of its text if and only if its edges are clear: no digit or mark before it, its
      digits do not go on, and no other unit follows. */
  lemma NumberSurvivesIff(s: string, n: nat, y: string, p: nat, lex: Lexicon)
    requires Sane(lex) && PieceAt(s, n, y) && HasNumber(y, p)
    ensures SameNumber(s, n, y, p, lex) <==> EdgesClear(s, n, y, p, lex)
  {
    StartsIff(s, n, y, p);
    DigitsIff(s, n, y, p);
    UnitIff(s, n, y, RawEnd(y, p).value, lex);
  }

  lemma NumberIs(t: string, p: nat, q: nat, raw: string, unit: Measure, lex: Lexicon)
    requires p <= q <= |t| && Starts(t, p) && RawEnd(t, p) == Some(q) && t[p..q] == raw && UnitOf(t, q, lex) == unit
    ensures NumberAt(t, p, lex) == Some(NumberFrom(raw, unit))
  {
  }

  lemma SameReading(s: string, a: nat, e: nat, y: string, p: nat, q: nat, raw: string, unit: Measure, lex: Lexicon)
    requires p <= q <= |y| && Starts(y, p) && RawEnd(y, p) == Some(q) && y[p..q] == raw && UnitOf(y, q, lex) == unit
    requires a <= e <= |s| && Starts(s, a) && RawEnd(s, a) == Some(e) && s[a..e] == raw && UnitOf(s, e, lex) == unit
    ensures NumberAt(s, a, lex) == NumberAt(y, p, lex)
  {
    NumberIs(y, p, q, raw, unit, lex);
    NumberIs(s, a, e, raw, unit, lex);
  }

  lemma SameNumberReadsTheSame(s: string, n: nat, y: string, p: nat, lex: Lexicon)
    requires PieceAt(s, n, y) && HasNumber(y, p) && SameNumber(s, n, y, p, lex)
    ensures NumberAt(s, n + p, lex) == NumberAt(y, p, lex)
  {
    var q := RawEnd(y, p).value;
    SliceMoves(s, n, y, p, q);
    SameReading(s, n + p, n + q, y, p, q, y[p..q], UnitOf(y, q, lex), lex);
  }

  // ---------------------------------------------------------------- a count word of the piece

  /** No letter stands next to the word, inside the piece or beside it. */
  predicate WordClear(f: string, g: string, h: string, i: nat, w: string)
    requires i + |w| <= |g|
  {
    && (i > 0 || f == [] || !SmallLetter(f[|f| - 1]))
    && (i + |w| < |g| || h == [] || !SmallLetter(h[0]))
  }

  lemma LettersBefore(f: string, g: string, h: string, i: nat)
    requires i <= |g|
    ensures var s := f + g + h;
      (|f| + i > 0 && SmallLetter(s[|f| + i - 1])) <==>
      (if i > 0 then SmallLetter(g[i - 1]) else f != [] && SmallLetter(f[|f| - 1]))
  {
  }

  lemma LettersBehind(f: string, g: string, h: string, i: nat)
    requires i <= |g|
    ensures var s := f + g + h;
      (|f| + i < |s| && SmallLetter(s[|f| + i])) <==>
      (if i < |g| then SmallLetter(g[i]) else h != [] && SmallLetter(h[0]))
  {
  }

  /** A word of a folded piece is a word of its folded text if and only if no letter stands next to it there. */
  lemma WordSurvivesIff(f: string, g: string, h: string, i: nat, w: string)
    requires RunAt(g, i, w) && w != []
    ensures RunAt(f + g + h, |f| + i, w) <==> WordClear(f, g, h, i, w)
  {
    assert (f + g + h)[|f|..|f| + |g|] == g;
    SliceMoves(f + g + h, |f|, g, i, i + |w|);
    LettersBefore(f, g, h, i);
    LettersBehind(f, g, h, i + |w|);
  }

  // ---------------------------------------------------------------- the whole piece

  /** Every number and every count word the piece holds has clear edges. */
  ghost predicate Intact(s: string, lo: nat, hi: nat, fold: Fold, lex: Lexicon)
    requires lo <= hi <= |s|
  {
    && NumbersIntact(s, lo, s[lo..hi], lex)
    && WordsIntact(Folded(s[..lo], fold).0, Folded(s[lo..hi], fold).0, Folded(s[hi..], fold).0, lex)
  }

  ghost predicate NumbersIntact(s: string, n: nat, y: string, lex: Lexicon) {
    PieceAt(s, n, y) && forall p | 0 <= p < |y| && HasNumber(y, p) :: EdgesClear(s, n, y, p, lex)
  }

  ghost predicate WordsIntact(f: string, g: string, h: string, lex: Lexicon) {
    forall i, w | 0 <= i <= |g| && w in lex.counts && RunAt(g, i, w) :: WordClear(f, g, h, i, w)
  }

  lemma ClearNumberIsThere(s: string, n: nat, y: string, p: nat, lex: Lexicon)
    requires Sane(lex) && PieceAt(s, n, y) && HasNumber(y, p) && EdgesClear(s, n, y, p, lex)
    ensures NumberAt(s, n + p, lex) == NumberAt(y, p, lex)
  {
    NumberSurvivesIff(s, n, y, p, lex);
    SameNumberReadsTheSame(s, n, y, p, lex);
  }

  lemma StatesAtMoves(s: string, n: nat, y: string, k: nat, lex: Lexicon, v: real)
    requires Sane(lex) && NumbersIntact(s, n, y, lex) && StatesAt(y, k, lex, v)
    ensures StatesAt(s, n + k, lex, v)
  {
    ClearNumberIsThere(s, n, y, k, lex);
  }

  /** Then every measure the piece states is one the text states. */
  lemma MeasuresMove(s: string, n: nat, y: string, lex: Lexicon, v: real)
    requires Sane(lex) && NumbersIntact(s, n, y, lex) && States(Numbers(y, lex), v)
    ensures States(Numbers(s, lex), v)
  {
    StatedSomewhere(y, lex, v);
    var k :| StatesAt(y, k, lex, v);
    StatesAtMoves(s, n, y, k, lex, v);
    StatedSomewhere(s, lex, v);
  }

  lemma NumberCountsMove(s: string, n: nat, y: string, lex: Lexicon)
    requires Sane(lex) && NumbersIntact(s, n, y, lex)
    ensures NumberCounts(y, lex) <= NumberCounts(s, lex)
  {
    forall c | c in NumberCounts(y, lex) ensures c in NumberCounts(s, lex) {
      var number :| number in Numbers(y, lex) && Counts(number) && number.value.Floor == c;
      EveryNumberIsFound(y, lex, number);
      var k :| 0 <= k < |y| && NumberAt(y, k, lex) == Some(number);
      ClearNumberIsThere(s, n, y, k, lex);
      EveryNumberIsFound(s, lex, number);
    }
  }

  lemma SaysMoves(f: string, g: string, h: string, w: string, lex: Lexicon)
    requires WordsIntact(f, g, h, lex) && w in lex.counts && w != [] && Says(g, w)
    ensures Says(f + g + h, w)
  {
    var i :| 0 <= i <= |g| && RunAt(g, i, w);
    WordSurvivesIff(f, g, h, i, w);
    assert RunAt(f + g + h, |f| + i, w);
  }

  lemma FoldedParts(s: string, lo: nat, hi: nat, fold: Fold)
    requires lo <= hi <= |s|
    ensures Folded(s, fold).0 == Folded(s[..lo], fold).0 + Folded(s[lo..hi], fold).0 + Folded(s[hi..], fold).0
  {
    FoldedSlice(s, lo, hi, fold);
  }

  /** ... and so is every quantity. */
  lemma CountsMove(s: string, lo: nat, hi: nat, fold: Fold, lex: Lexicon)
    requires Sane(lex) && lo <= hi <= |s| && Intact(s, lo, hi, fold, lex)
    ensures CountsOf(s[lo..hi], fold, lex) <= CountsOf(s, fold, lex)
  {
    var f, g, h := Folded(s[..lo], fold).0, Folded(s[lo..hi], fold).0, Folded(s[hi..], fold).0;
    NumberCountsMove(s, lo, s[lo..hi], lex);
    FoldedParts(s, lo, hi, fold);
    forall c | c in WordCounts(s[lo..hi], fold, lex) ensures c in WordCounts(s, fold, lex) {
      var w :| w in lex.counts && Says(g, w) && lex.counts[w] == c;
      SaysMoves(f, g, h, w, lex);
    }
  }

  // ---------------------------------------------------------------- simple edges

  /** The stretch ends like a clause: before it no digit and no mark, behind it no digit and no letter, and no mark with
      a digit behind. */
  predicate ClauseEdges(s: string, lo: nat, hi: nat)
    requires lo <= hi <= |s|
  {
    && (lo == 0 || !(Digit(s[lo - 1]) || Mark(s[lo - 1])))
    && (hi == |s| || !(Digit(s[hi]) || WordLetter(s[hi])))
    && (hi + 1 < |s| && Mark(s[hi]) ==> !Digit(s[hi + 1]))
  }

  lemma DigitsStop(s: string, n: nat, y: string, p: nat)
    requires n + |y| <= |s| && p <= |y| && DigitsAt(s, n + |y|) == 0 && !DecimalsBehind(s, n + |y|)
    ensures !DigitsGoOn(s, n, y, p)
  {
  }

  lemma WordStops(s: string, n: nat, y: string, q: nat, lex: Lexicon)
    requires n + |y| <= |s| && q <= |y|
    requires !UnitFollows(s, n + |y|, lex) && (n + |y| == |s| || !WordLetter(s[n + |y|]))
    ensures UnitKept(s, n, y, q, lex)
  {
    var u := Skip(y, q, lex.space);
    assert WordOf(s, n + |y|) == "";
    assert WordOf(y, u) + "" == WordOf(y, u);
  }

  /** At such edges the numbers of the piece are intact, if no unit follows it. */
  lemma ClauseNumbersAreIntact(s: string, lo: nat, hi: nat, lex: Lexicon)
    requires lo <= hi <= |s| && ClauseEdges(s, lo, hi) && !UnitFollows(s, hi, lex)
    ensures NumbersIntact(s, lo, s[lo..hi], lex)
  {
    var y := s[lo..hi];
    assert DigitsAt(s, hi) == 0 && !DecimalsBehind(s, hi);
    forall p | 0 <= p < |y| && HasNumber(y, p) ensures EdgesClear(s, lo, y, p, lex) {
      DigitsStop(s, lo, y, p);
      WordStops(s, lo, y, RawEnd(y, p).value, lex);
    }
  }

  /** No letter stands at the seam. */
  predicate Seam(f: string, h: string) {
    (f == [] || !SmallLetter(f[|f| - 1])) && (h == [] || !SmallLetter(h[0]))
  }

  /** A character that folds to something, and to no letter. */
  predicate Blunt(c: char, fold: Fold) {
    fold(c) != [] && forall k | 0 <= k < |fold(c)| :: !SmallLetter(fold(c)[k])
  }

  lemma BluntSeam(s: string, lo: nat, hi: nat, fold: Fold)
    requires lo <= hi <= |s| && (lo == 0 || Blunt(s[lo - 1], fold)) && (hi == |s| || Blunt(s[hi], fold))
    ensures Seam(Folded(s[..lo], fold).0, Folded(s[hi..], fold).0)
  {
    if hi < |s| {
      var z := s[hi..];
      assert z == [z[0]] + z[1..];
      FoldedConcat([z[0]], z[1..], fold);
      assert [z[0]][..0] == [];
      assert Folded([z[0]], fold).0 == [] + fold(z[0]);
    }
  }

  /** A stretch that ends like a clause, between characters that fold to no letter, is intact if no unit follows. */
  lemma ClausesAreIntact(s: string, lo: nat, hi: nat, fold: Fold, lex: Lexicon)
    requires lo <= hi <= |s| && ClauseEdges(s, lo, hi) && !UnitFollows(s, hi, lex)
    requires (lo == 0 || Blunt(s[lo - 1], fold)) && (hi == |s| || Blunt(s[hi], fold))
    ensures Intact(s, lo, hi, fold, lex)
  {
    ClauseNumbersAreIntact(s, lo, hi, lex);
    BluntSeam(s, lo, hi, fold);
  }

  /** Whitespace, or an end of the text, on both sides of a stretch. */
  predicate CleanEdges(s: string, lo: nat, hi: nat, space: Space)
    requires lo <= hi <= |s|
  {
    (lo == 0 || s[lo - 1] in space) && (hi == |s| || s[hi] in space)
  }

  /** Whitespace folds to something, and to no letter. */
  ghost predicate SpaceFolds(fold: Fold, space: Space) {
    forall c | c in space :: Blunt(c, fold)
  }

  /** So is a stretch between whitespace. */
  lemma WordsAreIntact(s: string, lo: nat, hi: nat, fold: Fold, lex: Lexicon)
    requires Sane(lex) && SpaceFolds(fold, lex.space)
    requires lo <= hi <= |s| && CleanEdges(s, lo, hi, lex.space) && !UnitFollows(s, hi, lex)
    ensures Intact(s, lo, hi, fold, lex)
  {
    ClausesAreIntact(s, lo, hi, fold, lex);
  }
}
