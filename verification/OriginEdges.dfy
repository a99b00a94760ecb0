/** What a located phrase proves about its source (`origins.py`): exactly when it covers whole words, that a window read
    from a phrase with clear edges has measures the source states, and a window kept on a number the source does not
    hold. */
module OriginEdges {
  import opened Basics
  import opened Origins
  import opened OriginBinding
  import opened OriginWindows
  import opened NumberScanner
  import opened NumberEdges

  // ---------------------------------------------------------------- whole words

  /** A run of characters without whitespace, as long as it goes. */
  predicate IsWord(s: string, i: nat, j: nat, space: Space) {
    && i < j <= |s|
    && (forall k | i <= k < j :: s[k] !in space)
    && CleanEdges(s, i, j, space)
  }

  /** Every word of the stretch is a word of the text. */
  ghost predicate WholeWords(s: string, a: nat, b: nat, space: Space)
    requires a <= b <= |s|
  {
    forall i, j | IsWord(s[a..b], i, j, space) :: IsWord(s, a + i, a + j, space)
  }

  lemma WordInside(s: string, a: nat, b: nat, i: nat, j: nat, space: Space)
    requires a <= b <= |s| && IsWord(s[a..b], i, j, space) && CleanEdges(s, a, b, space)
    ensures IsWord(s, a + i, a + j, space)
  {
    var y := s[a..b];
    assert PieceAt(s, a, y);
    forall k | a + i <= k < a + j ensures s[k] !in space {
      assert y[k - a] == s[a + (k - a)];
    }
    if i > 0 {
      assert y[i - 1] == s[a + (i - 1)];
    }
    if j < |y| {
      assert y[j] == s[a + j];
    }
  }

  lemma {:induction false} WordFrom(s: string, i: nat, k: nat, space: Space) returns (j: nat)
    requires i < k <= |s| && (i == 0 || s[i - 1] in space) && forall m | i <= m < k :: s[m] !in space
    ensures IsWord(s, i, j, space)
    decreases |s| - k
  {
    if k == |s| || s[k] in space {
      j := k;
    } else {
      j := WordFrom(s, i, k + 1, space);
    }
  }

  lemma {:induction false} WordTo(s: string, k: nat, j: nat, space: Space) returns (i: nat)
    requires k < j <= |s| && (j == |s| || s[j] in space) && forall m | k <= m < j :: s[m] !in space
    ensures IsWord(s, i, j, space)
    decreases k
  {
    if k == 0 || s[k - 1] in space {
      i := k;
    } else {
      i := WordTo(s, k - 1, j, space);
    }
  }

  /** A stretch that begins and ends with a word covers whole words exactly when whitespace or an end of the text stands
      on both its sides. */
  lemma WholeWordsIff(s: string, a: nat, b: nat, space: Space)
    requires a < b <= |s| && s[a] !in space && s[b - 1] !in space
    ensures WholeWords(s, a, b, space) <==> CleanEdges(s, a, b, space)
  {
    var y := s[a..b];
    assert PieceAt(s, a, y);
    assert y[0] == s[a + 0] && y[|y| - 1] == s[a + (|y| - 1)];
    if WholeWords(s, a, b, space) {
      var j := WordFrom(y, 0, 1, space);
      assert IsWord(s, a + 0, a + j, space);
      var i := WordTo(y, |y| - 1, |y|, space);
      assert IsWord(s, a + i, a + |y|, space);
    }
    if CleanEdges(s, a, b, space) {
      forall i, j | IsWord(y, i, j, space) ensures IsWord(s, a + i, a + j, space) {
        WordInside(s, a, b, i, j, space);
      }
    }
  }

  /** A match begins and ends with a letter of its words. */
  lemma {:induction false} MatchEndsInWords(s: string, p: nat, words: seq<Token>, e: nat, space: Space)
    requires p <= |s| && words != [] && Clean(words, space) && MatchEnd(s, p, words, space) == Some(e)
    ensures words[0].Letter? ==> p < |s| && s[p] !in space
    ensures p < e && s[e - 1] !in space
    decreases |words|
  {
    var next := if words[0].Letter? then p + 1 else Skip(s, p, space);
    if |words| > 1 {
      MatchEndsInWords(s, next, words[1..], e, space);
    } else {
      assert words[1..] == [];
    }
  }

  /** For every located match of the folded source: what it covers has exactly the cited words, and they are whole words
      of that source if and only if whitespace or an end of the text stands on both sides of the match. */
  lemma CitedWordsAreWholeIff(text: string, words: seq<Token>, a: nat, b: nat, space: Space)
    requires Cited(words, space) && Search(text, 0, words, space) == Some((a, b))
    ensures a < b <= |text| && Words(text[a..b], space) == words
    ensures WholeWords(text, a, b, space)
      <==> (a == 0 || text[a - 1] in space) && (b == |text| || text[b] in space)
  {
    MatchEndsInWords(text, a, words, b, space);
    assert text == text[..a] + text[a..b] + text[b..];
    MatchInside(text[..a], text[a..b], text[b..], words, a, b, space);
    ExactMatch(text[a..b], words, space);
    WholeWordsIff(text, a, b, space);
  }

  // ---------------------------------------------------------------- what a kept window's phrase says of its source

  /** Reading the piece reads what the whole text says: every value it states the text states, and so every quantity. */
  ghost predicate LocalTo(rd: Reader, s: string, lo: nat, hi: nat)
    requires lo <= hi <= |s|
  {
    && (forall v | States(rd.numbers(s[lo..hi]), v) :: States(rd.numbers(s), v))
    && rd.counts(s[lo..hi]) <= rd.counts(s)
  }

  /** A reader that looks at words only. */
  ghost predicate Local(rd: Reader) {
    forall s: string, lo: nat, hi: nat | lo <= hi <= |s| && CleanEdges(s, lo, hi, rd.space) :: LocalTo(rd, s, lo, hi)
  }

  /** The source itself states the window. */
  ghost predicate StatedBy(op: Op, source: string, rd: Reader)
    requires op.Object?
  {
    && op.width.Some? && States(rd.numbers(source), op.width.value)
    && op.height.Some? && States(rd.numbers(source), op.height.value)
    && (op.quantity == 1 || op.quantity in rd.counts(source))
  }

  lemma KeptIsStatedBy(op: Op, span: Span, sources: seq<string>, rd: Reader)
    requires op.Object? && Stated(op, span, sources, rd) && LocalTo(rd, sources[span.source], span.start, span.end)
    ensures StatedBy(op, sources[span.source], rd)
  {
  }

  /** Every window that is kept with a phrase between whitespace has measures and a quantity its source states, for a
      reader that looks at words only. */
  lemma CleanPhrasesAreStated(op: Op, sources: seq<string>, rd: Reader)
    requires Readable(sources, rd) && Local(rd) && IsWindow(op) && Judge(op, sources, rd).KeepWindow?
    requires var span := Judge(op, sources, rd).span;
      span.source < |sources| && span.start <= span.end <= |sources[span.source]|
      ==> CleanEdges(sources[span.source], span.start, span.end, rd.space)
    ensures var span := Judge(op, sources, rd).span;
      span.source < |sources| && StatedBy(op, sources[span.source], rd)
  {
    SpanIsStated(op, sources, rd);
    var span := Judge(op, sources, rd).span;
    assert LocalTo(rd, sources[span.source], span.start, span.end);
    KeptIsStatedBy(Bare(op), span, sources, rd);
  }

  // ---------------------------------------------------------------- the module's own scanner

  /** The reader of the module: its number pattern and its count words. */
  function Scanner(fold: Fold, lex: Lexicon, segments: string -> seq<Segment>): Reader
    requires Sane(lex)
  {
    Reader(fold, lex.space,
           t requires Sane(lex) => Numbers(t, lex),
           t requires Sane(lex) => CountsOf(t, fold, lex),
           segments)
  }

  /** An intact piece reads what the text states. */
  lemma IntactPiecesAreLocal(fold: Fold, lex: Lexicon, segments: string -> seq<Segment>, s: string, lo: nat, hi: nat)
    requires Sane(lex) && lo <= hi <= |s| && Intact(s, lo, hi, fold, lex)
    ensures LocalTo(Scanner(fold, lex, segments), s, lo, hi)
  {
    var rd, y := Scanner(fold, lex, segments), s[lo..hi];
    forall v | States(rd.numbers(y), v) ensures States(rd.numbers(s), v) {
      MeasuresMove(s, lo, y, lex, v);
    }
    CountsMove(s, lo, hi, fold, lex);
  }

  /** The phrase is an intact piece of its source. */
  ghost predicate IntactSpan(span: Span, sources: seq<string>, fold: Fold, lex: Lexicon) {
    && span.source < |sources| && span.start <= span.end <= |sources[span.source]|
    && Intact(sources[span.source], span.start, span.end, fold, lex)
  }

  /** Over a whole list of operations: every window `bind` keeps with an intact phrase, cited or found, has the width,
      the height and the quantity its source states. */
  lemma BoundWindowsAreStated(ops: seq<Op>, sources: seq<string>, fold: Fold, lex: Lexicon,
                              segments: string -> seq<Segment>, i: nat)
    requires Sane(lex) && Readable(sources, Scanner(fold, lex, segments))
    requires var b := Bind(ops, sources, Scanner(fold, lex, segments));
      i < |b.origins| && IntactSpan(b.origins[i].span, sources, fold, lex)
    ensures var rd := Scanner(fold, lex, segments);
      var b := Bind(ops, sources, rd);
      && b.origins[i].opIndex < |b.kept| && IsWindow(b.kept[b.origins[i].opIndex])
      && StatedBy(b.kept[b.origins[i].opIndex], sources[b.origins[i].span.source], rd)
  {
    var rd := Scanner(fold, lex, segments);
    BindIsSound(ops, sources, rd);
    var o := Bind(ops, sources, rd).origins[i];
    IntactPiecesAreLocal(fold, lex, segments, sources[o.span.source], o.span.start, o.span.end);
    KeptIsStatedBy(Bind(ops, sources, rd).kept[o.opIndex], o.span, sources, rd);
  }

  // ---------------------------------------------------------------- the folded match and the source

  /** Each character folds to one, whitespace to whitespace and the rest to the rest. */
  ghost predicate FoldsSingly(text: string, fold: Fold, space: Space) {
    forall k | 0 <= k < |text| :: |fold(text[k])| == 1 && (fold(text[k])[0] in space <==> text[k] in space)
  }

  lemma {:induction false} SinglesKeepTheirPlaces(text: string, fold: Fold)
    requires forall k | 0 <= k < |text| :: |fold(text[k])| == 1
    ensures var (chars, origin) := Folded(text, fold);
      |chars| == |text| && forall k | 0 <= k < |text| :: chars[k] == fold(text[k])[0] && origin[k] == k
  {
    if text != [] {
      SinglesKeepTheirPlaces(text[..|text| - 1], fold);
    }
  }

  /** There the test on the source is the test on the match: the located span has clean edges exactly when the cited
      words are whole words of the folded source. */
  lemma SpanIsCleanIffWordsAreWhole(quote: string, sources: seq<string>, fold: Fold, space: Space)
    requires Locate(quote, sources, fold, space).Some?
    requires forall k | 0 <= k < |sources| :: FoldsSingly(sources[k], fold, space)
    ensures var span := Locate(quote, sources, fold, space).value;
      && span.source < |sources| && span.start <= span.end <= |sources[span.source]|
      && span.end <= |Folded(sources[span.source], fold).0|
      && (CleanEdges(sources[span.source], span.start, span.end, space)
          <==> WholeWords(Folded(sources[span.source], fold).0, span.start, span.end, space))
  {
    var words := Words(Folded(quote, fold).0, space);
    WordsAreClean(Folded(quote, fold).0, space);
    LocatedFrom(0, words, sources, fold, space);
    LocateIsSound(quote, sources, fold, space);
    var span := Locate(quote, sources, fold, space).value;
    var source := sources[span.source];
    SinglesKeepTheirPlaces(source, fold);
    var text := Folded(source, fold).0;
    var (a, b) := Search(text, 0, words, space).value;
    CitedWordsAreWholeIff(text, words, a, b, space);
    assert span.start == a && span.end == b;
    assert a > 0 ==> text[a - 1] == fold(source[a - 1])[0];
    assert b < |text| ==> text[b] == fold(source[b])[0];
  }

  // ---------------------------------------------------------------- a window nobody asked for

  const SOURCE := "Ventana 120x150"
  const QUOTE := "Ventana 120x15"
  const BLANK: Space := {' '}

  function NoSegments(): string -> seq<Segment> {
    (t: string) => []
  }

  /** The module's own words, parted by blanks. */
  const WORDS: Lexicon := Spanish(BLANK)

  lemma WordsAreSane()
    ensures Sane(WORDS)
  {
  }

  function PlainScanner(): Reader {
    WordsAreSane();
    Scanner(Plain(), WORDS, NoSegments())
  }

  /** A text that starts and ends with a word matches its own words up to its end. */
  lemma {:induction false} TokensReachTheEnd(s: string, i: nat, space: Space)
    requires i <= |s| && (i < |s| ==> s[|s| - 1] !in space)
    ensures MatchEnd(s, i, TokensFrom(s, i, space), space) == Some(|s|)
    decreases |s| - i
  {
    var words := TokensFrom(s, i, space);
    if i < |s| && s[i] !in space {
      TokensReachTheEnd(s, i + 1, space);
      assert words[1..] == TokensFrom(s, i + 1, space);
    } else if i < |s| {
      SkipStops(s, i, space);
      var r := Skip(s, i, space);
      TokensReachTheEnd(s, r, space);
      assert words[1..] == TokensFrom(s, r, space);
    }
  }

  lemma PrefixMatches(quote: string, source: string, space: Space)
    requires 0 < |quote| && quote <= source && quote[0] !in space && quote[|quote| - 1] !in space
    ensures Cited(Words(quote, space), space)
    ensures Search(source, 0, Words(quote, space), space) == Some((0, |quote|))
  {
    var words := Words(quote, space);
    SkipIs(quote, 0, 0, space);
    TokensReachTheEnd(quote, 0, space);
    WordsAreClean(quote, space);
    MatchMoves(quote, 0, words, |quote|, source, 0, space);
  }

  /** Without folding, the beginning of a source is located there, wherever it is cut. */
  lemma PrefixIsLocated(quote: string, source: string, space: Space)
    requires 0 < |quote| <= MAX_QUOTE && quote <= source
    requires quote[0] !in space && quote[|quote| - 1] !in space
    ensures Locate(quote, [source], Plain(), space) == Some(Span(0, 0, |quote|, quote))
  {
    FoldsToItself(quote);
    FoldsToItself(source);
    PrefixMatches(quote, source, space);
    var words := Words(quote, space);
    assert source[0..|quote|] == quote;
    assert SpanIn(0, source, words, Plain(), space) == Some(Span(0, 0, |quote|, quote));
    assert LocateFrom(0, words, [source], Plain(), space) == Some(Span(0, 0, |quote|, quote));
  }

  /** No unit begins with an x. */
  lemma NoUnitAtAnX(t: string, q: nat)
    requires q < |t| && t[q] == 'x'
    ensures UnitOf(t, q, WORDS).Unstated?
  {
    SkipIs(t, q, q, BLANK);
    assert WordOf(t, q)[0] == 'x';
    assert forall w | w in UNITS :: w[0] != 'x';
  }

  lemma NoUnitAtTheEnd(t: string)
    ensures UnitOf(t, |t|, WORDS).Unstated?
  {
    assert WordOf(t, |t|) == "";
    WordsAreSane();
  }

  lemma NatOfAppend(digits: string, c: char)
    requires Digit(c)
    ensures NatOf(digits + [c]) == NatOf(digits) * 10 + (c - '0') as nat
  {
    assert (digits + [c])[..|digits|] == digits;
  }

  lemma TheNumbers()
    ensures NatOf("15") == 15 && NatOf("120") == 120 && NatOf("150") == 150
  {
    NatOfAppend("", '1');
    NatOfAppend("1", '2');
    NatOfAppend("12", '0');
    NatOfAppend("1", '5');
    NatOfAppend("15", '0');
    assert "" + ['1'] == "1" && "1" + ['2'] == "12" && "12" + ['0'] == "120";
    assert "1" + ['5'] == "15" && "15" + ['0'] == "150";
  }

  lemma DigitsOnly(raw: string)
    requires forall k | 0 <= k < |raw| :: Digit(raw[k])
    ensures NumberFrom(raw, Unstated) == Number(NatOf(raw) as real, Unstated, false)
  {
  }

  /** A number without mark or unit: digits up to an x or to the end. */
  lemma BareNumber(t: string, p: nat, q: nat, n: nat)
    requires p < q <= |t| && q - p <= MAX_DIGITS && Starts(t, p) && NatOf(t[p..q]) == n
    requires (forall k | p <= k < q :: Digit(t[k])) && (q < |t| ==> t[q] == 'x')
    ensures NumberAt(t, p, WORDS) == Some(Number(n as real, Unstated, false))
  {
    assert DigitsEnd(t, p) == q && RawEnd(t, p) == Some(q);
    if q < |t| {
      NoUnitAtAnX(t, q);
    } else {
      NoUnitAtTheEnd(t);
    }
    forall k | 0 <= k < q - p ensures Digit(t[p..q][k]) {
      assert t[p..q][k] == t[p + k];
    }
    DigitsOnly(t[p..q]);
    NumberIs(t, p, q, t[p..q], Unstated, WORDS);
  }

  lemma SourceNumbers(p: nat)
    requires p < |SOURCE|
    ensures NumberAt(SOURCE, p, WORDS) ==
      if p == 8 then Some(Number(120.0, Unstated, false))
      else if p == 12 then Some(Number(150.0, Unstated, false)) else None
  {
    if p == 8 {
      SourceWidth();
    } else if p == 12 {
      SourceHeight();
    } else {
      assert !Starts(SOURCE, p);
    }
  }

  lemma SourceWidth()
    ensures NumberAt(SOURCE, 8, WORDS) == Some(Number(120.0, Unstated, false))
  {
    TheNumbers();
    assert SOURCE[8..11] == "120";
    BareNumber(SOURCE, 8, 11, 120);
  }

  lemma SourceHeight()
    ensures NumberAt(SOURCE, 12, WORDS) == Some(Number(150.0, Unstated, false))
  {
    TheNumbers();
    assert SOURCE[12..15] == "150";
    BareNumber(SOURCE, 12, 15, 150);
  }

  /** A window of 1200 by 15 millimetres, its quote cutting 150 to 15. */
  const THIN := Object(AddPosition, Phrase(QUOTE), Some(1200.0), Some(15.0), 1, 0)

  lemma BareNumberStates(t: string, p: nat, q: nat, n: nat, v: real)
    requires p < q <= |t| && q - p <= MAX_DIGITS && Starts(t, p) && NatOf(t[p..q]) == n
    requires (forall k | p <= k < q :: Digit(t[k])) && (q < |t| ==> t[q] == 'x')
    requires CanMean(Number(n as real, Unstated, false), v)
    ensures Sane(WORDS) && States(Numbers(t, WORDS), v)
  {
    WordsAreSane();
    BareNumber(t, p, q, n);
    StatedHere(t, p, WORDS, Number(n as real, Unstated, false), v);
  }

  lemma TheQuoteStatesItsWidth()
    ensures Sane(WORDS) && States(Numbers(QUOTE, WORDS), 1200.0)
  {
    TheNumbers();
    assert QUOTE[8..11] == "120";
    BareNumberStates(QUOTE, 8, 11, 120, 1200.0);
  }

  lemma TheQuoteStatesItsHeight()
    ensures Sane(WORDS) && States(Numbers(QUOTE, WORDS), 15.0)
  {
    TheNumbers();
    assert QUOTE[12..14] == "15";
    BareNumberStates(QUOTE, 12, 14, 15, 15.0);
  }

  lemma TheQuoteStatesIt()
    ensures Check(THIN, QUOTE, PlainScanner()).None?
  {
    TheQuoteStatesItsWidth();
    TheQuoteStatesItsHeight();
  }

  lemma TheSourceDoesNot()
    ensures !States(PlainScanner().numbers(SOURCE), 15.0)
  {
    WordsAreSane();
    StatedSomewhere(SOURCE, WORDS, 15.0);
    forall k ensures !StatesAt(SOURCE, k, WORDS, 15.0) {
      if 0 <= k < |SOURCE| {
        SourceNumbers(k);
      }
    }
  }

  /** From a source that says 120x150, a window 15 millimetres high is kept, its origin the phrase «Ventana 120x15»: the
      quote ends inside a word of the source, and the source states no such height. */
  lemma AWindowNobodyAskedFor()
    ensures Readable([SOURCE], PlainScanner())
    ensures Bind([THIN], [SOURCE], PlainScanner())
         == Binding([Bare(THIN)], [Origin(0, Span(0, 0, |QUOTE|, QUOTE))], [])
    ensures !StatedBy(THIN, SOURCE, PlainScanner()) && !CleanEdges(SOURCE, 0, |QUOTE|, BLANK)
  {
    var rd, span := PlainScanner(), Span(0, 0, |QUOTE|, QUOTE);
    assert SOURCE[..14] == QUOTE;
    PrefixIsLocated(QUOTE, SOURCE, BLANK);
    TheQuoteStatesIt();
    TheSourceDoesNot();
    assert Judge(THIN, [SOURCE], rd) == KeepWindow(span);
    assert [THIN][..0] == [];
    assert Bind([], [SOURCE], rd) == Binding([], [], []);
  }

  const LONG := "x 120 cm"

  lemma TheUnitFollows()
    ensures UnitOf(LONG, 5, WORDS) == Centimetres
  {
    SkipIs(LONG, 5, 6, BLANK);
    assert LettersEnd(LONG, 6) == 8;
    assert WordOf(LONG, 6) == "cm";
  }

  lemma LongNumber()
    ensures NumberAt(LONG, 2, WORDS) == Some(Number(120.0, Centimetres, false))
  {
    TheNumbers();
    assert LONG[2..5] == "120";
    assert DigitsEnd(LONG, 2) == 5 && RawEnd(LONG, 2) == Some(5);
    TheUnitFollows();
    DigitsOnly("120");
    NumberIs(LONG, 2, 5, "120", Centimetres, WORDS);
  }

  lemma ThePieceStatesIt()
    ensures Sane(WORDS) && States(Numbers("x 120", WORDS), 120.0)
  {
    TheNumbers();
    assert "x 120"[2..5] == "120";
    BareNumberStates("x 120", 2, 5, 120, 120.0);
  }

  lemma TheTextDoesNotStateIt()
    ensures Sane(WORDS) && !States(Numbers(LONG, WORDS), 120.0)
  {
    WordsAreSane();
    StatedSomewhere(LONG, WORDS, 120.0);
    forall k ensures !StatesAt(LONG, k, WORDS, 120.0) {
      LongStatesItNowhere(k);
    }
  }

  lemma LongStatesItNowhere(k: int)
    ensures !StatesAt(LONG, k, WORDS, 120.0)
  {
    if k == 2 {
      LongNumber();
    } else if 0 <= k < |LONG| {
      LongStartsOnce(k);
    }
  }

  lemma LongStartsOnce(k: nat)
    requires k < |LONG| && k != 2
    ensures !Starts(LONG, k)
  {
  }

  /** Whitespace around the phrase is not all: a phrase that stops before the unit reads 120 millimetres where the source
      says 120 centimetres. */
  lemma AUnitMayBeCutOff()
    ensures CleanEdges(LONG, 0, 5, BLANK) && UnitFollows(LONG, 5, WORDS) && Sane(WORDS)
    ensures States(Numbers(LONG[0..5], WORDS), 120.0) && !States(Numbers(LONG, WORDS), 120.0)
  {
    assert LONG[0..5] == "x 120";
    ThePieceStatesIt();
    TheUnitFollows();
    TheTextDoesNotStateIt();
  }
}
