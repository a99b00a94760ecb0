/** Locating a cited phrase (`origins.py`): folding keeps, for every folded character, where it came from, so a
    match of the folded words maps back to the source. The per-character folding and the whitespace test are
    parameters. */
module Origins {
  import opened Basics

  const MAX_QUOTE := 400

  type Fold = char -> string
  type Space = set<char>

  datatype Span = Span(source: nat, start: nat, end: nat, quote: string)

  // ---------------------------------------------------------------- folding

  function Repeat(i: nat, n: nat): (s: seq<nat>)
    ensures |s| == n && forall k | 0 <= k < n :: s[k] == i
  {
    seq(n, _ => i)
  }

  /** The folded text and, per folded character, the index of its source character. */
  function Folded(text: string, fold: Fold): (r: (string, seq<nat>))
    ensures |r.0| == |r.1|
  {
    if text == [] then ("", [])
    else
      var n := |text| - 1;
      var (chars, origin) := Folded(text[..n], fold);
      (chars + fold(text[n]), origin + Repeat(n, |fold(text[n])|))
  }

  lemma {:induction false} OriginInText(text: string, fold: Fold)
    ensures forall k | 0 <= k < |Folded(text, fold).1| :: Folded(text, fold).1[k] < |text|
  {
    if text != [] {
      OriginInText(text[..|text| - 1], fold);
    }
  }

  method ComputeFolded(text: string, fold: Fold) returns (chars: string, origin: seq<nat>)
    ensures (chars, origin) == Folded(text, fold)
  {
    chars, origin := "", [];
    for i := 0 to |text|
      invariant (chars, origin) == Folded(text[..i], fold)
    {
      assert text[..i + 1][..i] == text[..i];
      var parts := fold(text[i]);
      for k := 0 to |parts|
        invariant chars == Folded(text[..i], fold).0 + parts[..k]
        invariant origin == Folded(text[..i], fold).1 + Repeat(i, k)
      {
        assert parts[..k + 1] == parts[..k] + [parts[k]];
        assert Repeat(i, k + 1) == Repeat(i, k) + [i];
        chars, origin := chars + [parts[k]], origin + [i];
      }
      assert parts[..|parts|] == parts;
    }
    assert text[..|text|] == text;
  }

  function Shift(origin: seq<nat>, n: nat): (s: seq<nat>)
    ensures |s| == |origin|
  {
    seq(|origin|, k requires 0 <= k < |origin| => origin[k] + n)
  }

  /** Folding a concatenation folds its parts. */
  lemma {:induction false} FoldedConcat(a: string, b: string, fold: Fold)
    ensures Folded(a + b, fold).0 == Folded(a, fold).0 + Folded(b, fold).0
    ensures Folded(a + b, fold).1 == Folded(a, fold).1 + Shift(Folded(b, fold).1, |a|)
  {
    if b == [] {
      assert a + b == a;
    } else {
      var n := |b| - 1;
      assert (a + b)[..|a + b| - 1] == a + b[..n];
      FoldedConcat(a, b[..n], fold);
      var x, y := Folded(a, fold), Folded(b[..n], fold);
      var part := fold(b[n]);
      assert x.0 + y.0 + part == x.0 + (y.0 + part);
      assert Shift(y.1, |a|) + Repeat(|a| + n, |part|) == Shift(y.1 + Repeat(n, |part|), |a|);
      assert x.1 + Shift(y.1, |a|) + Repeat(|a| + n, |part|) == x.1 + (Shift(y.1, |a|) + Repeat(|a| + n, |part|));
    }
  }

  // ---------------------------------------------------------------- words

  /** The first index from `i` on that holds no whitespace. */
  function Skip(s: string, i: nat, space: Space): (j: nat)
    requires i <= |s|
    ensures i <= j <= |s|
    decreases |s| - i
  {
    if i < |s| && s[i] in space then Skip(s, i + 1, space) else i
  }

  lemma {:induction false} SkipStops(s: string, i: nat, space: Space)
    requires i <= |s|
    ensures var j := Skip(s, i, space);
      (forall k | i <= k < j :: s[k] in space) && (j < |s| ==> s[j] !in space)
    decreases |s| - i
  {
    if i < |s| && s[i] in space {
      SkipStops(s, i + 1, space);
    }
  }

  lemma {:induction false} SkipIs(s: string, i: nat, j: nat, space: Space)
    requires i <= j <= |s| && (forall k | i <= k < j :: s[k] in space) && (j < |s| ==> s[j] !in space)
    ensures Skip(s, i, space) == j
    decreases j - i
  {
    if i < j {
      SkipIs(s, i + 1, j, space);
    }
  }

  /** What the search looks for: the characters of the words, with some whitespace between two words. */
  datatype Token = Letter(c: char) | Gap

  function TokensFrom(s: string, i: nat, space: Space): seq<Token>
    requires i <= |s|
    decreases |s| - i
  {
    if i == |s| then []
    else if s[i] !in space then [Letter(s[i])] + TokensFrom(s, i + 1, space)
    else
      var r := Skip(s, i, space);
      if r == |s| then [] else [Gap] + TokensFrom(s, r, space)
  }

  /** The words of a text, one after the other; empty when it has none. */
  function Words(s: string, space: Space): seq<Token> {
    TokensFrom(s, Skip(s, 0, space), space)
  }

  /** No letter is whitespace, and a gap stands before a letter. */
  predicate Clean(words: seq<Token>, space: Space) {
    words == []
    || (Clean(words[1..], space)
        && if words[0].Gap? then |words| > 1 && words[1].Letter? else words[0].c !in space)
  }

  lemma {:induction false} TokensAreClean(s: string, i: nat, space: Space)
    requires i <= |s|
    ensures Clean(TokensFrom(s, i, space), space)
    decreases |s| - i
  {
    if i < |s| && s[i] !in space {
      TokensAreClean(s, i + 1, space);
    } else if i < |s| && Skip(s, i, space) < |s| {
      var r := Skip(s, i, space);
      SkipStops(s, i, space);
      TokensAreClean(s, r, space);
      assert TokensFrom(s, r, space)[0] == Letter(s[r]);
    }
  }

  lemma WordsAreClean(s: string, space: Space)
    ensures Clean(Words(s, space), space)
    ensures Words(s, space) != [] ==> Words(s, space)[0].Letter?
  {
    TokensAreClean(s, Skip(s, 0, space), space);
    SkipStops(s, 0, space);
  }

  // ---------------------------------------------------------------- matching

  /** Where the words end when they stand at `p`; a gap takes all the whitespace there is, and some. */
  function MatchEnd(s: string, p: nat, words: seq<Token>, space: Space): (e: Option<nat>)
    requires p <= |s|
    ensures e.Some? ==> p <= e.value <= |s|
    decreases |words|
  {
    if words == [] then Some(p)
    else if words[0].Letter? then
      if p < |s| && s[p] == words[0].c then MatchEnd(s, p + 1, words[1..], space) else None
    else if Skip(s, p, space) == p then None
    else MatchEnd(s, Skip(s, p, space), words[1..], space)
  }

  /** The leftmost match from `p` on. */
  function Search(s: string, p: nat, words: seq<Token>, space: Space): (m: Option<(nat, nat)>)
    requires p <= |s|
    ensures m.Some? ==> p <= m.value.0 <= |s| && MatchEnd(s, m.value.0, words, space) == Some(m.value.1)
    ensures forall k | p <= k <= |s| && (m.None? || k < m.value.0) :: MatchEnd(s, k, words, space).None?
    decreases |s| - p
  {
    var e := MatchEnd(s, p, words, space);
    if e.Some? then Some((p, e.value))
    else if p == |s| then None
    else Search(s, p + 1, words, space)
  }

  /** Where a text has the stretch a match covers, it has the match. */
  lemma {:induction false} MatchMoves(s: string, p: nat, words: seq<Token>, e: nat, t: string, d: int, space: Space)
    requires p <= |s| && Clean(words, space) && MatchEnd(s, p, words, space) == Some(e)
    requires 0 <= p + d && e + d <= |t| && forall k | p <= k < e :: s[k] == t[k + d]
    ensures MatchEnd(t, p + d, words, space) == Some(e + d)
    decreases |words|
  {
    if words != [] {
      if words[0].Letter? {
        MatchMoves(s, p + 1, words[1..], e, t, d, space);
      } else {
        GapMoves(s, p, words, e, t, d, space);
        MatchMoves(s, Skip(s, p, space), words[1..], e, t, d, space);
      }
    }
  }

  lemma GapMoves(s: string, p: nat, words: seq<Token>, e: nat, t: string, d: int, space: Space)
    requires p <= |s| && Clean(words, space) && MatchEnd(s, p, words, space) == Some(e)
    requires words != [] && words[0].Gap?
    requires 0 <= p + d && e + d <= |t| && forall k | p <= k < e :: s[k] == t[k + d]
    ensures Skip(s, p, space) < e && Skip(t, p + d, space) == Skip(s, p, space) + d
  {
    var r := Skip(s, p, space);
    SkipStops(s, p, space);
    assert words[1..][0] == words[1];
    forall k | p + d <= k < r + d ensures t[k] in space {
      assert s[k - d] == t[k];
    }
    assert s[r] == t[r + d];
    SkipIs(t, p + d, r + d, space);
  }

  /** A text matches its own words. */
  lemma {:induction false} TokensMatch(s: string, i: nat, space: Space)
    requires i <= |s|
    ensures MatchEnd(s, i, TokensFrom(s, i, space), space).Some?
    decreases |s| - i
  {
    var words := TokensFrom(s, i, space);
    if i < |s| && s[i] !in space {
      TokensMatch(s, i + 1, space);
      assert words[1..] == TokensFrom(s, i + 1, space);
    } else if i < |s| && Skip(s, i, space) < |s| {
      TokensMatch(s, Skip(s, i, space), space);
      assert words[1..] == TokensFrom(s, Skip(s, i, space), space);
    }
  }

  /** A text that a match covers to its end has exactly the matched words. */
  lemma {:induction false} MatchedTokens(s: string, i: nat, words: seq<Token>, space: Space)
    requires i <= |s| && Clean(words, space) && MatchEnd(s, i, words, space) == Some(|s|)
    ensures TokensFrom(s, i, space) == words
    decreases |words|
  {
    if words != [] {
      var r := if words[0].Letter? then i + 1 else Skip(s, i, space);
      if words[0].Gap? {
        SkipStops(s, i, space);
        assert words[1..][0] == words[1];
      }
      MatchedTokens(s, r, words[1..], space);
      assert words == [words[0]] + words[1..];
    }
  }

  lemma MatchIsWide(s: string, p: nat, words: seq<Token>, space: Space)
    requires p <= |s| && words != [] && words[0].Letter? && MatchEnd(s, p, words, space).Some?
    ensures p < MatchEnd(s, p, words, space).value
  {
  }

  // ---------------------------------------------------------------- locate

  /** Some word, and nothing but words and the gaps between them. */
  predicate Cited(words: seq<Token>, space: Space) {
    words != [] && words[0].Letter? && Clean(words, space)
  }

  function SpanIn(index: nat, source: string, words: seq<Token>, fold: Fold, space: Space): Option<Span>
    requires Cited(words, space)
  {
    var (folded, origin) := Folded(source, fold);
    match Search(folded, 0, words, space)
    case None => None
    case Some((b, e)) =>
      MatchIsWide(folded, b, words, space);
      OriginAscends(source, fold, b, e - 1);
      var start, end := origin[b], origin[e - 1] + 1;
      Some(Span(index, start, end, source[start..end]))
  }

  lemma {:induction false} OriginAscends(text: string, fold: Fold, i: nat, j: nat)
    requires i <= j < |Folded(text, fold).1|
    ensures Folded(text, fold).1[i] <= Folded(text, fold).1[j] < |text|
  {
    var n := |text| - 1;
    var before := Folded(text[..n], fold).1;
    OriginInText(text[..n], fold);
    if j < |before| {
      OriginAscends(text[..n], fold, i, j);
    }
  }

  /** The span of the quote in the first source that has its words. */
  function Locate(quote: string, sources: seq<string>, fold: Fold, space: Space): Option<Span> {
    var words := Words(Folded(quote, fold).0, space);
    WordsAreClean(Folded(quote, fold).0, space);
    if words == [] || |quote| > MAX_QUOTE then None else LocateFrom(0, words, sources, fold, space)
  }

  function LocateFrom(i: nat, words: seq<Token>, sources: seq<string>, fold: Fold, space: Space): Option<Span>
    requires Cited(words, space)
    decreases |sources| - i
  {
    if i >= |sources| then None
    else
      var span := SpanIn(i, sources[i], words, fold, space);
      if span.Some? then span else LocateFrom(i + 1, words, sources, fold, space)
  }

  method FindSpan(quote: string, sources: seq<string>, fold: Fold, space: Space) returns (span: Option<Span>)
    ensures span == Locate(quote, sources, fold, space)
  {
    var folded, _ := ComputeFolded(quote, fold);
    var words := Words(folded, space);
    WordsAreClean(folded, space);
    if words == [] || |quote| > MAX_QUOTE {
      return None;
    }
    var i := 0;
    while i < |sources|
      invariant i <= |sources|
      invariant LocateFrom(0, words, sources, fold, space) == LocateFrom(i, words, sources, fold, space)
    {
      var chars, origin := ComputeFolded(sources[i], fold);
      var found := Search(chars, 0, words, space);
      if found.Some? {
        var (b, e) := found.value;
        MatchIsWide(chars, b, words, space);
        OriginAscends(sources[i], fold, b, e - 1);
        var start, end := origin[b], origin[e - 1] + 1;
        return Some(Span(i, start, end, sources[i][start..end]));
      }
      i := i + 1;
    }
    return None;
  }

  lemma {:induction false} LocatedFrom(i: nat, words: seq<Token>, sources: seq<string>, fold: Fold, space: Space)
    requires Cited(words, space)
    ensures var found := LocateFrom(i, words, sources, fold, space);
      if found.Some? then
        && i <= found.value.source < |sources|
        && found == SpanIn(found.value.source, sources[found.value.source], words, fold, space)
        && forall k | i <= k < found.value.source :: SpanIn(k, sources[k], words, fold, space).None?
      else forall k | i <= k < |sources| :: SpanIn(k, sources[k], words, fold, space).None?
    decreases |sources| - i
  {
    if i < |sources| && SpanIn(i, sources[i], words, fold, space).None? {
      LocatedFrom(i + 1, words, sources, fold, space);
    }
  }

  // ---------------------------------------------------------------- what a located span says

  /** Cutting a text at a folded character whose source is the cut cuts its folding around it. */
  lemma {:induction false} FoldedBefore(text: string, fold: Fold, cut: nat, k: nat)
    requires cut <= |text| && k < |Folded(text, fold).1|
    ensures Folded(text, fold).1[k] < cut <==> k < |Folded(text[..cut], fold).0|
  {
    assert text == text[..cut] + text[cut..];
    FoldedConcat(text[..cut], text[cut..], fold);
    OriginInText(text[..cut], fold);
  }

  /** A slice folds to a slice of the folding. */
  lemma FoldedSlice(source: string, lo: nat, hi: nat, fold: Fold)
    requires lo <= hi <= |source|
    ensures var x, y, z := Folded(source[..lo], fold).0, Folded(source[lo..hi], fold).0, Folded(source[hi..], fold).0;
      Folded(source, fold).0 == x + y + z && |Folded(source[..hi], fold).0| == |x| + |y|
  {
    assert source[..hi] == source[..lo] + source[lo..hi] && source == source[..hi] + source[hi..];
    FoldedConcat(source[..lo], source[lo..hi], fold);
    FoldedConcat(source[..hi], source[hi..], fold);
  }

  lemma MatchInside(x: string, y: string, z: string, words: seq<Token>, b: nat, e: nat, space: Space)
    requires Clean(words, space) && b <= e <= |x + y + z| && MatchEnd(x + y + z, b, words, space) == Some(e)
    requires |x| <= b && e <= |x| + |y|
    ensures MatchEnd(y, b - |x|, words, space) == Some(e - |x|)
  {
    forall k | b <= k < e ensures (x + y + z)[k] == y[k - |x|] {
    }
    MatchMoves(x + y + z, b, words, e, y, -|x|, space);
  }

  /** The slice from the source character of the first matched character to that of the last. */
  predicate Covers(source: string, fold: Fold, b: nat, e: nat, start: nat, end: nat) {
    b < e <= |Folded(source, fold).1| && start == Folded(source, fold).1[b] && end == Folded(source, fold).1[e - 1] + 1
  }

  lemma CoverIsASlice(source: string, fold: Fold, b: nat, e: nat, start: nat, end: nat)
    requires Covers(source, fold, b, e, start, end)
    ensures start < end <= |source|
  {
    OriginAscends(source, fold, b, e - 1);
  }

  /** The folding of the covered slice holds the matched stretch. */
  lemma CoverHoldsTheMatch(source: string, fold: Fold, b: nat, e: nat, start: nat, end: nat)
    requires Covers(source, fold, b, e, start, end)
    ensures start < end <= |source|
    ensures |Folded(source[..start], fold).0| <= b && e <= |Folded(source[..end], fold).0|
  {
    CoverIsASlice(source, fold, b, e, start, end);
    FoldedBefore(source, fold, start, b);
    FoldedBefore(source, fold, end, e - 1);
  }

  /** The words match inside the folding of the covered slice. */
  lemma SliceFolds(source: string, fold: Fold, words: seq<Token>, space: Space, b: nat, e: nat, start: nat, end: nat)
    requires Clean(words, space) && Covers(source, fold, b, e, start, end)
    requires MatchEnd(Folded(source, fold).0, b, words, space) == Some(e)
    ensures start < end <= |source| && |Folded(source[..start], fold).0| <= b
    ensures e <= |Folded(source[..start], fold).0| + |Folded(source[start..end], fold).0|
    ensures MatchEnd(Folded(source[start..end], fold).0, b - |Folded(source[..start], fold).0|, words, space)
         == Some(e - |Folded(source[..start], fold).0|)
  {
    CoverHoldsTheMatch(source, fold, b, e, start, end);
    FoldedSlice(source, start, end, fold);
    MatchInside(Folded(source[..start], fold).0, Folded(source[start..end], fold).0, Folded(source[end..], fold).0,
                words, b, e, space);
  }

  /** A located span lies in its source and quotes it, and its folding has the cited words, one after the other; the
      sources before it do not have them. */
  lemma LocateIsSound(quote: string, sources: seq<string>, fold: Fold, space: Space)
    requires Locate(quote, sources, fold, space).Some?
    ensures var s, words := Locate(quote, sources, fold, space).value, Words(Folded(quote, fold).0, space);
      && s.source < |sources| && s.start < s.end <= |sources[s.source]|
      && s.quote == sources[s.source][s.start..s.end]
      && Search(Folded(s.quote, fold).0, 0, words, space).Some?
      && forall k | 0 <= k < s.source :: Search(Folded(sources[k], fold).0, 0, words, space).None?
  {
    var words := Words(Folded(quote, fold).0, space);
    WordsAreClean(Folded(quote, fold).0, space);
    LocatedFrom(0, words, sources, fold, space);
    var s := Locate(quote, sources, fold, space).value;
    var source := sources[s.source];
    var (b, e) := Search(Folded(source, fold).0, 0, words, space).value;
    MatchIsWide(Folded(source, fold).0, b, words, space);
    SliceFolds(source, fold, words, space, b, e, s.start, s.end);
    forall k | 0 <= k < s.source ensures Search(Folded(sources[k], fold).0, 0, words, space).None? {
      assert SpanIn(k, sources[k], words, fold, space).None?;
    }
  }

  lemma {:induction false} SingleFoldings(text: string, fold: Fold)
    requires forall i | 0 <= i < |text| :: |fold(text[i])| <= 1
    ensures forall i, j | 0 <= i < j < |Folded(text, fold).1| :: Folded(text, fold).1[i] < Folded(text, fold).1[j]
  {
    if text != [] {
      OriginInText(text[..|text| - 1], fold);
      SingleFoldings(text[..|text| - 1], fold);
    }
  }

  /** Then a covered slice folds to the matched stretch and nothing else. */
  lemma ExactCover(source: string, fold: Fold, b: nat, e: nat, start: nat, end: nat)
    requires Covers(source, fold, b, e, start, end) && forall i | 0 <= i < |source| :: |fold(source[i])| <= 1
    ensures start < end <= |source|
    ensures |Folded(source[..start], fold).0| == b && |Folded(source[..end], fold).0| == e
  {
    CoverHoldsTheMatch(source, fold, b, e, start, end);
    SingleFoldings(source, fold);
    if |Folded(source[..start], fold).0| < b {
      FoldedBefore(source, fold, start, b - 1);
    }
    if e < |Folded(source[..end], fold).0| {
      FoldedSlice(source, end, end, fold);
      FoldedBefore(source, fold, end, e);
    }
  }

  lemma ExactMatch(y: string, words: seq<Token>, space: Space)
    requires Cited(words, space) && MatchEnd(y, 0, words, space) == Some(|y|)
    ensures Words(y, space) == words
  {
    MatchedTokens(y, 0, words, space);
    SkipIs(y, 0, 0, space);
  }

  lemma ExactSlice(source: string, fold: Fold, words: seq<Token>, space: Space, b: nat, e: nat, start: nat, end: nat)
    requires Cited(words, space) && Covers(source, fold, b, e, start, end)
    requires MatchEnd(Folded(source, fold).0, b, words, space) == Some(e)
    requires forall i | 0 <= i < |source| :: |fold(source[i])| <= 1
    ensures start < end <= |source| && Words(Folded(source[start..end], fold).0, space) == words
  {
    SliceFolds(source, fold, words, space, b, e, start, end);
    ExactCover(source, fold, b, e, start, end);
    FoldedSlice(source, start, end, fold);
    ExactMatch(Folded(source[start..end], fold).0, words, space);
  }

  /** When no character of the sources folds to several, a located span has exactly the cited words: never other
      words, nor other numbers. */
  lemma LocatedWordsAreTheCited(quote: string, sources: seq<string>, fold: Fold, space: Space)
    requires Locate(quote, sources, fold, space).Some?
    requires forall k, i | 0 <= k < |sources| && 0 <= i < |sources[k]| :: |fold(sources[k][i])| <= 1
    ensures Words(Folded(Locate(quote, sources, fold, space).value.quote, fold).0, space)
         == Words(Folded(quote, fold).0, space)
  {
    var words := Words(Folded(quote, fold).0, space);
    WordsAreClean(Folded(quote, fold).0, space);
    LocatedFrom(0, words, sources, fold, space);
    var s := Locate(quote, sources, fold, space).value;
    var source := sources[s.source];
    var (b, e) := Search(Folded(source, fold).0, 0, words, space).value;
    MatchIsWide(Folded(source, fold).0, b, words, space);
    ExactSlice(source, fold, words, space, b, e, s.start, s.end);
  }

  /** Any literal piece of a source of at most 400 characters that folds to some word is located, in that source or
      an earlier one. */
  lemma LiteralSlicesAreLocated(sources: seq<string>, k: nat, lo: nat, hi: nat, fold: Fold, space: Space)
    requires k < |sources| && lo <= hi <= |sources[k]| && hi - lo <= MAX_QUOTE
    requires Words(Folded(sources[k][lo..hi], fold).0, space) != []
    ensures var found := Locate(sources[k][lo..hi], sources, fold, space); found.Some? && found.value.source <= k
  {
    var source := sources[k];
    var y := Folded(source[lo..hi], fold).0;
    var words := Words(y, space);
    WordsAreClean(y, space);
    SliceMatches(source, lo, hi, fold, space);
    LocatedFrom(0, words, sources, fold, space);
    assert SpanIn(k, sources[k], words, fold, space).Some?;
  }

  lemma SliceMatches(source: string, lo: nat, hi: nat, fold: Fold, space: Space)
    requires lo <= hi <= |source|
    ensures Search(Folded(source, fold).0, 0, Words(Folded(source[lo..hi], fold).0, space), space).Some?
  {
    var x, y := Folded(source[..lo], fold).0, Folded(source[lo..hi], fold).0;
    FoldedSlice(source, lo, hi, fold);
    WordsAreClean(y, space);
    var p := Skip(y, 0, space);
    TokensMatch(y, p, space);
    var e := MatchEnd(y, p, Words(y, space), space).value;
    MatchMoves(y, p, Words(y, space), e, Folded(source, fold).0, |x|, space);
    assert MatchEnd(Folded(source, fold).0, |x| + p, Words(y, space), space).Some?;
  }

  // ---------------------------------------------------------------- a folding that changes nothing

  /** Every character folds to itself, and blanks part words. */
  function Plain(): Fold {
    (c: char) => [c]
  }

  lemma {:induction false} FoldsToItself(s: string)
    ensures Folded(s, Plain()).0 == s && forall k | 0 <= k < |s| :: Folded(s, Plain()).1[k] == k
  {
    if s != [] {
      FoldsToItself(s[..|s| - 1]);
    }
  }
}
