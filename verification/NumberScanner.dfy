/** The numbers a phrase holds (`origins.py`, `_NUMBER`, `measures_mm`, `counts`): a search from left to right for one
    to five digits, an optional mark with one to three more, and an optional unit. Digits are the ten ASCII ones;
    whitespace and folding are parameters. */
module NumberScanner {
  import opened Basics
  import opened Origins
  import opened OriginBinding

  const MAX_DIGITS := 5
  const MAX_DECIMALS := 3
  const MAX_QUANTITY := 999.0

  predicate Digit(c: char) {
    '0' <= c <= '9'
  }

  predicate Mark(c: char) {
    c == '.' || c == ','
  }

  function Lower(c: char): char {
    if 'A' <= c <= 'Z' then c - 'A' + 'a' else c
  }

  /** The letters a word is made of, small; a, e, i, o, u with an acute accent and n with a tilde are among them. */
  predicate SmallLetter(c: char) {
    'a' <= c <= 'z' || c in ['\U{00E1}', '\U{00E9}', '\U{00ED}', '\U{00F3}', '\U{00FA}', '\U{00F1}']
  }

  predicate WordLetter(c: char) {
    SmallLetter(Lower(c)) || c in ['\U{00C1}', '\U{00C9}', '\U{00CD}', '\U{00D3}', '\U{00DA}', '\U{00D1}']
  }

  // ---------------------------------------------------------------- one number

  /** Past the digits that start at `p`. */
  function DigitsEnd(t: string, p: nat): (q: nat)
    requires p <= |t|
    ensures p <= q <= |t|
    ensures forall k | p <= k < q :: Digit(t[k])
    ensures q < |t| ==> !Digit(t[q])
    decreases |t| - p
  {
    if p < |t| && Digit(t[p]) then DigitsEnd(t, p + 1) else p
  }

  /** A number may start here: no digit and no mark stands before it. */
  predicate Starts(t: string, p: nat) {
    p < |t| && Digit(t[p]) && (p == 0 || !(Digit(t[p - 1]) || Mark(t[p - 1])))
  }

  /** Where the digits and decimals of a number end, if there are not too many digits. */
  function RawEnd(t: string, p: nat): (q: Option<nat>)
    requires p <= |t|
    ensures q.Some? ==> DigitsEnd(t, p) <= q.value <= |t|
  {
    var q := DigitsEnd(t, p);
    if q - p > MAX_DIGITS then None
    else if q < |t| && Mark(t[q]) && 1 <= DigitsEnd(t, q + 1) - (q + 1) <= MAX_DECIMALS then Some(DigitsEnd(t, q + 1))
    else Some(q)
  }

  function NatOf(digits: string): nat {
    if digits == [] then 0
    else
      var c := digits[|digits| - 1];
      NatOf(digits[..|digits| - 1]) * 10 + if Digit(c) then (c - '0') as nat else 0
  }

  function Power(n: nat): (p: nat)
    ensures p > 0
  {
    if n == 0 then 1 else 10 * Power(n - 1)
  }

  /** Written with a mark. */
  predicate Marked(raw: string) {
    DigitsEnd(raw, 0) < |raw|
  }

  /** The value of what the pattern captures: digits, or digits, a mark and decimals. */
  function ValueOf(raw: string): real {
    var d := DigitsEnd(raw, 0);
    if !Marked(raw) then NatOf(raw) as real
    else NatOf(raw[..d]) as real + NatOf(raw[d + 1..]) as real / Power(|raw| - d - 1) as real
  }

  /** What the pattern takes as given: whitespace, the words for units and the words for counts. */
  datatype Lexicon = Lexicon(space: Space, units: map<string, Measure>, counts: map<string, int>)

  function Lowered(s: string): string {
    seq(|s|, k requires 0 <= k < |s| => Lower(s[k]))
  }

  /** Past the letters that start at `u`. */
  function LettersEnd(t: string, u: nat): (e: nat)
    requires u <= |t|
    ensures u <= e <= |t|
    ensures forall k | u <= k < e :: WordLetter(t[k])
    ensures e < |t| ==> !WordLetter(t[e])
    decreases |t| - u
  {
    if u < |t| && WordLetter(t[u]) then LettersEnd(t, u + 1) else u
  }

  /** The whole word that stands at a place, in small letters. */
  function WordOf(t: string, u: nat): string
    requires u <= |t|
  {
    Lowered(t[u..LettersEnd(t, u)])
  }

  predicate SmallWord(w: string) {
    w != [] && forall k | 0 <= k < |w| :: SmallLetter(w[k])
  }

  /** One alternative of the pattern: the word stands here, in either case, and no letter follows it. */
  predicate WordAt(t: string, u: nat, w: string) {
    && u + |w| <= |t|
    && Lowered(t[u..u + |w|]) == w
    && (u + |w| < |t| ==> !WordLetter(t[u + |w|]))
  }

  /** An alternative matches exactly when it is the whole word, so the order of the alternatives is no matter. */
  lemma AlternativeIsTheWord(t: string, u: nat, w: string)
    requires u <= |t| && SmallWord(w)
    ensures WordAt(t, u, w) <==> WordOf(t, u) == w
  {
    if WordAt(t, u, w) {
      forall k | u <= k < u + |w| ensures WordLetter(t[k]) {
        assert Lowered(t[u..u + |w|])[k - u] == Lower(t[k]);
        assert SmallLetter(w[k - u]);
      }
    } else {
      assert |WordOf(t, u)| == LettersEnd(t, u) - u;
    }
  }

  /** What a word means as a unit. */
  function MeasureOf(w: string, lex: Lexicon): Measure {
    if w in lex.units then lex.units[w] else Unstated
  }

  /** The unit after some whitespace. */
  function UnitOf(t: string, q: nat, lex: Lexicon): Measure
    requires q <= |t|
  {
    MeasureOf(WordOf(t, Skip(t, q, lex.space)), lex)
  }

  /** The number the pattern's two groups give. */
  function NumberFrom(raw: string, unit: Measure): Number {
    Number(ValueOf(raw), unit, Marked(raw))
  }

  predicate HasNumber(t: string, p: nat) {
    Starts(t, p) && RawEnd(t, p).Some?
  }

  /** The number that starts at a place, if one does. */
  function NumberAt(t: string, p: nat, lex: Lexicon): Option<Number> {
    if !HasNumber(t, p) then None
    else
      var q := RawEnd(t, p).value;
      Some(NumberFrom(t[p..q], UnitOf(t, q, lex)))
  }

  /** Past the number and its unit. */
  function NumberEnd(t: string, p: nat, lex: Lexicon): nat
    requires HasNumber(t, p)
  {
    var q := RawEnd(t, p).value;
    if UnitOf(t, q, lex).Unstated? then q else LettersEnd(t, Skip(t, q, lex.space))
  }

  // ---------------------------------------------------------------- all of them

  /** Whitespace is no part of numbers or words, and nothing is no unit. */
  predicate Sane(lex: Lexicon) {
    && (forall c | c in lex.space :: !Digit(c) && !Mark(c) && !WordLetter(c))
    && "" !in lex.units
    && "" !in lex.counts
  }

  /** No number starts inside another one. */
  lemma NumbersDoNotOverlap(t: string, p: nat, lex: Lexicon)
    requires Sane(lex) && HasNumber(t, p)
    ensures p < NumberEnd(t, p, lex) <= |t|
    ensures forall k | p < k < NumberEnd(t, p, lex) :: !Starts(t, k)
  {
    var d, q := DigitsEnd(t, p), RawEnd(t, p).value;
    SkipStops(t, q, lex.space);
    forall k | p < k < NumberEnd(t, p, lex) ensures !Starts(t, k) {
      if k < d {
        assert Digit(t[k - 1]);
      } else if k < q && k > d {
        assert k == d + 1 || Digit(t[k - 1]);
      }
    }
  }

  /** The search: after a number it goes on past it. */
  function FindAll(t: string, p: nat, lex: Lexicon): seq<Number>
    requires p <= |t| && Sane(lex)
    decreases |t| - p
  {
    if p == |t| then []
    else if HasNumber(t, p) then
      NumbersDoNotOverlap(t, p, lex);
      [NumberAt(t, p, lex).value] + FindAll(t, NumberEnd(t, p, lex), lex)
    else FindAll(t, p + 1, lex)
  }

  function Numbers(t: string, lex: Lexicon): seq<Number>
    requires Sane(lex)
  {
    FindAll(t, 0, lex)
  }

  lemma {:induction false} FoundFrom(t: string, p: nat, lex: Lexicon, n: Number) returns (k: nat)
    requires p <= |t| && Sane(lex) && n in FindAll(t, p, lex)
    ensures p <= k < |t| && NumberAt(t, k, lex) == Some(n)
    decreases |t| - p
  {
    if HasNumber(t, p) {
      NumbersDoNotOverlap(t, p, lex);
      if NumberAt(t, p, lex) == Some(n) {
        k := p;
      } else {
        k := FoundFrom(t, NumberEnd(t, p, lex), lex, n);
      }
    } else {
      k := FoundFrom(t, p + 1, lex, n);
    }
  }

  lemma {:induction false} NumberIsListed(t: string, p: nat, k: nat, lex: Lexicon)
    requires p <= k < |t| && Sane(lex) && HasNumber(t, k)
    ensures NumberAt(t, k, lex).value in FindAll(t, p, lex)
    decreases |t| - p
  {
    if HasNumber(t, p) {
      NumbersDoNotOverlap(t, p, lex);
      if p < k {
        NumberIsListed(t, NumberEnd(t, p, lex), k, lex);
      }
    } else {
      NumberIsListed(t, p + 1, k, lex);
    }
  }

  /** Going past a number misses none: the search finds exactly the numbers that start somewhere. */
  lemma EveryNumberIsFound(t: string, lex: Lexicon, n: Number)
    requires Sane(lex)
    ensures n in Numbers(t, lex) <==> exists k | 0 <= k < |t| :: NumberAt(t, k, lex) == Some(n)
  {
    if n in Numbers(t, lex) {
      var k := FoundFrom(t, 0, lex, n);
    }
    if k :| 0 <= k < |t| && NumberAt(t, k, lex) == Some(n) {
      NumberIsListed(t, 0, k, lex);
    }
  }

  /** A number starts here that can mean this value. */
  predicate StatesAt(t: string, k: int, lex: Lexicon, v: real) {
    0 <= k < |t| && HasNumber(t, k) && CanMean(NumberAt(t, k, lex).value, v)
  }

  lemma StatedSomewhere(t: string, lex: Lexicon, v: real)
    requires Sane(lex)
    ensures States(Numbers(t, lex), v) <==> exists k :: StatesAt(t, k, lex, v)
  {
    if States(Numbers(t, lex), v) {
      var i :| 0 <= i < |Numbers(t, lex)| && CanMean(Numbers(t, lex)[i], v);
      var k := FoundFrom(t, 0, lex, Numbers(t, lex)[i]);
      assert StatesAt(t, k, lex, v);
    }
    if k :| StatesAt(t, k, lex, v) {
      NumberIsListed(t, 0, k, lex);
    }
  }

  lemma StatedHere(t: string, k: nat, lex: Lexicon, n: Number, v: real)
    requires Sane(lex) && k < |t| && NumberAt(t, k, lex) == Some(n) && CanMean(n, v)
    ensures States(Numbers(t, lex), v)
  {
    assert StatesAt(t, k, lex, v);
    StatedSomewhere(t, lex, v);
  }

  // ---------------------------------------------------------------- counts

  /** Whole, without a unit, of at most three digits' worth. */
  predicate Counts(n: Number) {
    n.unit.Unstated? && !n.marked && n.value <= MAX_QUANTITY
  }

  /** The word is one of the runs of letters of a folded text. */
  predicate RunAt(f: string, i: nat, w: string) {
    && i + |w| <= |f| && f[i..i + |w|] == w
    && (i > 0 ==> !SmallLetter(f[i - 1]))
    && (i + |w| < |f| ==> !SmallLetter(f[i + |w|]))
  }

  predicate Says(f: string, w: string) {
    exists i | 0 <= i <= |f| :: RunAt(f, i, w)
  }

  function NumberCounts(t: string, lex: Lexicon): set<int>
    requires Sane(lex)
  {
    set n | n in Numbers(t, lex) && Counts(n) :: n.value.Floor
  }

  function WordCounts(t: string, fold: Fold, lex: Lexicon): set<int> {
    set w | w in lex.counts && Says(Folded(t, fold).0, w) :: lex.counts[w]
  }

  function CountsOf(t: string, fold: Fold, lex: Lexicon): set<int>
    requires Sane(lex)
  {
    NumberCounts(t, lex) + WordCounts(t, fold, lex)
  }

  // ---------------------------------------------------------------- the module's own words

  const UNITS: map<string, Measure> :=
    map["mm" := Millimetres, "cm" := Centimetres, "mt" := Metres, "mts" := Metres, "metro" := Metres,
        "metros" := Metres, "m" := Metres]

  const WORD_COUNTS: map<string, int> :=
    map["un" := 1, "una" := 1, "uno" := 1, "dos" := 2, "tres" := 3, "cuatro" := 4, "cinco" := 5, "seis" := 6,
        "siete" := 7, "ocho" := 8, "nueve" := 9, "diez" := 10, "once" := 11, "doce" := 12]

  function Spanish(space: Space): Lexicon {
    Lexicon(space, UNITS, WORD_COUNTS)
  }
}
