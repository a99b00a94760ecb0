/** The history cursor (`threads.py`): a moment and an identifier in base64url without its padding. The alphabet and
    the padding are those of sections 5 and 3.2 of RFC 4648; decoding is the lenient one of the platform. */
module Cursor {
  import opened Basics

  type Byte = x: int | 0 <= x < 256

  const BAR: Byte := 124

  // ---------------------------------------------------------------- the alphabet

  function Letter(n: nat): char
    requires n < 64
  {
    if n < 26 then ('A' as int + n) as char
    else if n < 52 then ('a' as int + (n - 26)) as char
    else if n < 62 then ('0' as int + (n - 52)) as char
    else if n == 62 then '-' else '_'
  }

  /** The value of a character; the standard alphabet's two last letters are read as well, others have none. */
  function Sextet(c: char): (n: Option<nat>)
    ensures n.Some? ==> n.value < 64
  {
    if 'A' <= c <= 'Z' then Some(c as int - 'A' as int)
    else if 'a' <= c <= 'z' then Some(c as int - 'a' as int + 26)
    else if '0' <= c <= '9' then Some(c as int - '0' as int + 52)
    else if c == '-' || c == '+' then Some(62)
    else if c == '_' || c == '/' then Some(63)
    else None
  }

  lemma LettersRead(n: nat)
    requires n < 64
    ensures Sextet(Letter(n)) == Some(n) && Letter(n) != '='
  {
  }

  // ---------------------------------------------------------------- encoding

  /** Four letters for three bytes; one byte left gives two letters, two bytes left give three. */
  function Letters(b: seq<Byte>): string {
    if |b| == 0 then ""
    else if |b| == 1 then [Letter(b[0] / 4), Letter(b[0] % 4 * 16)]
    else if |b| == 2 then
      [Letter(b[0] / 4), Letter(b[0] % 4 * 16 + b[1] / 16), Letter(b[1] % 16 * 4)]
    else
      [Letter(b[0] / 4), Letter(b[0] % 4 * 16 + b[1] / 16), Letter(b[1] % 16 * 4 + b[2] / 64), Letter(b[2] % 64)]
      + Letters(b[3..])
  }

  function Pads(n: nat): string {
    seq(n, _ => '=')
  }

  /** The letters with the padding that makes their number a multiple of four. */
  function Base64(b: seq<Byte>): string {
    Letters(b) + Pads((3 - |b| % 3) % 3)
  }

  function StripPads(s: string): string {
    if s != [] && s[|s| - 1] == '=' then StripPads(s[..|s| - 1]) else s
  }

  function EncodeCursor(moment: seq<Byte>, id: seq<Byte>): string {
    StripPads(Base64(moment + [BAR] + id))
  }

  // ---------------------------------------------------------------- decoding

  datatype DecodeError = Incorrect

  /** The lenient reader: characters without a value are passed over, a complete padding ends the text, and ending
      inside a group is an error. `quad` is the place in the group, `left` the bits read and not yet given out. */
  function Scan(s: string, quad: nat, left: nat, pads: nat): Result<seq<Byte>, DecodeError>
    requires quad < 4 && left < 64
    requires quad == 2 ==> left < 16
    requires quad == 3 ==> left < 4
  {
    if s == [] then
      if quad == 0 then Ok([]) else Err(Incorrect)
    else if s[0] == '=' then
      if quad < 2 then Scan(s[1..], quad, left, pads)
      else if quad + pads + 1 >= 4 then Ok([])
      else Scan(s[1..], quad, left, pads + 1)
    else if Sextet(s[0]).None? then Scan(s[1..], quad, left, pads)
    else
      var v := Sextet(s[0]).value;
      if quad == 0 then Scan(s[1..], 1, v, 0)
      else if quad == 1 then Give(left * 4 + v / 16, Scan(s[1..], 2, v % 16, 0))
      else if quad == 2 then Give(left * 16 + v / 4, Scan(s[1..], 3, v % 4, 0))
      else Give(left * 64 + v, Scan(s[1..], 0, 0, 0))
  }

  function Give(b: Byte, rest: Result<seq<Byte>, DecodeError>): Result<seq<Byte>, DecodeError> {
    if rest.Ok? then Ok([b] + rest.value) else rest
  }

  /** The first part up to the first bar, and what follows it. */
  function Split(raw: seq<Byte>): Option<(seq<Byte>, seq<Byte>)> {
    if raw == [] then None
    else if raw[0] == BAR then Some(([], raw[1..]))
    else
      match Split(raw[1..])
      case None => None
      case Some((a, b)) => Some(([raw[0]] + a, b))
  }

  /** What the platform accepts as text, as a moment and as an identifier. */
  datatype Accepts = Accepts(text: seq<Byte> -> bool, moment: seq<Byte> -> bool, id: seq<Byte> -> bool)

  datatype CursorError = CursorInvalid

  /** No cursor is no bound; anything that does not decode to a moment, a bar and an identifier is refused. */
  function DecodeCursor(cursor: string, ok: Accepts): Result<Option<(seq<Byte>, seq<Byte>)>, CursorError> {
    if cursor == [] then Ok(None)
    else
      match Scan(cursor + Pads((4 - |cursor| % 4) % 4), 0, 0, 0)
      case Err(_) => Err(CursorInvalid)
      case Ok(raw) =>
        if !ok.text(raw) then Err(CursorInvalid)
        else
          match Split(raw)
          case None => Err(CursorInvalid)
          case Some((moment, id)) =>
            if ok.moment(moment) && ok.id(id) then Ok(Some((moment, id))) else Err(CursorInvalid)
  }

  // ---------------------------------------------------------------- the round trip

  /** Stripping takes off the padding and no letter. */
  lemma {:induction false} StrippingLeavesTheLetters(s: string, n: nat)
    requires s == [] || s[|s| - 1] != '='
    ensures StripPads(s + Pads(n)) == s
  {
    if n == 0 {
      assert s + Pads(0) == s;
    } else {
      var t := s + Pads(n);
      assert t[..|t| - 1] == s + Pads(n - 1);
      StrippingLeavesTheLetters(s, n - 1);
    }
  }

  lemma {:induction false} LettersAreNotPads(b: seq<Byte>)
    ensures forall i | 0 <= i < |Letters(b)| :: Letters(b)[i] != '='
    ensures |Letters(b)| == |b| / 3 * 4 + (if |b| % 3 == 0 then 0 else |b| % 3 + 1)
  {
    if |b| >= 3 {
      LettersAreNotPads(b[3..]);
      LettersRead(b[0] / 4);
      LettersRead(b[0] % 4 * 16 + b[1] / 16);
      LettersRead(b[1] % 16 * 4 + b[2] / 64);
      LettersRead(b[2] % 64);
    } else if |b| == 2 {
      LettersRead(b[0] / 4);
      LettersRead(b[0] % 4 * 16 + b[1] / 16);
      LettersRead(b[1] % 16 * 4);
    } else if |b| == 1 {
      LettersRead(b[0] / 4);
      LettersRead(b[0] % 4 * 16);
    }
  }

  /** One letter at a time. */
  lemma ScanLetter(n: nat, rest: string, quad: nat, left: nat)
    requires n < 64 && quad < 4 && left < 64 && (quad == 2 ==> left < 16) && (quad == 3 ==> left < 4)
    ensures Scan([Letter(n)] + rest, quad, left, 0) ==
      if quad == 0 then Scan(rest, 1, n, 0)
      else if quad == 1 then Give(left * 4 + n / 16, Scan(rest, 2, n % 16, 0))
      else if quad == 2 then Give(left * 16 + n / 4, Scan(rest, 3, n % 4, 0))
      else Give(left * 64 + n, Scan(rest, 0, 0, 0))
  {
    LettersRead(n);
    assert ([Letter(n)] + rest)[1..] == rest;
  }

  /** The first two letters of a group, from its start. */
  lemma ScanTwo(w: nat, x: nat, rest: string)
    requires w < 64 && x < 64
    ensures Scan([Letter(w)] + ([Letter(x)] + rest), 0, 0, 0) == Give(w * 4 + x / 16, Scan(rest, 2, x % 16, 0))
  {
    ScanLetter(w, [Letter(x)] + rest, 0, 0);
    ScanLetter(x, rest, 1, w);
  }

  lemma ScanThree(w: nat, x: nat, y: nat, rest: string)
    requires w < 64 && x < 64 && y < 64
    ensures Scan([Letter(w)] + ([Letter(x)] + ([Letter(y)] + rest)), 0, 0, 0)
         == Give(w * 4 + x / 16, Give(x % 16 * 16 + y / 4, Scan(rest, 3, y % 4, 0)))
  {
    ScanTwo(w, x, [Letter(y)] + rest);
    ScanLetter(y, rest, 2, x % 16);
  }

  lemma ScanFour(w: nat, x: nat, y: nat, z: nat, rest: string)
    requires w < 64 && x < 64 && y < 64 && z < 64
    ensures Scan([Letter(w)] + ([Letter(x)] + ([Letter(y)] + ([Letter(z)] + rest))), 0, 0, 0)
         == Give(w * 4 + x / 16, Give(x % 16 * 16 + y / 4, Give(y % 4 * 64 + z, Scan(rest, 0, 0, 0))))
  {
    ScanThree(w, x, y, [Letter(z)] + rest);
    ScanLetter(z, rest, 3, y % 4);
  }

  /** A whole group gives back its three bytes. */
  lemma ScanGroup(a: Byte, b: Byte, c: Byte, rest: string)
    ensures Scan([Letter(a / 4), Letter(a % 4 * 16 + b / 16), Letter(b % 16 * 4 + c / 64), Letter(c % 64)] + rest, 0, 0, 0)
         == Give(a, Give(b, Give(c, Scan(rest, 0, 0, 0))))
  {
    var w, x, y, z := a / 4, a % 4 * 16 + b / 16, b % 16 * 4 + c / 64, c % 64;
    assert [Letter(w), Letter(x), Letter(y), Letter(z)] + rest
        == [Letter(w)] + ([Letter(x)] + ([Letter(y)] + ([Letter(z)] + rest)));
    ScanFour(w, x, y, z, rest);
    BitsReturn(a, b, c);
  }

  lemma BitsReturn(a: Byte, b: Byte, c: Byte)
    ensures var w, x, y, z := a / 4, a % 4 * 16 + b / 16, b % 16 * 4 + c / 64, c % 64;
      w * 4 + x / 16 == a && x % 16 * 16 + y / 4 == b && y % 4 * 64 + z == c
  {
  }

  lemma PadsEnd(left: nat)
    requires left < 16
    ensures Scan("==", 2, left, 0) == Ok([])
    ensures left < 4 ==> Scan("=", 3, left, 0) == Ok([])
  {
    assert "=="[1..] == "=";
    assert Scan("=", 2, left, 1) == Ok([]);
  }

  /** Two letters and two pads give back one byte. */
  lemma ScanOneLeft(a: Byte)
    ensures Scan([Letter(a / 4), Letter(a % 4 * 16)] + "==", 0, 0, 0) == Ok([a])
  {
    var w, x := a / 4, a % 4 * 16;
    assert [Letter(w), Letter(x)] + "==" == [Letter(w)] + ([Letter(x)] + "==");
    ScanTwo(w, x, "==");
    PadsEnd(x % 16);
    assert w * 4 + x / 16 == a;
    assert [a] + [] == [a];
  }

  /** Three letters and one pad give back two bytes. */
  lemma ScanTwoLeft(a: Byte, b: Byte)
    ensures Scan([Letter(a / 4), Letter(a % 4 * 16 + b / 16), Letter(b % 16 * 4)] + "=", 0, 0, 0) == Ok([a, b])
  {
    var w, x, y := a / 4, a % 4 * 16 + b / 16, b % 16 * 4;
    assert [Letter(w), Letter(x), Letter(y)] + "=" == [Letter(w)] + ([Letter(x)] + ([Letter(y)] + "="));
    ScanThree(w, x, y, "=");
    PadsEnd(y % 4);
    BitsReturn(a, b, 0);
    assert [a] + ([b] + []) == [a, b];
  }

  lemma Base64Group(b: seq<Byte>)
    requires |b| >= 3
    ensures Base64(b) == [Letter(b[0] / 4), Letter(b[0] % 4 * 16 + b[1] / 16), Letter(b[1] % 16 * 4 + b[2] / 64),
                          Letter(b[2] % 64)] + Base64(b[3..])
  {
    assert |b| % 3 == |b[3..]| % 3;
  }

  /** Decoding what was encoded gives the bytes back, whatever their number modulo three. */
  lemma {:induction false} Base64RoundTrips(b: seq<Byte>)
    ensures Scan(Base64(b), 0, 0, 0) == Ok(b)
  {
    if |b| >= 3 {
      Base64RoundTrips(b[3..]);
      Base64Group(b);
      ScanGroup(b[0], b[1], b[2], Base64(b[3..]));
      assert b == [b[0]] + ([b[1]] + ([b[2]] + b[3..]));
    } else if |b| == 2 {
      ScanTwoLeft(b[0], b[1]);
      assert [b[0], b[1]] == b;
      assert Base64(b) == [Letter(b[0] / 4), Letter(b[0] % 4 * 16 + b[1] / 16), Letter(b[1] % 16 * 4)] + "=";
    } else if |b| == 1 {
      ScanOneLeft(b[0]);
      assert [b[0]] == b;
      assert Base64(b) == [Letter(b[0] / 4), Letter(b[0] % 4 * 16)] + "==";
    } else {
      assert Base64(b) == "";
    }
  }

  /** The padding put back is the padding taken off. */
  lemma PaddingReturns(b: seq<Byte>)
    ensures StripPads(Base64(b)) == Letters(b)
    ensures Letters(b) + Pads((4 - |Letters(b)| % 4) % 4) == Base64(b)
  {
    LettersAreNotPads(b);
    StrippingLeavesTheLetters(Letters(b), (3 - |b| % 3) % 3);
    PaddingCounts(|b| / 3, |b| % 3);
  }

  lemma PaddingCounts(q: nat, r: nat)
    requires r < 3
    ensures var n := q * 4 + if r == 0 then 0 else r + 1; (4 - n % 4) % 4 == (3 - r) % 3
  {
    assert (q * 4) % 4 == 0;
  }

  lemma {:induction false} SplitAtTheFirstBar(a: seq<Byte>, b: seq<Byte>)
    requires BAR !in a
    ensures Split(a + [BAR] + b) == Some((a, b))
  {
    var raw := a + [BAR] + b;
    if a == [] {
      assert raw[1..] == b;
    } else {
      assert raw[1..] == a[1..] + [BAR] + b;
      SplitAtTheFirstBar(a[1..], b);
      assert [a[0]] + a[1..] == a;
    }
  }

  /** A cursor decodes to the very pair it was made of. */
  lemma CursorRoundTrips(moment: seq<Byte>, id: seq<Byte>, ok: Accepts)
    requires BAR !in moment && ok.text(moment + [BAR] + id) && ok.moment(moment) && ok.id(id)
    ensures DecodeCursor(EncodeCursor(moment, id), ok) == Ok(Some((moment, id)))
  {
    var raw := moment + [BAR] + id;
    PaddingReturns(raw);
    LettersAreNotPads(raw);
    Base64RoundTrips(raw);
    SplitAtTheFirstBar(moment, id);
  }

  /** Two pairs never share a cursor. */
  lemma CursorsAreDistinct(m1: seq<Byte>, id1: seq<Byte>, m2: seq<Byte>, id2: seq<Byte>)
    requires BAR !in m1 && BAR !in m2 && EncodeCursor(m1, id1) == EncodeCursor(m2, id2)
    ensures m1 == m2 && id1 == id2
  {
    var ok := Accepts((_: seq<Byte>) => true, (_: seq<Byte>) => true, (_: seq<Byte>) => true);
    CursorRoundTrips(m1, id1, ok);
    CursorRoundTrips(m2, id2, ok);
  }

  /** What decoding returns is a moment and an identifier the platform accepts, with no bar in the moment. */
  lemma DecodedIsAccepted(cursor: string, ok: Accepts)
    requires DecodeCursor(cursor, ok).Ok? && DecodeCursor(cursor, ok).value.Some?
    ensures var (moment, id) := DecodeCursor(cursor, ok).value.value;
      ok.moment(moment) && ok.id(id) && BAR !in moment && ok.text(moment + [BAR] + id)
  {
    var raw := Scan(cursor + Pads((4 - |cursor| % 4) % 4), 0, 0, 0).value;
    SplitJoins(raw);
  }

  lemma {:induction false} SplitJoins(raw: seq<Byte>)
    ensures Split(raw).Some? ==>
      raw == Split(raw).value.0 + [BAR] + Split(raw).value.1 && BAR !in Split(raw).value.0
  {
    if raw != [] && raw[0] != BAR {
      SplitJoins(raw[1..]);
      assert raw == [raw[0]] + raw[1..];
    } else if raw != [] {
      assert raw == [] + [BAR] + raw[1..];
    }
  }
}
