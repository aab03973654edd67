// encoding/base64 without padding: the standard alphabet of section 4 and the URL
// alphabet of section 5 of RFC 4648.
module Base64 {
  import opened ByteStrings
  import opened Wrappers

  datatype Alphabet = Std | Url

  type Sextet = n: int | 0 <= n < 64

  function CharOf(a: Alphabet, n: Sextet): char {
    if n < 26 then ('A' as int + n) as char
    else if n < 52 then ('a' as int + n - 26) as char
    else if n < 62 then ('0' as int + n - 52) as char
    else if n == 62 then (if a.Std? then '+' else '-')
    else (if a.Std? then '/' else '_')
  }

  function SextetOf(a: Alphabet, c: char): Option<Sextet> {
    if 'A' <= c <= 'Z' then Some(c as int - 'A' as int)
    else if 'a' <= c <= 'z' then Some(c as int - 'a' as int + 26)
    else if '0' <= c <= '9' then Some(c as int - '0' as int + 52)
    else if c == CharOf(a, 62) then Some(62)
    else if c == CharOf(a, 63) then Some(63)
    else None
  }

  predicate InAlphabet(a: Alphabet, s: string) {
    forall i :: 0 <= i < |s| ==> SextetOf(a, s[i]).Some?
  }

  // ------------------------------------------------------------------
  // Bytes and groups of six bits
  // ------------------------------------------------------------------

  // Three bytes are four groups.
  function Group(p: Byte, q: Byte, r: Byte): (x: seq<Sextet>)
    ensures |x| == 4
  {
    [p / 4, p % 4 * 16 + q / 16, q % 16 * 4 + r / 64, r % 64]
  }

  function Ungroup(w: Sextet, x: Sextet, y: Sextet, z: Sextet): (b: Bytes)
    ensures |b| == 3
  {
    [w as int * 4 + x / 16, x as int % 16 * 16 + y / 4, y as int % 4 * 64 + z]
  }

  lemma GroupRoundTrip(p: Byte, q: Byte, r: Byte)
    ensures var x := Group(p, q, r); Ungroup(x[0], x[1], x[2], x[3]) == [p, q, r]
    ensures q == r == 0 ==> Group(p, q, r)[2..] == [0, 0]
    ensures r == 0 ==> Group(p, q, r)[3] == 0
  {
    Rejoin16(p as int % 4, q as int / 16);
    Rejoin4(q as int % 16, r as int / 64);
    SplitDigits(p, q, r);
  }

  lemma Rejoin16(high: int, low: int)
    requires 0 <= low < 16
    ensures (high * 16 + low) / 16 == high && (high * 16 + low) % 16 == low
  {
  }

  lemma Rejoin4(high: int, low: int)
    requires 0 <= low < 4
    ensures (high * 4 + low) / 4 == high && (high * 4 + low) % 4 == low
  {
  }

  lemma SplitDigits(p: int, q: int, r: int)
    ensures p == p / 4 * 4 + p % 4 && q == q / 16 * 16 + q % 16 && r == r / 64 * 64 + r % 64
  {
  }

  function ToSextets(b: Bytes): seq<Sextet>
    decreases |b|
  {
    if |b| == 0 then []
    else if |b| == 1 then Group(b[0], 0, 0)[..2]
    else if |b| == 2 then Group(b[0], b[1], 0)[..3]
    else Group(b[0], b[1], b[2]) + ToSextets(b[3..])
  }

  // A single left-over group is an error; left-over bits of the last group are
  // dropped, whatever they are.
  function FromSextets(x: seq<Sextet>): Option<Bytes>
    decreases |x|
  {
    if |x| == 0 then Some([])
    else if |x| == 1 then None
    else if |x| == 2 then Some(Ungroup(x[0], x[1], 0, 0)[..1])
    else if |x| == 3 then Some(Ungroup(x[0], x[1], x[2], 0)[..2])
    else
      match FromSextets(x[4..])
      case None => None
      case Some(rest) => Some(Ungroup(x[0], x[1], x[2], x[3]) + rest)
  }

  lemma {:induction false} SextetsRoundTrip(b: Bytes)
    ensures FromSextets(ToSextets(b)) == Some(b)
    decreases |b|
  {
    if |b| >= 3 {
      SextetsRoundTrip(b[3..]);
      GroupRoundTrip(b[0], b[1], b[2]);
      var x := Group(b[0], b[1], b[2]) + ToSextets(b[3..]);
      assert x[4..] == ToSextets(b[3..]);
      assert b == [b[0], b[1], b[2]] + b[3..];
    } else if |b| == 2 {
      GroupRoundTrip(b[0], b[1], 0);
      assert b == [b[0], b[1], 0][..2];
    } else if |b| == 1 {
      GroupRoundTrip(b[0], 0, 0);
      assert Group(b[0], 0, 0)[2..][0] == Group(b[0], 0, 0)[2];
      assert b == [b[0], 0, 0][..1];
    }
  }

  lemma {:induction false} SextetsLength(b: Bytes)
    ensures |ToSextets(b)| == (4 * |b| + 2) / 3
    decreases |b|
  {
    if |b| >= 3 {
      SextetsLength(b[3..]);
    }
  }

  lemma DropFour(n: nat)
    requires n >= 4
    ensures (n - 4) % 4 == n % 4
  {
  }

  lemma {:induction false} FromSextetsDefined(x: seq<Sextet>)
    ensures FromSextets(x).Some? <==> |x| % 4 != 1
    decreases |x|
  {
    if |x| >= 4 {
      var rest := x[4..];
      DropFour(|x|);
      FromSextetsDefined(rest);
      assert FromSextets(x).Some? <==> FromSextets(rest).Some?;
    }
  }

  // ------------------------------------------------------------------
  // Encoding and decoding
  // ------------------------------------------------------------------

  function Encode(a: Alphabet, b: Bytes): string {
    var x := ToSextets(b);
    seq(|x|, i requires 0 <= i < |x| => CharOf(a, x[i]))
  }

  // The decoder skips line breaks.
  function SkipNewlines(s: string): string {
    if s == [] then []
    else if s[0] == '\r' || s[0] == '\n' then SkipNewlines(s[1..])
    else [s[0]] + SkipNewlines(s[1..])
  }

  function Decode(a: Alphabet, s: string): Option<Bytes> {
    var t := SkipNewlines(s);
    if !InAlphabet(a, t) then None
    else FromSextets(Sextets(a, t))
  }

  function Sextets(a: Alphabet, t: string): (x: seq<Sextet>)
    requires InAlphabet(a, t)
    ensures |x| == |t| && forall i :: 0 <= i < |t| ==> x[i] == SextetOf(a, t[i]).value
  {
    seq(|t|, i requires 0 <= i < |t| => SextetOf(a, t[i]).value)
  }

  lemma CharRoundTrip(a: Alphabet, n: Sextet)
    ensures SextetOf(a, CharOf(a, n)) == Some(n)
  {
  }

  lemma EncodeInAlphabet(a: Alphabet, b: Bytes)
    ensures InAlphabet(a, Encode(a, b)) && |Encode(a, b)| == (4 * |b| + 2) / 3
  {
    SextetsLength(b);
    forall i | 0 <= i < |Encode(a, b)| ensures SextetOf(a, Encode(a, b)[i]).Some? {
      CharRoundTrip(a, ToSextets(b)[i]);
    }
  }

  lemma {:induction false} NothingToSkip(a: Alphabet, s: string)
    requires InAlphabet(a, s)
    ensures SkipNewlines(s) == s
  {
    if s != [] {
      NothingToSkip(a, s[1..]);
    }
  }

  lemma EncodeDecode(a: Alphabet, b: Bytes)
    ensures Decode(a, Encode(a, b)) == Some(b)
  {
    var x, s := ToSextets(b), Encode(a, b);
    EncodeInAlphabet(a, b);
    NothingToSkip(a, s);
    var y := Sextets(a, s);
    forall i | 0 <= i < |x| ensures y[i] == x[i] {
      CharRoundTrip(a, x[i]);
    }
    assert y == x;
    SextetsRoundTrip(b);
  }

  // ------------------------------------------------------------------
  // The alphabets
  // ------------------------------------------------------------------

  // Tables 1 and 2 of RFC 4648.
  lemma Alphabets(a: Alphabet, n: Sextet)
    ensures n < 26 ==> CharOf(a, n) as int == 'A' as int + n
    ensures 26 <= n < 52 ==> CharOf(a, n) as int == 'a' as int + n - 26
    ensures 52 <= n < 62 ==> CharOf(a, n) as int == '0' as int + n - 52
    ensures CharOf(Std, 62) == '+' && CharOf(Std, 63) == '/' && CharOf(Url, 62) == '-' && CharOf(Url, 63) == '_'
  {
  }

  // The bits of three bytes, in order, are the bits of four groups.
  lemma GroupBits(p: Byte, q: Byte, r: Byte)
    ensures var x := Group(p, q, r);
            (p as int * 256 + q) * 256 + r == ((x[0] as int * 64 + x[1]) * 64 + x[2]) * 64 + x[3]
  {
    SplitDigits(p, q, r);
  }

  // A text decodes exactly if, line breaks aside, it is in the alphabet and does not
  // leave a single character over.
  lemma DecodesIff(a: Alphabet, s: string)
    ensures Decode(a, s).Some? <==>
            InAlphabet(a, SkipNewlines(s)) && |SkipNewlines(s)| % 4 != 1
  {
    var t := SkipNewlines(s);
    if InAlphabet(a, t) {
      FromSextetsDefined(Sextets(a, t));
    }
  }

  lemma {:induction false} SkipJoin(s: string, t: string)
    ensures SkipNewlines(s + t) == SkipNewlines(s) + SkipNewlines(t)
    decreases |s|
  {
    if s == [] {
      assert s + t == t;
    } else {
      assert (s + t)[1..] == s[1..] + t;
      SkipJoin(s[1..], t);
    }
  }

  // Line breaks anywhere change nothing.
  lemma NewlinesSkipped(a: Alphabet, s: string, t: string, c: char)
    requires c == '\r' || c == '\n'
    ensures Decode(a, s + [c] + t) == Decode(a, s + t)
  {
    SkipJoin(s + [c], t);
    SkipJoin(s, [c]);
    SkipJoin(s, t);
    assert [c][1..] == [] && SkipNewlines([c]) == [];
    assert SkipNewlines(s + [c] + t) == SkipNewlines(s) + [] + SkipNewlines(t);
    assert SkipNewlines(s + [c] + t) == SkipNewlines(s + t);
  }
}
