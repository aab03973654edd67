// UTF-8 as defined by section 4 of RFC 3629, and truncateUTF8 of
// internal/agent/runner_localintel.go, which cuts a text to a number of bytes.
module Utf8 {
  import opened ByteStrings

  predicate IsTail(b: Byte) { 0x80 <= b <= 0xBF }

  // One character: the productions UTF8-1 to UTF8-4.
  predicate IsChar(c: Bytes) {
    if |c| == 1 then c[0] <= 0x7F
    else if |c| == 2 then 0xC2 <= c[0] <= 0xDF && IsTail(c[1])
    else if |c| == 3 then
      && IsTail(c[2])
      && (|| (c[0] == 0xE0 && 0xA0 <= c[1] <= 0xBF)
          || (0xE1 <= c[0] <= 0xEC && IsTail(c[1]))
          || (c[0] == 0xED && 0x80 <= c[1] <= 0x9F)
          || (0xEE <= c[0] <= 0xEF && IsTail(c[1])))
    else if |c| == 4 then
      && IsTail(c[2]) && IsTail(c[3])
      && (|| (c[0] == 0xF0 && 0x90 <= c[1] <= 0xBF)
          || (0xF1 <= c[0] <= 0xF3 && IsTail(c[1]))
          || (c[0] == 0xF4 && 0x80 <= c[1] <= 0x8F))
    else false
  }

  // The length of the character at the front of s, 0 if there is none.
  function CharLen(s: Bytes): (n: nat)
    ensures n <= 4 && n <= |s| && (n > 0 ==> IsChar(s[..n]))
  {
    if |s| >= 1 && IsChar(s[..1]) then 1
    else if |s| >= 2 && IsChar(s[..2]) then 2
    else if |s| >= 3 && IsChar(s[..3]) then 3
    else if |s| >= 4 && IsChar(s[..4]) then 4
    else 0
  }

  // utf8.ValidString
  predicate Valid(s: Bytes)
    decreases |s|
  {
    s == [] || (CharLen(s) > 0 && Valid(s[CharLen(s)..]))
  }

  // ------------------------------------------------------------------
  // Code points
  // ------------------------------------------------------------------

  // Unicode scalar values: no surrogates.
  predicate IsScalar(v: int) { 0 <= v <= 0xD7FF || 0xE000 <= v <= 0x10FFFF }

  // Section 3 of RFC 3629.
  function Encode(v: int): Bytes
    requires IsScalar(v)
  {
    if v <= 0x7F then [v]
    else if v <= 0x7FF then [0xC0 + v / 64, 0x80 + v % 64]
    else if v <= 0xFFFF then [0xE0 + v / 4096, 0x80 + v / 64 % 64, 0x80 + v % 64]
    else [0xF0 + v / 262144, 0x80 + v / 4096 % 64, 0x80 + v / 64 % 64, 0x80 + v % 64]
  }

  function Decode(c: Bytes): int
    requires IsChar(c)
  {
    if |c| == 1 then c[0]
    else if |c| == 2 then (c[0] as int - 0xC0) * 64 + (c[1] as int - 0x80)
    else if |c| == 3 then (c[0] as int - 0xE0) * 4096 + (c[1] as int - 0x80) * 64 + (c[2] as int - 0x80)
    else (c[0] as int - 0xF0) * 262144 + (c[1] as int - 0x80) * 4096 + (c[2] as int - 0x80) * 64 + (c[3] as int - 0x80)
  }

  lemma Digits64(v: int)
    requires v >= 0
    ensures v == v / 64 * 64 + v % 64
    ensures v / 64 == v / 4096 * 64 + v / 64 % 64
    ensures v / 4096 == v / 262144 * 64 + v / 4096 % 64
  {
  }

  lemma FromDigits64(d: int, c: int, b: int, a: int)
    requires 0 <= a < 64 && 0 <= b < 64 && 0 <= c < 64 && 0 <= d
    ensures var v := d * 262144 + c * 4096 + b * 64 + a;
            && v % 64 == a && v / 64 == d * 4096 + c * 64 + b
            && v / 64 % 64 == b && v / 4096 == d * 64 + c
            && v / 4096 % 64 == c && v / 262144 == d
  {
    var v := d * 262144 + c * 4096 + b * 64 + a;
    assert v / 64 == d * 4096 + c * 64 + b;
    assert v / 4096 == d * 64 + c;
  }

  // The characters of the grammar are exactly the encodings of the scalar values.
  lemma EncodeDecode(v: int)
    requires IsScalar(v)
    ensures IsChar(Encode(v)) && Decode(Encode(v)) == v
  {
    Digits64(v);
    if v > 0xFFFF {
      EncodeDecode4(v);
    } else if v > 0x7FF {
      EncodeDecode3(v);
    }
  }

  lemma EncodeDecode3(v: int)
    requires 0x7FF < v <= 0xFFFF && IsScalar(v)
    ensures IsChar(Encode(v)) && Decode(Encode(v)) == v
  {
    Digits64(v);
  }

  lemma EncodeDecode4(v: int)
    requires 0xFFFF < v <= 0x10FFFF
    ensures IsChar(Encode(v)) && Decode(Encode(v)) == v
  {
    Digits64(v);
  }

  lemma DecodeEncode(c: Bytes)
    requires IsChar(c)
    ensures IsScalar(Decode(c)) && Encode(Decode(c)) == c
  {
    if |c| == 2 {
      FromDigits64(0, 0, c[0] as int - 0xC0, c[1] as int - 0x80);
    } else if |c| == 3 {
      DecodeEncode3(c);
    } else if |c| == 4 {
      DecodeEncode4(c);
    }
  }

  lemma DecodeEncode3(c: Bytes)
    requires IsChar(c) && |c| == 3
    ensures 0x800 <= Decode(c) <= 0xFFFF && IsScalar(Decode(c)) && Encode(Decode(c)) == c
  {
    FromDigits64(0, c[0] as int - 0xE0, c[1] as int - 0x80, c[2] as int - 0x80);
  }

  lemma DecodeEncode4(c: Bytes)
    requires IsChar(c) && |c| == 4
    ensures 0x10000 <= Decode(c) <= 0x10FFFF && Encode(Decode(c)) == c
  {
    FromDigits64(c[0] as int - 0xF0, c[1] as int - 0x80, c[2] as int - 0x80, c[3] as int - 0x80);
  }

  // A valid string is the encoding of some scalar values, and conversely.
  function EncodeAll(vs: seq<int>): Bytes
    requires forall i :: 0 <= i < |vs| ==> IsScalar(vs[i])
  {
    if vs == [] then [] else Encode(vs[0]) + EncodeAll(vs[1..])
  }

  lemma {:induction false} EncodeAllValid(vs: seq<int>)
    requires forall i :: 0 <= i < |vs| ==> IsScalar(vs[i])
    ensures Valid(EncodeAll(vs))
  {
    if vs != [] {
      EncodeDecode(vs[0]);
      EncodeAllValid(vs[1..]);
      ValidCons(Encode(vs[0]), EncodeAll(vs[1..]));
    }
  }

  lemma EncodeAllCons(v: int, rest: seq<int>)
    requires IsScalar(v) && forall i :: 0 <= i < |rest| ==> IsScalar(rest[i])
    ensures EncodeAll([v] + rest) == Encode(v) + EncodeAll(rest)
  {
    assert ([v] + rest)[1..] == rest;
  }

  lemma {:induction false} ValidIsEncoded(s: Bytes) returns (vs: seq<int>)
    requires Valid(s)
    ensures (forall i :: 0 <= i < |vs| ==> IsScalar(vs[i])) && EncodeAll(vs) == s
    decreases |s|
  {
    if s == [] {
      vs := [];
    } else {
      var c := s[..CharLen(s)];
      DecodeEncode(c);
      var rest := ValidIsEncoded(s[CharLen(s)..]);
      vs := [Decode(c)] + rest;
      EncodeAllCons(Decode(c), rest);
      assert s == c + s[CharLen(s)..];
    }
  }

  // ------------------------------------------------------------------
  // Boundaries
  // ------------------------------------------------------------------

  // No character begins with another one.
  lemma CharsPrefixFree(c: Bytes, d: Bytes)
    requires IsChar(c) && IsChar(d) && c <= d
    ensures c == d
  {
    assert c[0] == d[0];
  }

  lemma CharLenIs(c: Bytes, rest: Bytes)
    requires IsChar(c)
    ensures CharLen(c + rest) == |c|
  {
    var s := c + rest;
    assert s[..|c|] == c;
    var n := CharLen(s);
    if n > 0 && n < |c| {
      assert s[..n] == c[..n];
      CharsPrefixFree(s[..n], c);
    }
  }

  lemma ValidCons(c: Bytes, rest: Bytes)
    requires IsChar(c)
    ensures Valid(c + rest) <==> Valid(rest)
  {
    CharLenIs(c, rest);
    assert (c + rest)[|c|..] == rest;
  }

  // k is the end of a whole number of characters of s.
  predicate Boundary(s: Bytes, k: nat)
    requires Valid(s) && k <= |s|
    decreases |s|
  {
    k == 0 || (CharLen(s) <= k && Boundary(s[CharLen(s)..], k - CharLen(s)))
  }

  lemma SplitPrefix(s: Bytes, n: nat, k: nat)
    requires n <= k <= |s|
    ensures s[..k] == s[..n] + s[n..][..k - n]
  {
  }

  // Cutting a valid string leaves a valid string exactly at a character boundary.
  lemma {:induction false} ValidPrefixIffBoundary(s: Bytes, k: nat)
    requires Valid(s) && k <= |s|
    ensures Valid(s[..k]) <==> Boundary(s, k)
    decreases |s|
  {
    if k > 0 {
      var n := CharLen(s);
      var c := s[..n];
      if k < n {
        assert forall i :: 0 <= i <= k ==> s[..k][..i] == s[..i];
      } else {
        ValidPrefixIffBoundary(s[n..], k - n);
        SplitPrefix(s, n, k);
        assert Boundary(s, k) <==> Boundary(s[n..], k - n);
        ValidCons(c, s[n..][..k - n]);
      }
    }
  }

  // ------------------------------------------------------------------
  // truncateUTF8
  // ------------------------------------------------------------------

  // Cutting bytes off until the string is valid.
  function Shrink(s: Bytes, k: nat): (j: nat)
    requires k <= |s|
    ensures j <= k && Valid(s[..j]) && forall i :: j < i <= k ==> !Valid(s[..i])
  {
    if k == 0 || Valid(s[..k]) then k else Shrink(s, k - 1)
  }

  // A limit of 0 or less is no limit.
  function Truncate(s: Bytes, maxBytes: int): Bytes {
    if maxBytes <= 0 || |s| <= maxBytes then s else s[..Shrink(s, maxBytes)]
  }

  method TruncateUTF8(s: Bytes, maxBytes: int) returns (r: Bytes)
    ensures r == Truncate(s, maxBytes)
  {
    if maxBytes <= 0 || |s| <= maxBytes {
      return s;
    }
    r := s[..maxBytes];
    while |r| > 0 && !Valid(r)
      invariant |r| <= maxBytes && r == s[..|r|]
      invariant Shrink(s, maxBytes) == Shrink(s, |r|)
    {
      assert r[..|r| - 1] == s[..|r| - 1];
      r := r[..|r| - 1];
    }
  }

  // The whole characters at the front of s that fit into the limit.
  function Fit(s: Bytes, limit: nat): Bytes
    requires Valid(s)
    decreases |s|
  {
    if s == [] || CharLen(s) > limit then []
    else s[..CharLen(s)] + Fit(s[CharLen(s)..], limit - CharLen(s))
  }

  lemma PrefixOnto(s: Bytes, n: nat, f: Bytes)
    requires n <= |s| && f <= s[n..]
    ensures s[..n] + f <= s
  {
  }

  lemma {:induction false} FitIsPrefix(s: Bytes, limit: nat)
    requires Valid(s)
    ensures Fit(s, limit) <= s && |Fit(s, limit)| <= limit
    decreases |s|
  {
    if s != [] && CharLen(s) <= limit {
      var n := CharLen(s);
      FitIsPrefix(s[n..], limit - n);
      PrefixOnto(s, n, Fit(s[n..], limit - n));
    }
  }

  // Fit is the longest such prefix, and wastes at most three bytes.
  lemma {:induction false} FitLongest(s: Bytes, limit: nat)
    requires Valid(s)
    ensures Fit(s, limit) <= s && |Fit(s, limit)| <= limit
    ensures Boundary(s, |Fit(s, limit)|)
    ensures forall k: nat :: k <= |s| && k <= limit && Boundary(s, k) ==> k <= |Fit(s, limit)|
    ensures limit < |s| ==> limit <= |Fit(s, limit)| + 3
    decreases |s|
  {
    FitIsPrefix(s, limit);
    if s != [] && CharLen(s) <= limit {
      var n := CharLen(s);
      var rest := s[n..];
      var f := |Fit(rest, limit - n)|;
      FitLongest(rest, limit - n);
      assert |Fit(s, limit)| == n + f;
      forall k: nat | k <= |s| && k <= limit && Boundary(s, k) ensures k <= n + f {
        if k > 0 {
          assert Boundary(rest, k - n);
        }
      }
    }
  }

  // On valid text and a positive limit, cutting byte by byte stops exactly where the
  // last whole character that fits ends.
  lemma TruncateIsFit(s: Bytes, limit: nat)
    requires Valid(s) && limit > 0
    ensures Truncate(s, limit) == if |s| <= limit then s else Fit(s, limit)
    ensures Valid(Truncate(s, limit))
    ensures |Truncate(s, limit)| <= limit && (|s| > limit ==> limit - 3 <= |Truncate(s, limit)|)
  {
    FitLongest(s, limit);
    if |s| > limit {
      var j, f := Shrink(s, limit), |Fit(s, limit)|;
      ValidPrefixIffBoundary(s, j);
      ValidPrefixIffBoundary(s, f);
      assert Fit(s, limit) == s[..f];
    }
  }

  // ------------------------------------------------------------------
  // ASCII
  // ------------------------------------------------------------------

  predicate IsAscii(s: Bytes) { forall i :: 0 <= i < |s| ==> s[i] < 0x80 }

  lemma AsciiFirst(s: Bytes)
    requires s != [] && IsAscii(s)
    ensures CharLen(s) == 1
  {
    assert s[..1] == [s[0]];
    assert IsChar(s[..1]);
  }

  // Every byte of an ASCII text is a character.
  lemma {:induction false} AsciiBoundary(s: Bytes, k: nat)
    requires IsAscii(s) && k <= |s|
    ensures Valid(s) && Boundary(s, k)
    decreases |s|
  {
    if s != [] {
      AsciiFirst(s);
      AsciiBoundary(s[1..], if k > 0 then k - 1 else 0);
    }
  }

  lemma AsciiTruncate(s: Bytes, limit: nat)
    requires IsAscii(s) && limit > 0
    ensures Truncate(s, limit) == if |s| <= limit then s else s[..limit]
  {
    if |s| > limit {
      AsciiBoundary(s[..limit], 0);
      assert Shrink(s, limit) == limit;
    }
  }

  // Without the hypothesis nothing need remain: one bad byte at the front, and a
  // text that must be cut is cut to nothing.
  lemma BadFrontLosesAll(s: Bytes, limit: nat)
    requires 0 < limit < |s| && CharLen(s) == 0
    ensures Truncate(s, limit) == []
  {
    var j := Shrink(s, limit);
    assert forall i :: 0 <= i <= j ==> s[..j][..i] == s[..i];
  }

  // ------------------------------------------------------------------
  // Examples
  // ------------------------------------------------------------------

  // The dollar and cent signs, the euro sign and a Gothic letter.
  lemma Examples()
    ensures Encode(0x24) == [0x24] && Encode(0xA2) == [0xC2, 0xA2]
    ensures Encode(0x20AC) == [0xE2, 0x82, 0xAC] && Encode(0x10348) == [0xF0, 0x90, 0x8D, 0x88]
  {
  }

  // No other value has an encoding: a surrogate's bytes are not a character, nor are an
  // overlong form's or those beyond U+10FFFF.
  lemma NotChars(b: Byte, c: Byte, d: Byte)
    ensures b >= 0xA0 ==> !IsChar([0xED, b, c])
    ensures b < 0xA0 ==> !IsChar([0xE0, b, c])
    ensures b < 0x90 ==> !IsChar([0xF0, b, c, d])
    ensures b >= 0x90 ==> !IsChar([0xF4, b, c, d])
    ensures !IsChar([0xC0, b]) && !IsChar([0xC1, b]) && !IsChar([0xF5, b, c, d]) && !IsChar([0xFF])
  {
  }

  // A limit of 0 or less is none, and a text within its limit stays.
  lemma TruncateKeeps(s: Bytes, maxBytes: int)
    ensures maxBytes <= 0 || |s| <= maxBytes ==> Truncate(s, maxBytes) == s
  {
  }
}
