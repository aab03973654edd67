// Decimal numerals: fmt's %d on a non-negative number and strconv's reading of one.
module Decimal {
  import opened Wrappers

  predicate IsDigit(c: char) { '0' <= c <= '9' }

  function DigitValue(c: char): nat
    requires IsDigit(c)
  {
    c as int - '0' as int
  }

  function DigitChar(d: nat): (c: char)
    requires d < 10
    ensures IsDigit(c) && DigitValue(c) == d
  {
    (d + '0' as int) as char
  }

  // %d
  function Print(n: nat): string {
    if n < 10 then [DigitChar(n)] else Print(n / 10) + [DigitChar(n % 10)]
  }

  predicate AllDigits(s: string) { forall i :: 0 <= i < |s| ==> IsDigit(s[i]) }

  // The number a run of digits denotes.
  function Value(s: string): nat
    requires AllDigits(s)
  {
    if s == [] then 0 else 10 * Value(s[..|s| - 1]) + DigitValue(s[|s| - 1])
  }

  // strconv.ParseUint(s, 10, bits) for the bound limit == 2^bits - 1: no sign, no
  // space, no underscore, not empty and in range.
  function ParseUint(s: string, limit: nat): Option<nat> {
    if s == [] || !AllDigits(s) || Value(s) > limit then None else Some(Value(s))
  }

  lemma {:induction false} PrintIsNumeral(n: nat)
    ensures Print(n) != [] && AllDigits(Print(n)) && Value(Print(n)) == n
  {
    if n >= 10 {
      PrintIsNumeral(n / 10);
      assert Print(n)[..|Print(n)| - 1] == Print(n / 10);
    } else {
      assert Print(n)[..0] == [];
    }
  }

  lemma ParsePrint(n: nat, limit: nat)
    ensures ParseUint(Print(n), limit) == if n <= limit then Some(n) else None
  {
    PrintIsNumeral(n);
  }

  lemma PrintInjective(m: nat, n: nat)
    requires Print(m) == Print(n)
    ensures m == n
  {
    PrintIsNumeral(m);
    PrintIsNumeral(n);
  }

  const MAX_INT64: nat := 0x7FFF_FFFF_FFFF_FFFF

  // strconv.ParseInt(s, 10, 64)
  function ParseInt64(s: string): Option<int> {
    if s == [] then None
    else if s[0] == '-' then
      var n := ParseUint(s[1..], MAX_INT64 + 1);
      if n.None? then None else Some(0 - n.value)
    else ParseUint(if s[0] == '+' then s[1..] else s, MAX_INT64)
  }

  // Numerals are decimal.
  lemma PrintDigits(n: nat)
    ensures n < 10 ==> Print(n) == [('0' as int + n) as char]
    ensures n >= 10 ==> Print(n) == Print(n / 10) + Print(n % 10)
  {
  }

  lemma ParseSigned(n: nat)
    requires n <= 0x7FFF_FFFF_FFFF_FFFF
    ensures ParseInt64(Print(n)) == Some(n) && ParseInt64(['+'] + Print(n)) == Some(n)
    ensures ParseInt64(['-'] + Print(n)) == Some(0 - n)
  {
    PrintIsNumeral(n);
    ParsePrint(n, MAX_INT64);
    ParsePrint(n, MAX_INT64 + 1);
    assert Print(n)[0] != '-' && Print(n)[0] != '+' by {
      assert IsDigit(Print(n)[0]);
    }
    assert (['+'] + Print(n))[1..] == Print(n) && (['-'] + Print(n))[1..] == Print(n);
  }

  // Numbers out of the 64 bits of an integer are refused.
  lemma ParseOutOfRange(n: nat)
    ensures n > 0x7FFF_FFFF_FFFF_FFFF ==> ParseInt64(Print(n)).None?
    ensures n > 0x8000_0000_0000_0000 ==> ParseInt64(['-'] + Print(n)).None?
  {
    PrintIsNumeral(n);
    ParsePrint(n, MAX_INT64);
    ParsePrint(n, MAX_INT64 + 1);
    assert Print(n)[0] != '-' && Print(n)[0] != '+' by {
      assert IsDigit(Print(n)[0]);
    }
    assert (['-'] + Print(n))[1..] == Print(n);
  }
}
