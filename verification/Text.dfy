// The string operations of Go's standard library that the modelled code calls.
module Text {
  import opened Wrappers

  // unicode.IsSpace
  predicate IsSpace(c: char) {
    || '\U{9}' <= c <= '\U{D}' || c == ' ' || c == '\U{85}' || c == '\U{A0}'
    || c == '\U{1680}' || '\U{2000}' <= c <= '\U{200A}' || c == '\U{2028}' || c == '\U{2029}'
    || c == '\U{202F}' || c == '\U{205F}' || c == '\U{3000}'
  }

  // strings.TrimSpace
  function TrimSpace(s: string): string
    decreases |s|
  {
    if s == [] then s
    else if IsSpace(s[0]) then TrimSpace(s[1..])
    else if IsSpace(s[|s| - 1]) then TrimSpace(s[..|s| - 1])
    else s
  }

  // strings.TrimSpace(s) == ""
  predicate IsBlank(s: string) { TrimSpace(s) == [] }

  lemma {:induction false} BlankIffAllSpace(s: string)
    ensures IsBlank(s) <==> forall i :: 0 <= i < |s| ==> IsSpace(s[i])
    decreases |s|
  {
    if s == [] {
    } else if IsSpace(s[0]) {
      BlankIffAllSpace(s[1..]);
      assert forall i :: 1 <= i < |s| ==> s[i] == s[1..][i - 1];
    } else if IsSpace(s[|s| - 1]) {
      BlankIffAllSpace(s[..|s| - 1]);
    }
  }

  // The white space of ASCII: tab, newline, vertical tab, form feed, return and blank.
  lemma AsciiSpace(c: char)
    requires c < '\U{80}'
    ensures IsSpace(c) <==> c == ' ' || 9 <= c as int <= 13
  {
  }

  // Trimming takes off the white space at both ends, and no more.
  lemma {:induction false} TrimSpaceIs(s: string) returns (a: string, b: string)
    ensures s == a + TrimSpace(s) + b
    ensures (forall i :: 0 <= i < |a| ==> IsSpace(a[i])) && (forall i :: 0 <= i < |b| ==> IsSpace(b[i]))
    ensures var t := TrimSpace(s); t != [] ==> !IsSpace(t[0]) && !IsSpace(t[|t| - 1])
    decreases |s|
  {
    if s == [] {
      a, b := [], [];
    } else if IsSpace(s[0]) {
      a, b := TrimSpaceIs(s[1..]);
      a := [s[0]] + a;
      assert s == [s[0]] + s[1..];
    } else if IsSpace(s[|s| - 1]) {
      a, b := TrimSpaceIs(s[..|s| - 1]);
      b := b + [s[|s| - 1]];
      assert s == s[..|s| - 1] + [s[|s| - 1]];
    } else {
      a, b := [], [];
    }
  }

  // strings.IndexByte; None when the byte does not occur.
  function IndexOf(s: string, c: char): (k: Option<nat>)
    ensures k.None? <==> c !in s
    ensures k.Some? ==> k.value < |s| && s[k.value] == c && c !in s[..k.value]
  {
    if s == [] then None
    else if s[0] == c then Some(0)
    else
      match IndexOf(s[1..], c)
      case None => None
      case Some(k) =>
        assert s[..k + 1] == [s[0]] + s[1..][..k];
        Some(k + 1)
  }

  // strings.Split for a one-character separator.
  function Split(s: string, sep: char): (parts: seq<string>)
    ensures parts != []
    decreases |s|
  {
    match IndexOf(s, sep)
    case None => [s]
    case Some(k) => [s[..k]] + Split(s[k + 1..], sep)
  }

  function Join(parts: seq<string>, sep: char): string {
    if parts == [] then []
    else if |parts| == 1 then parts[0]
    else parts[0] + [sep] + Join(parts[1..], sep)
  }

  lemma {:induction false} IndexAfter(head: string, c: char, rest: string)
    requires c !in head
    ensures IndexOf(head + [c] + rest, c) == Some(|head|)
  {
    if head != [] {
      assert (head + [c] + rest)[1..] == head[1..] + [c] + rest;
      IndexAfter(head[1..], c, rest);
    }
  }

  // Splitting undoes joining when no part contains the separator.
  lemma {:induction false} SplitJoin(parts: seq<string>, sep: char)
    requires parts != [] && forall i :: 0 <= i < |parts| ==> sep !in parts[i]
    ensures Split(Join(parts, sep), sep) == parts
  {
    if |parts| > 1 {
      var rest := Join(parts[1..], sep);
      var s := parts[0] + [sep] + rest;
      IndexAfter(parts[0], sep, rest);
      assert s[..|parts[0]|] == parts[0] && s[|parts[0]| + 1..] == rest;
      SplitJoin(parts[1..], sep);
    }
  }

  // Joining undoes splitting, always.
  lemma {:induction false} JoinSplit(s: string, sep: char)
    ensures Join(Split(s, sep), sep) == s
    ensures forall i :: 0 <= i < |Split(s, sep)| ==> sep !in Split(s, sep)[i]
    decreases |s|
  {
    var k := IndexOf(s, sep);
    if k.Some? {
      JoinSplit(s[k.value + 1..], sep);
      assert s == s[..k.value] + [sep] + s[k.value + 1..];
    }
  }

  // strings.Contains
  predicate Contains(s: string, sub: string) {
    exists k :: 0 <= k <= |s| && OccursAt(s, sub, k)
  }

  predicate OccursAt(s: string, sub: string, k: int)
    requires 0 <= k <= |s|
  {
    k + |sub| <= |s| && s[k..k + |sub|] == sub
  }

  lemma ContainsIff(s: string, sub: string)
    ensures Contains(s, sub) <==> exists a, b :: s == a + sub + b
  {
    if Contains(s, sub) {
      var k :| 0 <= k <= |s| && OccursAt(s, sub, k);
      assert s == s[..k] + sub + s[k + |sub|..];
    }
    if a, b :| s == a + sub + b {
      assert s[|a|..|a| + |sub|] == sub;
      assert OccursAt(s, sub, |a|);
    }
  }

  // strings.ToLower for comparison with ASCII text: beyond the letters A to Z, only
  // the Kelvin sign and the dotted capital I have an ASCII lower case.
  function ToLower(s: string): (r: string)
    ensures |r| == |s|
  {
    seq(|s|, i requires 0 <= i < |s| => LowerChar(s[i]))
  }

  function LowerChar(c: char): char {
    if 'A' <= c <= 'Z' then (c as int + 32) as char
    else if c == '\U{212A}' then 'k'
    else if c == '\U{130}' then 'i'
    else c
  }

  // Of other characters just the Kelvin sign and the dotted capital I become ASCII.
  lemma LowerOther(c: char)
    requires c >= '\U{80}'
    ensures LowerChar(c) < '\U{80}' <==> c as int == 0x212A || c as int == 0x130
    ensures c as int == 0x212A ==> LowerChar(c) == 'k'
    ensures c as int == 0x130 ==> LowerChar(c) == 'i'
  {
  }

  // Of ASCII characters just the capital letters change, to the small ones.
  lemma LowerAscii(c: char)
    requires c < '\U{80}'
    ensures LowerChar(c) == if 'A' <= c <= 'Z' then (c as int - 'A' as int + 'a' as int) as char else c
  {
  }
}
