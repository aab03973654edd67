// internal/auth/passwords.go: argon2id password hashes in PHC form, printed,
// parsed and verified.
module Passwords {
  import opened ByteStrings
  import opened Wrappers
  import Base64
  import Decimal
  import Text

  const TWO32: nat := 0x1_0000_0000
  type U32 = n: int | 0 <= n < 0x1_0000_0000

  const ARGON2_VERSION: nat := 19

  datatype Argon2Params = Argon2Params(timeCost: U32, memoryKiB: U32, parallelism: Byte, saltLen: U32, keyLen: U32)

  datatype HashError = EmptyPassword | NoEntropy | Panic

  // What the process has at hand: the derived key for password, salt, time, memory,
  // lanes and length; random bytes of a length, unless the source fails; the number
  // of CPUs; and bcrypt's verdict.
  datatype Host = Host(
    idKey: (string, Bytes, U32, U32, Byte, U32) -> Bytes,
    random: U32 -> Option<Bytes>,
    cpus: nat,
    bcrypt: (string, string) -> Verdict)

  datatype Verdict = Match | InvalidCredentials | MalformedHash | Panicked

  // argon2 and the random source return as many bytes as they are asked for.
  ghost predicate Sound(h: Host) {
    && (forall pw, salt, t, m, p, n :: |h.idKey(pw, salt, t, m, p, n)| == n)
    && (forall n :: h.random(n).Some? ==> |h.random(n).value| == n)
  }

  // ------------------------------------------------------------------
  // Parameters
  // ------------------------------------------------------------------

  // DefaultArgon2Params, with its conversion of the CPU count to eight bits.
  function DefaultParams(cpus: nat): Argon2Params {
    Argon2Params(3, 64 * 1024, if cpus > 0 && cpus % 256 < 2 then cpus % 256 else 2, 16, 32)
  }

  function OrDefault(n: int, d: int): int { if n > 0 then n else d }

  function Effective(params: Option<Argon2Params>, cpus: nat): Argon2Params {
    var d := DefaultParams(cpus);
    if params.None? then d
    else
      var p := params.value;
      Argon2Params(OrDefault(p.timeCost, d.timeCost), OrDefault(p.memoryKiB, d.memoryKiB),
                   OrDefault(p.parallelism, d.parallelism), OrDefault(p.saltLen, d.saltLen),
                   OrDefault(p.keyLen, d.keyLen))
  }

  // ------------------------------------------------------------------
  // Printing
  // ------------------------------------------------------------------

  function Cost(key: char, n: nat): string { [key] + ['='] + Decimal.Print(n) }

  function Costs(memory: nat, time: nat, lanes: nat): seq<string> {
    [Cost('m', memory), Cost('t', time), Cost('p', lanes)]
  }

  function Parts(memory: nat, time: nat, lanes: nat, salt: Bytes, key: Bytes): seq<string> {
    ["", "argon2id", "v=" + Decimal.Print(ARGON2_VERSION), Text.Join(Costs(memory, time, lanes), ','),
     Base64.Encode(Base64.Std, salt), Base64.Encode(Base64.Std, key)]
  }

  // $argon2id$v=19$m=..,t=..,p=..$<salt>$<key>
  function Format(memory: nat, time: nat, lanes: nat, salt: Bytes, key: Bytes): string {
    Text.Join(Parts(memory, time, lanes, salt, key), '$')
  }

  // HashPassword
  method HashPassword(plaintext: string, params: Option<Argon2Params>, h: Host) returns (r: Result<string, HashError>)
    requires Sound(h)
    ensures r == Hash(plaintext, params, h)
  {
    if plaintext == [] {
      return Err(EmptyPassword);
    }
    var p := DefaultParams(h.cpus);
    if params.Some? {
      if params.value.timeCost > 0 {
        p := p.(timeCost := params.value.timeCost);
      }
      if params.value.memoryKiB > 0 {
        p := p.(memoryKiB := params.value.memoryKiB);
      }
      if params.value.parallelism > 0 {
        p := p.(parallelism := params.value.parallelism);
      }
      if params.value.saltLen > 0 {
        p := p.(saltLen := params.value.saltLen);
      }
      if params.value.keyLen > 0 {
        p := p.(keyLen := params.value.keyLen);
      }
    }
    assert p == Effective(params, h.cpus);
    var salt := h.random(p.saltLen);
    if salt.None? {
      return Err(NoEntropy);
    }
    if p.timeCost < 1 || p.parallelism < 1 {
      return Err(Panic);
    }
    var key := h.idKey(plaintext, salt.value, p.timeCost, p.memoryKiB, p.parallelism, p.keyLen);
    return Ok(Format(p.memoryKiB, p.timeCost, p.parallelism, salt.value, key));
  }

  // HashPassword as a function; argon2 panics without iterations or lanes.
  function Hash(plaintext: string, params: Option<Argon2Params>, h: Host): Result<string, HashError> {
    var p := Effective(params, h.cpus);
    if plaintext == [] then Err(EmptyPassword)
    else if h.random(p.saltLen).None? then Err(NoEntropy)
    else if p.timeCost < 1 || p.parallelism < 1 then Err(Panic)
    else
      var salt := h.random(p.saltLen).value;
      Ok(Format(p.memoryKiB, p.timeCost, p.parallelism, salt,
                h.idKey(plaintext, salt, p.timeCost, p.memoryKiB, p.parallelism, p.keyLen)))
  }

  // ------------------------------------------------------------------
  // Parsing
  // ------------------------------------------------------------------

  // fmt's blanks before a number; a line break is an error.
  function SkipBlanks(s: string): Option<string> {
    if s == [] then Some(s)
    else if s[0] == '\n' || (s[0] == '\r' && |s| > 1 && s[1] == '\n') then None
    else if Text.IsSpace(s[0]) then SkipBlanks(s[1..])
    else Some(s)
  }

  function DigitRun(s: string): nat {
    if s != [] && Decimal.IsDigit(s[0]) then 1 + DigitRun(s[1..]) else 0
  }

  // fmt.Sscanf(s, "v=%d"): what follows the number is not looked at.
  function ScanVersion(s: string): Option<int> {
    if !("v=" <= s) then None
    else
      match SkipBlanks(s[2..])
      case None => None
      case Some(t) =>
        var sign := if t != [] && (t[0] == '+' || t[0] == '-') then 1 else 0;
        var n := DigitRun(t[sign..]);
        if sign + n <= |t| then Decimal.ParseInt64(t[..sign + n]) else None
  }

  datatype CostSet = CostSet(memory: nat, time: nat, lanes: nat)

  // One key=value item on top of what was read before; unknown keys are dropped.
  function ReadCost(kv: string, c: CostSet): Option<CostSet> {
    match Text.IndexOf(kv, '=')
    case None => None
    case Some(eq) =>
      var key := kv[..eq];
      match Decimal.ParseUint(kv[eq + 1..], TWO32 - 1)
      case None => None
      case Some(n) =>
        Some(if key == "m" then c.(memory := n) else if key == "t" then c.(time := n)
             else if key == "p" then c.(lanes := n) else c)
  }

  function ReadCosts(kvs: seq<string>, c: CostSet): Option<CostSet>
    decreases |kvs|
  {
    if kvs == [] then Some(c)
    else
      match ReadCost(kvs[0], c)
      case None => None
      case Some(c') => ReadCosts(kvs[1..], c')
  }

  datatype Parsed = Parsed(params: Argon2Params, salt: Bytes, digest: Bytes)

  // parseArgon2id as a function; None is ErrMalformedHash.
  function Parse(hash: string): Option<Parsed> { ParseParts(Text.Split(hash, '$')) }

  function ParseParts(parts: seq<string>): Option<Parsed> {
    if |parts| != 6 || parts[0] != "" || parts[1] != "argon2id" then None
    else if ScanVersion(parts[2]) != Some(ARGON2_VERSION) then None
    else
      match ReadCosts(Text.Split(parts[3], ','), CostSet(0, 0, 0))
      case None => None
      case Some(c) =>
        match (Base64.Decode(Base64.Std, parts[4]), Base64.Decode(Base64.Std, parts[5]))
        case (Some(salt), Some(digest)) =>
          if c.memory == 0 || c.time == 0 || c.lanes == 0 then None else Some(Narrow(c, salt, digest))
        case _ => None
  }

  // The conversions to the widths of the parameters.
  function Narrow(c: CostSet, salt: Bytes, digest: Bytes): Parsed {
    var p := Argon2Params(c.time % TWO32, c.memory % TWO32, c.lanes % 256, |salt| % TWO32, |digest| % TWO32);
    Parsed(p, salt, digest)
  }

  // parseArgon2id
  method ParseArgon2id(hash: string) returns (r: Option<Parsed>)
    ensures r == Parse(hash)
  {
    var parts := Text.Split(hash, '$');
    if |parts| != 6 || parts[0] != "" || parts[1] != "argon2id" {
      return None;
    }
    var version := ScanVersion(parts[2]);
    if version.None? || version.value != ARGON2_VERSION {
      return None;
    }
    var kvs := Text.Split(parts[3], ',');
    var memory: nat, timeCost: nat, parallelism: nat := 0, 0, 0;
    for i := 0 to |kvs|
      invariant ReadCosts(kvs[i..], CostSet(memory, timeCost, parallelism)) == ReadCosts(kvs, CostSet(0, 0, 0))
    {
      assert kvs[i..][1..] == kvs[i + 1..];
      var kv := kvs[i];
      var eq := Text.IndexOf(kv, '=');
      if eq.None? {
        return None;
      }
      var key := kv[..eq.value];
      var n := Decimal.ParseUint(kv[eq.value + 1..], TWO32 - 1);
      if n.None? {
        return None;
      }
      if key == "m" {
        memory := n.value;
      } else if key == "t" {
        timeCost := n.value;
      } else if key == "p" {
        parallelism := n.value;
      }
    }
    if memory == 0 || timeCost == 0 || parallelism == 0 {
      return None;
    }
    var salt := Base64.Decode(Base64.Std, parts[4]);
    if salt.None? {
      return None;
    }
    var digest := Base64.Decode(Base64.Std, parts[5]);
    if digest.None? {
      return None;
    }
    return Some(Parsed(Argon2Params(timeCost % TWO32, memory % TWO32, parallelism % 256,
                                    |salt.value| % TWO32, |digest.value| % TWO32),
                       salt.value, digest.value));
  }

  // ------------------------------------------------------------------
  // Verifying
  // ------------------------------------------------------------------

  // argon2.IDKey panics without iterations or lanes, and when asked for no bytes at all:
  // blake2b has no digest of that length, and the error that says so is dropped.
  predicate IdKeyPanics(p: Argon2Params, keyLen: nat) {
    p.timeCost < 1 || p.parallelism < 1 || keyLen == 0
  }

  function VerifyArgon2id(hash: string, plaintext: string, h: Host): Verdict {
    match Parse(hash)
    case None => MalformedHash
    case Some(x) => VerifyAgainst(x, plaintext, h)
  }

  function VerifyAgainst(x: Parsed, plaintext: string, h: Host): Verdict {
    var p, keyLen := x.params, |x.digest| % TWO32;
    if IdKeyPanics(p, keyLen) then Panicked
    else if h.idKey(plaintext, x.salt, p.timeCost, p.memoryKiB, p.parallelism, keyLen) == x.digest then Match
    else InvalidCredentials
  }

  const ARGON2_PREFIX := "$argon2id$"

  function VerifyPassword(hash: string, plaintext: string, h: Host): Verdict {
    if ARGON2_PREFIX <= hash then VerifyArgon2id(hash, plaintext, h)
    else if "$2a$" <= hash || "$2b$" <= hash || "$2y$" <= hash then h.bcrypt(hash, plaintext)
    else MalformedHash
  }

  function NeedsRehash(hash: string, cpus: nat): bool {
    if !(ARGON2_PREFIX <= hash) then true
    else
      match Parse(hash)
      case None => true
      case Some(x) => Weaker(x.params, DefaultParams(cpus))
  }

  predicate Weaker(p: Argon2Params, d: Argon2Params) {
    p.timeCost < d.timeCost || p.memoryKiB < d.memoryKiB || p.parallelism < d.parallelism
  }

  // ------------------------------------------------------------------
  // The round trip
  // ------------------------------------------------------------------

  lemma {:induction false} DigitsRun(s: string)
    requires Decimal.AllDigits(s)
    ensures DigitRun(s) == |s|
  {
    if s != [] {
      DigitsRun(s[1..]);
    }
  }

  lemma ScanPrinted(n: nat)
    requires n <= Decimal.MAX_INT64
    ensures ScanVersion("v=" + Decimal.Print(n)) == Some(n)
    ensures '$' !in "v=" + Decimal.Print(n)
  {
    var d := Decimal.Print(n);
    Decimal.PrintIsNumeral(n);
    Decimal.ParsePrint(n, Decimal.MAX_INT64);
    ScanDigits(d, n);
  }

  lemma ScanDigits(d: string, n: nat)
    requires d != [] && Decimal.AllDigits(d) && Decimal.ParseUint(d, Decimal.MAX_INT64) == Some(n)
    ensures ScanVersion("v=" + d) == Some(n)
  {
    var s := "v=" + d;
    assert s[2..] == d && "v=" <= s;
    assert Decimal.IsDigit(d[0]);
    assert SkipBlanks(d) == Some(d);
    DigitsRun(d);
    assert d[0..] == d && d[..|d|] == d;
    assert Decimal.ParseInt64(d) == Some(n);
  }

  lemma CostPlain(key: char, n: nat)
    requires key == 'm' || key == 't' || key == 'p'
    ensures ',' !in Cost(key, n) && '$' !in Cost(key, n)
  {
    Decimal.PrintIsNumeral(n);
  }

  lemma ReadPrinted(key: char, n: nat, c: CostSet)
    requires key == 'm' || key == 't' || key == 'p'
    requires n < TWO32
    ensures ReadCost(Cost(key, n), c) ==
            Some(if key == 'm' then c.(memory := n) else if key == 't' then c.(time := n) else c.(lanes := n))
  {
    var d, kv := Decimal.Print(n), Cost(key, n);
    Text.IndexAfter([key], '=', d);
    Decimal.ParsePrint(n, TWO32 - 1);
    assert kv[..1] == [key] && kv[2..] == d;
  }

  lemma ReadAllPrinted(memory: nat, time: nat, lanes: nat)
    requires memory < TWO32 && time < TWO32 && lanes < TWO32
    ensures ReadCosts(Costs(memory, time, lanes), CostSet(0, 0, 0)) == Some(CostSet(memory, time, lanes))
  {
    var cs := Costs(memory, time, lanes);
    ReadPrinted('m', memory, CostSet(0, 0, 0));
    ReadPrinted('t', time, CostSet(memory, 0, 0));
    ReadPrinted('p', lanes, CostSet(memory, time, 0));
    assert cs[1..] == [cs[1], cs[2]] && [cs[1], cs[2]][1..] == [cs[2]] && [cs[2]][1..] == [];
    assert ReadCosts([cs[2]], CostSet(memory, time, 0)) == Some(CostSet(memory, time, lanes));
    assert ReadCosts([cs[1], cs[2]], CostSet(memory, 0, 0)) == Some(CostSet(memory, time, lanes));
  }

  lemma {:induction false} JoinAvoids(parts: seq<string>, sep: char, c: char)
    requires c != sep && forall i :: 0 <= i < |parts| ==> c !in parts[i]
    ensures c !in Text.Join(parts, sep)
  {
    if |parts| > 1 {
      JoinAvoids(parts[1..], sep, c);
    }
  }

  lemma CostsSplit(memory: nat, time: nat, lanes: nat)
    ensures Text.Split(Text.Join(Costs(memory, time, lanes), ','), ',') == Costs(memory, time, lanes)
    ensures '$' !in Text.Join(Costs(memory, time, lanes), ',')
  {
    CostPlain('m', memory);
    CostPlain('t', time);
    CostPlain('p', lanes);
    Text.SplitJoin(Costs(memory, time, lanes), ',');
    JoinAvoids(Costs(memory, time, lanes), ',', '$');
  }

  lemma FormatSplits(memory: nat, time: nat, lanes: nat, salt: Bytes, key: Bytes)
    ensures Text.Split(Format(memory, time, lanes, salt, key), '$') == Parts(memory, time, lanes, salt, key)
  {
    CostsSplit(memory, time, lanes);
    ScanPrinted(ARGON2_VERSION);
    EncodedPlain(salt);
    EncodedPlain(key);
    NamePlain();
    SplitSix("", "argon2id", "v=" + Decimal.Print(ARGON2_VERSION), Text.Join(Costs(memory, time, lanes), ','),
             Base64.Encode(Base64.Std, salt), Base64.Encode(Base64.Std, key), '$');
  }

  lemma NamePlain()
    ensures '$' !in "argon2id" && '$' !in ""
  {
  }

  lemma SplitSix(a: string, b: string, c: string, d: string, e: string, f: string, sep: char)
    requires sep !in a && sep !in b && sep !in c && sep !in d && sep !in e && sep !in f
    ensures Text.Split(Text.Join([a, b, c, d, e, f], sep), sep) == [a, b, c, d, e, f]
  {
    Text.SplitJoin([a, b, c, d, e, f], sep);
  }

  lemma EncodedPlain(b: Bytes)
    ensures '$' !in Base64.Encode(Base64.Std, b)
  {
    Base64.EncodeInAlphabet(Base64.Std, b);
  }

  // A conversion changes nothing that fits.
  lemma Fits(n: nat, size: nat)
    requires n < size
    ensures n % size == n
  {
  }

  lemma NarrowFits(c: CostSet, salt: Bytes, key: Bytes)
    requires c.memory < TWO32 && c.time < TWO32 && |salt| < TWO32 && |key| < TWO32
    ensures Narrow(c, salt, key) == Parsed(Argon2Params(c.time, c.memory, c.lanes % 256, |salt|, |key|), salt, key)
  {
    Fits(c.memory, TWO32);
    Fits(c.time, TWO32);
    Fits(|salt|, TWO32);
    Fits(|key|, TWO32);
  }

  lemma PartsParse(parts: seq<string>, c: CostSet, salt: Bytes, key: Bytes)
    requires |parts| == 6 && parts[0] == "" && parts[1] == "argon2id" && ScanVersion(parts[2]) == Some(ARGON2_VERSION)
    requires ReadCosts(Text.Split(parts[3], ','), CostSet(0, 0, 0)) == Some(c)
    requires c.memory > 0 && c.time > 0 && c.lanes > 0
    requires Base64.Decode(Base64.Std, parts[4]) == Some(salt) && Base64.Decode(Base64.Std, parts[5]) == Some(key)
    ensures ParseParts(parts) == Some(Narrow(c, salt, key))
  {
  }

  // Parsing a printed hash gives back its costs, salt and digest; only the number of
  // lanes is cut to eight bits, so that 256 of them read as none.
  lemma PhcRoundTrip(memory: nat, time: nat, lanes: nat, salt: Bytes, key: Bytes)
    requires 0 < memory < TWO32 && 0 < time < TWO32 && 0 < lanes < TWO32
    requires |salt| < TWO32 && |key| < TWO32
    ensures Parse(Format(memory, time, lanes, salt, key)) ==
            Some(Parsed(Argon2Params(time, memory, lanes % 256, |salt|, |key|), salt, key))
  {
    var parts := Parts(memory, time, lanes, salt, key);
    var c := CostSet(memory, time, lanes);
    FormatSplits(memory, time, lanes, salt, key);
    CostsSplit(memory, time, lanes);
    ReadAllPrinted(memory, time, lanes);
    ScanPrinted(ARGON2_VERSION);
    Base64.EncodeDecode(Base64.Std, salt);
    Base64.EncodeDecode(Base64.Std, key);
    PartsParse(parts, c, salt, key);
    NarrowFits(c, salt, key);
  }

  lemma FormatHasPrefix(memory: nat, time: nat, lanes: nat, salt: Bytes, key: Bytes)
    ensures ARGON2_PREFIX <= Format(memory, time, lanes, salt, key)
  {
    var parts := Parts(memory, time, lanes, salt, key);
    assert Text.Join(parts[1..], '$') == parts[1] + ['$'] + Text.Join(parts[1..][1..], '$');
    assert Text.Join(parts, '$') == parts[0] + ['$'] + Text.Join(parts[1..], '$');
    assert ARGON2_PREFIX == ['$'] + "argon2id" + ['$'];
  }

  // What verification says of a hash that parses.
  lemma VerifiesParsed(hash: string, x: Parsed, plaintext: string, h: Host)
    requires ARGON2_PREFIX <= hash && Parse(hash) == Some(x)
    ensures VerifyPassword(hash, plaintext, h) == VerifyAgainst(x, plaintext, h)
    ensures forall cpus :: NeedsRehash(hash, cpus) == Weaker(x.params, DefaultParams(cpus))
  {
  }

  // A freshly made hash reads back as what it was made with.
  lemma HashParses(plaintext: string, params: Option<Argon2Params>, h: Host) returns (x: Parsed)
    requires Sound(h) && Hash(plaintext, params, h).Ok?
    ensures ARGON2_PREFIX <= Hash(plaintext, params, h).value
    ensures Parse(Hash(plaintext, params, h).value) == Some(x)
    ensures var p := Effective(params, h.cpus);
            && x.params == p && h.random(p.saltLen) == Some(x.salt)
            && x.digest == h.idKey(plaintext, x.salt, p.timeCost, p.memoryKiB, p.parallelism, p.keyLen)
  {
    var p := Effective(params, h.cpus);
    var salt := h.random(p.saltLen).value;
    var key := h.idKey(plaintext, salt, p.timeCost, p.memoryKiB, p.parallelism, p.keyLen);
    FormatHasPrefix(p.memoryKiB, p.timeCost, p.parallelism, salt, key);
    PhcRoundTrip(p.memoryKiB, p.timeCost, p.parallelism, salt, key);
    Fits(p.parallelism, 256);
    assert Argon2Params(p.timeCost, p.memoryKiB, p.parallelism, |salt|, |key|) == p;
    x := Parsed(p, salt, key);
  }

  // A hash verifies the password it was made from, and another password exactly if
  // that derives the same key.
  lemma HashVerifies(plaintext: string, other: string, params: Option<Argon2Params>, h: Host)
    requires Sound(h) && Hash(plaintext, params, h).Ok?
    ensures var hash, p := Hash(plaintext, params, h).value, Effective(params, h.cpus);
            var salt := h.random(p.saltLen).value;
            var derive := (pw: string) => h.idKey(pw, salt, p.timeCost, p.memoryKiB, p.parallelism, p.keyLen);
            && VerifyPassword(hash, plaintext, h) == Match
            && VerifyPassword(hash, other, h) ==
               if derive(other) == derive(plaintext) then Match else InvalidCredentials
  {
    var x := HashParses(plaintext, params, h);
    var hash := Hash(plaintext, params, h).value;
    VerifiesParsed(hash, x, plaintext, h);
    VerifiesParsed(hash, x, other, h);
  }

  // A fresh hash needs a rehash exactly if it was made with a cost below the default.
  lemma RehashIffWeaker(plaintext: string, params: Option<Argon2Params>, h: Host)
    requires Sound(h) && Hash(plaintext, params, h).Ok?
    ensures NeedsRehash(Hash(plaintext, params, h).value, h.cpus) <==>
            Weaker(Effective(params, h.cpus), DefaultParams(h.cpus))
    ensures params.None? ==> !NeedsRehash(Hash(plaintext, params, h).value, h.cpus)
  {
    var x := HashParses(plaintext, params, h);
    VerifiesParsed(Hash(plaintext, params, h).value, x, plaintext, h);
  }

  // With the defaults hashing works for every non-empty password, except on a
  // machine whose CPU count is a positive multiple of 256: its low eight bits are
  // taken for the number of lanes, and argon2 panics.
  lemma DefaultsWork(plaintext: string, h: Host)
    requires plaintext != [] && h.random(16).Some?
    ensures Hash(plaintext, None, h).Ok? <==> h.cpus == 0 || h.cpus % 256 != 0
    ensures !Hash(plaintext, None, h).Ok? ==> Hash(plaintext, None, h) == Err(Panic)
  {
  }

  // ------------------------------------------------------------------
  // Panics
  // ------------------------------------------------------------------

  lemma {:induction false} CostsFit(kvs: seq<string>, c: CostSet)
    requires c.memory < TWO32 && c.time < TWO32 && c.lanes < TWO32
    ensures var r := ReadCosts(kvs, c); r.Some? ==>
            r.value.memory < TWO32 && r.value.time < TWO32 && r.value.lanes < TWO32
    decreases |kvs|
  {
    if kvs != [] && ReadCost(kvs[0], c).Some? {
      CostsFit(kvs[1..], ReadCost(kvs[0], c).value);
    }
  }

  // What parses has iterations; only lanes and digest can be missing.
  lemma ParsedHasTime(hash: string)
    ensures Parse(hash).Some? ==> Parse(hash).value.params.timeCost >= 1
  {
    var parts := Text.Split(hash, '$');
    if Parse(hash).Some? {
      var c := ReadCosts(Text.Split(parts[3], ','), CostSet(0, 0, 0)).value;
      CostsFit(Text.Split(parts[3], ','), CostSet(0, 0, 0));
      Fits(c.time, TWO32);
      assert Parse(hash).value.params.timeCost == c.time % TWO32;
    }
  }

  // Verifying against any text marked as argon2id panics exactly if the text parses to
  // no lanes in eight bits or to an empty digest, whatever the password.
  lemma PanicsIff(hash: string, plaintext: string, h: Host)
    requires ARGON2_PREFIX <= hash
    ensures VerifyPassword(hash, plaintext, h) == Panicked <==>
            && Parse(hash).Some?
            && (Parse(hash).value.params.parallelism == 0 || |Parse(hash).value.digest| % TWO32 == 0)
  {
    ParsedHasTime(hash);
  }

  // The same of a row with its fields: of all printed hashes exactly those with a multiple
  // of 256 lanes or an empty digest pass the parser's checks and then panic.
  lemma RowPanicsIff(memory: nat, time: nat, lanes: nat, salt: Bytes, key: Bytes, plaintext: string, h: Host)
    requires 0 < memory < TWO32 && 0 < time < TWO32 && 0 < lanes < TWO32
    requires |salt| < TWO32 && |key| < TWO32
    ensures VerifyPassword(Format(memory, time, lanes, salt, key), plaintext, h) == Panicked <==>
            lanes % 256 == 0 || key == []
  {
    var x := Parsed(Argon2Params(time, memory, lanes % 256, |salt|, |key|), salt, key);
    FormatHasPrefix(memory, time, lanes, salt, key);
    PhcRoundTrip(memory, time, lanes, salt, key);
    VerifiesParsed(Format(memory, time, lanes, salt, key), x, plaintext, h);
    Fits(|key|, TWO32);
  }

  // ------------------------------------------------------------------
  // In figures and letters
  // ------------------------------------------------------------------

  // The defaults: three passes over 64 MiB, two lanes or the one the machine has, 16
  // bytes of salt and 32 of key.
  lemma DefaultsAre(cpus: nat)
    ensures var p := DefaultParams(cpus);
            && p.timeCost == 3 && p.memoryKiB == 65536 && p.saltLen == 16 && p.keyLen == 32
            && (cpus == 1 ==> p.parallelism == 1) && (2 <= cpus < 256 ==> p.parallelism == 2)
            && (cpus > 0 && cpus % 256 == 0 ==> p.parallelism == 0)
            && (cpus > 0 && cpus % 256 == 1 ==> p.parallelism == 1)
            && (cpus == 0 || cpus % 256 >= 2 ==> p.parallelism == 2)
  {
    if 2 <= cpus < 256 {
      Fits(cpus, 256);
    }
  }

  // Parameters left at zero take the default, one by one.
  lemma EffectiveIs(q: Argon2Params, cpus: nat)
    ensures Effective(None, cpus) == DefaultParams(cpus)
    ensures var p, d := Effective(Some(q), cpus), DefaultParams(cpus);
            && (if q.timeCost > 0 then p.timeCost == q.timeCost else p.timeCost == d.timeCost)
            && (if q.memoryKiB > 0 then p.memoryKiB == q.memoryKiB else p.memoryKiB == d.memoryKiB)
            && (if q.parallelism > 0 then p.parallelism == q.parallelism else p.parallelism == d.parallelism)
            && (if q.saltLen > 0 then p.saltLen == q.saltLen else p.saltLen == d.saltLen)
            && (if q.keyLen > 0 then p.keyLen == q.keyLen else p.keyLen == d.keyLen)
  {
  }

  // The printed form, letter by letter.
  lemma FormatIs(memory: nat, time: nat, lanes: nat, salt: Bytes, key: Bytes)
    ensures Format(memory, time, lanes, salt, key) ==
            "$argon2id$v=" + Decimal.Print(19) + "$" + CostText(memory, time, lanes) + "$"
            + Base64.Encode(Base64.Std, salt) + "$" + Base64.Encode(Base64.Std, key)
  {
    CostsAre(memory, time, lanes);
    var parts := Parts(memory, time, lanes, salt, key);
    JoinSix(parts[0], parts[1], parts[2], parts[3], parts[4], parts[5], '$');
  }

  // m=..,t=..,p=..
  function CostText(memory: nat, time: nat, lanes: nat): string {
    "m=" + Decimal.Print(memory) + ",t=" + Decimal.Print(time) + ",p=" + Decimal.Print(lanes)
  }

  lemma CostsAre(memory: nat, time: nat, lanes: nat)
    ensures Text.Join(Costs(memory, time, lanes), ',') == CostText(memory, time, lanes)
  {
    var cs := Costs(memory, time, lanes);
    assert cs[1..] == [cs[1], cs[2]] && [cs[1], cs[2]][1..] == [cs[2]];
    assert Text.Join([cs[2]], ',') == cs[2];
    assert Text.Join([cs[1], cs[2]], ',') == cs[1] + [','] + cs[2];
    assert cs[0] + [','] + (cs[1] + [','] + cs[2]) == CostText(memory, time, lanes);
  }

  lemma JoinSix(a: string, b: string, c: string, d: string, e: string, f: string, sep: char)
    ensures Text.Join([a, b, c, d, e, f], sep) ==
            a + [sep] + b + [sep] + c + [sep] + d + [sep] + e + [sep] + f
  {
    assert [e, f][1..] == [f] && [d, e, f][1..] == [e, f] && [c, d, e, f][1..] == [d, e, f];
    assert [b, c, d, e, f][1..] == [c, d, e, f] && [a, b, c, d, e, f][1..] == [b, c, d, e, f];
    assert Text.Join([f], sep) == f;
    assert Text.Join([e, f], sep) == e + [sep] + f;
    assert Text.Join([d, e, f], sep) == d + [sep] + e + [sep] + f;
    assert Text.Join([c, d, e, f], sep) == c + [sep] + d + [sep] + e + [sep] + f;
    assert Text.Join([b, c, d, e, f], sep) == b + [sep] + c + [sep] + d + [sep] + e + [sep] + f;
  }

  // The version must be 19; what follows the number is not looked at, and a hash of
  // another version is malformed.
  lemma VersionIs19(s: string, n: nat, rest: string)
    requires s == "v=" + Decimal.Print(n) + rest && (rest == [] || !Decimal.IsDigit(rest[0]))
    requires n <= Decimal.MAX_INT64
    ensures ScanVersion(s) == Some(n)
  {
    var d := Decimal.Print(n);
    Decimal.PrintIsNumeral(n);
    Decimal.ParsePrint(n, Decimal.MAX_INT64);
    assert s[2..] == d + rest && Decimal.IsDigit((d + rest)[0]);
    assert SkipBlanks(d + rest) == Some(d + rest);
    RunBefore(d, rest);
    assert (d + rest)[0..] == d + rest && (d + rest)[..|d|] == d;
    assert Decimal.ParseInt64(d) == Some(n);
  }

  // Blanks before the number do not matter.
  lemma BlanksSkipped(blanks: string, t: string)
    requires forall i :: 0 <= i < |blanks| ==> blanks[i] == ' ' || blanks[i] == '\t'
    ensures ScanVersion("v=" + (blanks + t)) == ScanVersion("v=" + t)
  {
    SkipThem(blanks, t);
    assert ("v=" + (blanks + t))[2..] == blanks + t && ("v=" + t)[2..] == t;
  }

  // A line break there does, but a return without a newline is a blank.
  lemma BreakFails(t: string)
    ensures ScanVersion("v=" + ("\n" + t)) == None && ScanVersion("v=" + ("\r\n" + t)) == None
  {
    assert ("v=" + ("\n" + t))[2..] == "\n" + t && ("v=" + ("\r\n" + t))[2..] == "\r\n" + t;
  }

  lemma ReturnSkipped(t: string)
    requires t == [] || t[0] != '\n'
    ensures ScanVersion("v=" + ("\r" + t)) == ScanVersion("v=" + t)
  {
    assert ("v=" + ("\r" + t))[2..] == "\r" + t && ("v=" + t)[2..] == t && ("\r" + t)[1..] == t;
  }

  // A sign may stand before it.
  lemma SignedVersion(n: nat)
    requires n <= Decimal.MAX_INT64
    ensures ScanVersion("v=" + ("+" + Decimal.Print(n))) == Some(n)
    ensures ScanVersion("v=" + ("-" + Decimal.Print(n))) == Some(0 - n)
  {
    var d := Decimal.Print(n);
    Decimal.PrintIsNumeral(n);
    Decimal.ParseSigned(n);
    ScanNumber("v=" + ("+" + d), "+" + d, d, "+");
    ScanNumber("v=" + ("-" + d), "-" + d, d, "-");
  }

  lemma ScanNumber(s: string, t: string, d: string, sign: string)
    requires "v=" <= s && s[2..] == t && SkipBlanks(t) == Some(sign + d)
    requires d != [] && Decimal.AllDigits(d) && (sign == "" || sign == "+" || sign == "-")
    ensures ScanVersion(s) == Decimal.ParseInt64(sign + d)
  {
    RunBefore(d, "");
    assert d + "" == d && (sign + d)[|sign|..] == d && (sign + d)[..|sign| + |d|] == sign + d;
    assert sign == "" ==> sign + d == d;
  }

  lemma {:induction false} SkipThem(blanks: string, t: string)
    requires forall i :: 0 <= i < |blanks| ==> blanks[i] == ' ' || blanks[i] == '\t'
    ensures SkipBlanks(blanks + t) == SkipBlanks(t)
  {
    if blanks == [] {
      assert blanks + t == t;
    } else {
      assert (blanks + t)[1..] == blanks[1..] + t;
      SkipThem(blanks[1..], t);
    }
  }

  lemma {:induction false} RunBefore(d: string, rest: string)
    requires Decimal.AllDigits(d) && (rest == [] || !Decimal.IsDigit(rest[0]))
    ensures DigitRun(d + rest) == |d|
    decreases |d|
  {
    if d != [] {
      assert (d + rest)[1..] == d[1..] + rest;
      RunBefore(d[1..], rest);
    } else {
      assert d + rest == rest;
    }
  }

  // Which algorithm a stored text is checked with: argon2id, bcrypt, or none.
  lemma DispatchIs(hash: string, plaintext: string, h: Host, cpus: nat)
    ensures "$argon2id$" <= hash && Parse(hash).None? ==> VerifyPassword(hash, plaintext, h) == MalformedHash
    ensures "$2a$" <= hash || "$2b$" <= hash || "$2y$" <= hash ==>
              VerifyPassword(hash, plaintext, h) == h.bcrypt(hash, plaintext)
    ensures !("$argon2id$" <= hash) && !("$2a$" <= hash) && !("$2b$" <= hash) && !("$2y$" <= hash) ==>
              VerifyPassword(hash, plaintext, h) == MalformedHash
    ensures !("$argon2id$" <= hash) || Parse(hash).None? ==> NeedsRehash(hash, cpus)
  {
    if "$2a$" <= hash || "$2b$" <= hash || "$2y$" <= hash {
      assert hash[1] == '2';
      assert !("$argon2id$" <= hash);
    }
  }

  // A parsed hash needs a rehash exactly if it has fewer than three passes, less than
  // 64 MiB, or fewer lanes than a new one would have.
  lemma RehashIs(hash: string, x: Parsed, cpus: nat)
    requires "$argon2id$" <= hash && Parse(hash) == Some(x)
    ensures NeedsRehash(hash, cpus) <==>
            || x.params.timeCost < 3 || x.params.memoryKiB < 65536
            || x.params.parallelism < DefaultParams(cpus).parallelism
  {
  }

  // Items of the costs: of several with one key the last counts, unknown keys do not, and
  // one without '=' or with another value than a 32-bit numeral makes the hash malformed.
  lemma CostItems(key: string, value: string, c: CostSet)
    requires '=' !in key
    ensures var r := ReadCost(key + ['='] + value, c);
            match Decimal.ParseUint(value, 0xFFFF_FFFF)
            case None => r.None?
            case Some(n) =>
              && r.Some?
              && (key == "m" ==> r.value == CostSet(n, c.time, c.lanes))
              && (key == "t" ==> r.value == CostSet(c.memory, n, c.lanes))
              && (key == "p" ==> r.value == CostSet(c.memory, c.time, n))
              && (key != "m" && key != "t" && key != "p" ==> r.value == c)
  {
    var kv := key + ['='] + value;
    Text.IndexAfter(key, '=', value);
    assert kv[..|key|] == key && kv[|key| + 1..] == value;
  }

  lemma NoItem(kv: string, c: CostSet)
    requires '=' !in kv
    ensures ReadCost(kv, c).None?
  {
  }

  // What is malformed, part by part.
  lemma MalformedIff(a: string, b: string, v: string, costs: string, salt: string, key: string)
    requires '$' !in a && '$' !in b && '$' !in v && '$' !in costs && '$' !in salt && '$' !in key
    ensures Parse(Text.Join([a, b, v, costs, salt, key], '$')).Some? <==>
            && a == "" && b == "argon2id" && ScanVersion(v) == Some(19)
            && ReadCosts(Text.Split(costs, ','), CostSet(0, 0, 0)).Some?
            && var c := ReadCosts(Text.Split(costs, ','), CostSet(0, 0, 0)).value;
               && c.memory != 0 && c.time != 0 && c.lanes != 0
               && Base64.Decode(Base64.Std, salt).Some? && Base64.Decode(Base64.Std, key).Some?
  {
    SplitSix(a, b, v, costs, salt, key, '$');
    PartsSome([a, b, v, costs, salt, key]);
  }

  lemma PartsSome(parts: seq<string>)
    requires |parts| == 6
    ensures ParseParts(parts).Some? <==>
            && parts[0] == "" && parts[1] == "argon2id" && ScanVersion(parts[2]) == Some(19)
            && ReadCosts(Text.Split(parts[3], ','), CostSet(0, 0, 0)).Some?
            && var c := ReadCosts(Text.Split(parts[3], ','), CostSet(0, 0, 0)).value;
               && c.memory != 0 && c.time != 0 && c.lanes != 0
               && Base64.Decode(Base64.Std, parts[4]).Some? && Base64.Decode(Base64.Std, parts[5]).Some?
  {
  }

  // With another number of parts than six a text is malformed.
  lemma SixParts(hash: string)
    ensures |Text.Split(hash, '$')| != 6 ==> Parse(hash).None?
  {
  }

  // Hashing fails for an empty password and a failed draw, and panics without iterations
  // or lanes, in this order.
  lemma HashErrors(plaintext: string, params: Option<Argon2Params>, h: Host)
    ensures plaintext == "" ==> Hash(plaintext, params, h) == Err(EmptyPassword)
    ensures plaintext != "" && h.random(Effective(params, h.cpus).saltLen).None? ==>
              Hash(plaintext, params, h) == Err(NoEntropy)
    ensures var p := Effective(params, h.cpus);
            plaintext != "" && h.random(p.saltLen).Some? ==>
              && (Hash(plaintext, params, h) == Err(Panic) <==> p.timeCost == 0 || p.parallelism == 0)
              && (Hash(plaintext, params, h).Ok? <==> p.timeCost != 0 && p.parallelism != 0)
  {
  }
}
