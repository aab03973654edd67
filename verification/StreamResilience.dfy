// internal/agent/runner_stream_resilience.go: the session digest for the local
// fallback, the trimmed copy of a request for its retry, and the retry ladder.
module StreamResilience {
  import opened ByteStrings
  import opened Wrappers
  import opened Utf8
  import Text

  function Ascii(s: string): (b: Bytes)
    ensures |b| == |s|
  {
    seq(|s|, i requires 0 <= i < |s| => s[i] as int % 128)
  }

  const NEWLINE: Bytes := [10]

  datatype Part =
    | TextPart(text: Bytes)
    | ToolUse(id: Bytes, name: Bytes, input: Bytes)
    | ToolResult(id: Bytes, content: Bytes)
    | Media(data: Bytes)

  // ------------------------------------------------------------------
  // Session digest
  // ------------------------------------------------------------------

  // A message of working memory, and the labels the digest puts in front of roles
  // and tool parts.
  datatype Entry = Entry(role: Bytes, content: Bytes, parts: seq<Part>)
  datatype Labels = Labels(afterRole: Bytes, toolResult: Bytes, tool: Bytes)

  const LABELS: Labels := Labels(Ascii(": "), Ascii("[tool result] "), Ascii("[tool] "))

  const TOOL_RESULT_LIMIT: nat := 800
  const FRAGMENT_LIMIT: nat := 4000
  const RESERVE: nat := 16

  function PartText(l: Labels, p: Part): Bytes {
    match p
    case ToolResult(_, content) => l.toolResult + Truncate(content, TOOL_RESULT_LIMIT) + NEWLINE
    case ToolUse(_, name, _) => l.tool + name + NEWLINE
    case _ => []
  }

  function PartsText(l: Labels, parts: seq<Part>): Bytes
    decreases |parts|
  {
    if parts == [] then [] else PartsText(l, parts[..|parts| - 1]) + PartText(l, parts[|parts| - 1])
  }

  // The text of one message, cut to the fragment limit.
  function Fragment(l: Labels, m: Entry): Bytes {
    var ps := PartsText(l, m.parts);
    var whole := m.role + l.afterRole + m.content + if ps == [] then [] else NEWLINE + ps;
    Truncate(whole, FRAGMENT_LIMIT)
  }

  function Max(a: int, b: int): int { if a > b then a else b }

  // What is written for a fragment when `len` bytes are already there.
  function Piece(frag: Bytes, len: nat, max: nat): Bytes {
    (if len + |frag| + 1 > max then Truncate(frag, Max(0, max - len - RESERVE)) else frag) + NEWLINE
  }

  // Writing the fragments of the first `i` of them, last one first, onto acc.
  function Write(frags: seq<Bytes>, i: nat, acc: Bytes, max: nat): Bytes
    requires i <= |frags|
  {
    if i == 0 || |acc| >= max then acc
    else Write(frags, i - 1, acc + Piece(frags[i - 1], |acc|, max), max)
  }

  function Fragments(l: Labels, msgs: seq<Entry>): (fs: seq<Bytes>)
    ensures |fs| == |msgs| && forall i :: 0 <= i < |fs| ==> fs[i] == Fragment(l, msgs[i])
  {
    seq(|msgs|, i requires 0 <= i < |msgs| => Fragment(l, msgs[i]))
  }

  function Digest(l: Labels, msgs: seq<Entry>, maxBytes: int): Bytes {
    if maxBytes <= 0 then [] else Write(Fragments(l, msgs), |msgs|, [], maxBytes)
  }

  lemma WriteStep(frags: seq<Bytes>, i: nat, acc: Bytes, max: nat)
    requires i < |frags| && |acc| < max
    ensures Write(frags, i + 1, acc, max) == Write(frags, i, acc + Piece(frags[i], |acc|, max), max)
  {
  }

  // workingMemoryDigest
  method WorkingMemoryDigest(l: Labels, msgs: seq<Entry>, maxBytes: int) returns (b: Bytes)
    ensures b == Digest(l, msgs, maxBytes)
  {
    b := [];
    if maxBytes <= 0 {
      return;
    }
    ghost var frags := Fragments(l, msgs);
    var i := |msgs|;
    while i > 0 && |b| < maxBytes
      invariant 0 <= i <= |msgs|
      invariant Write(frags, i, b, maxBytes) == Digest(l, msgs, maxBytes)
    {
      i := i - 1;
      var frag := FragmentOf(l, msgs[i]);
      assert frag == frags[i];
      WriteStep(frags, i, b, maxBytes);
      b := WritePiece(b, frag, maxBytes);
    }
  }

  // Cuts a fragment that does not fit, and writes it with a newline.
  method WritePiece(b: Bytes, frag: Bytes, maxBytes: nat) returns (b': Bytes)
    ensures b' == b + Piece(frag, |b|, maxBytes)
  {
    var cut := frag;
    if |b| + |frag| + 1 > maxBytes {
      cut := TruncateUTF8(frag, Max(0, maxBytes - |b| - RESERVE));
    }
    b' := b + cut + NEWLINE;
    assert b' == b + (cut + NEWLINE);
  }

  method FragmentOf(l: Labels, m: Entry) returns (frag: Bytes)
    ensures frag == Fragment(l, m)
  {
    frag := m.role + l.afterRole + m.content;
    assert frag + [] == frag;
    var ps: Bytes := [];
    for j := 0 to |m.parts|
      invariant ps == PartsText(l, m.parts[..j])
    {
      assert m.parts[..j + 1][..j] == m.parts[..j];
      match m.parts[j]
      case ToolResult(_, content) =>
        var cut := TruncateUTF8(content, TOOL_RESULT_LIMIT);
        ps := ps + (l.toolResult + cut + NEWLINE);
      case ToolUse(_, name, _) =>
        ps := ps + (l.tool + name + NEWLINE);
      case _ =>
    }
    assert m.parts[..|m.parts|] == m.parts;
    if |ps| > 0 {
      frag := frag + (NEWLINE + ps);
    }
    frag := TruncateUTF8(frag, FRAGMENT_LIMIT);
  }

  // The digest gets past its limit exactly when, with 1 to 16 bytes left, a fragment
  // comes up that does not fit: the limit computed for it is then 0, which means
  // no limit.
  predicate Overruns(frags: seq<Bytes>, i: nat, acc: Bytes, max: nat)
    requires i <= |frags|
  {
    i > 0 && |acc| < max &&
    ((max - |acc| <= RESERVE && |acc| + |frags[i - 1]| + 1 > max)
     || Overruns(frags, i - 1, acc + Piece(frags[i - 1], |acc|, max), max))
  }

  lemma PieceSize(frag: Bytes, len: nat, max: nat)
    requires len < max
    ensures len + |Piece(frag, len, max)| <= max <==> !(max - len <= RESERVE && len + |frag| + 1 > max)
    ensures |Piece(frag, len, max)| <= |frag| + 1
  {
  }

  lemma {:induction false} OverrunIff(frags: seq<Bytes>, i: nat, acc: Bytes, max: nat)
    requires i <= |frags| && |acc| <= max
    ensures |Write(frags, i, acc, max)| > max <==> Overruns(frags, i, acc, max)
  {
    if i > 0 && |acc| < max {
      var acc' := acc + Piece(frags[i - 1], |acc|, max);
      PieceSize(frags[i - 1], |acc|, max);
      if |acc'| <= max {
        OverrunIff(frags, i - 1, acc', max);
      }
    }
  }

  lemma {:induction false} WriteBound(frags: seq<Bytes>, i: nat, acc: Bytes, max: nat)
    requires i <= |frags| && |acc| <= max + FRAGMENT_LIMIT
    requires forall k :: 0 <= k < |frags| ==> |frags[k]| <= FRAGMENT_LIMIT
    ensures |Write(frags, i, acc, max)| <= max + FRAGMENT_LIMIT
  {
    if i > 0 && |acc| < max {
      PieceSize(frags[i - 1], |acc|, max);
      WriteBound(frags, i - 1, acc + Piece(frags[i - 1], |acc|, max), max);
    }
  }

  // The digest is at most maxBytes + 4000 bytes long, and longer than maxBytes
  // exactly in the case above.
  lemma DigestBound(l: Labels, msgs: seq<Entry>, maxBytes: int)
    ensures maxBytes > 0 ==> |Digest(l, msgs, maxBytes)| <= maxBytes + FRAGMENT_LIMIT
    ensures |Digest(l, msgs, maxBytes)| > Max(0, maxBytes)
            <==> maxBytes > 0 && Overruns(Fragments(l, msgs), |msgs|, [], maxBytes)
  {
    if maxBytes > 0 {
      WriteBound(Fragments(l, msgs), |msgs|, [], maxBytes);
      OverrunIff(Fragments(l, msgs), |msgs|, [], maxBytes);
    }
  }

  // An overrun is one whole fragment, the last thing written.
  lemma {:induction false} OverrunIsLast(frags: seq<Bytes>, i: nat, acc: Bytes, max: nat)
    returns (k: nat, before: Bytes)
    requires i <= |frags| && |acc| <= max && Overruns(frags, i, acc, max)
    ensures k < i && |before| < max <= |before| + RESERVE
    ensures Write(frags, i, acc, max) == before + frags[k] + NEWLINE
  {
    var acc' := acc + Piece(frags[i - 1], |acc|, max);
    PieceSize(frags[i - 1], |acc|, max);
    if max - |acc| <= RESERVE && |acc| + |frags[i - 1]| + 1 > max {
      k, before := i - 1, acc;
    } else {
      k, before := OverrunIsLast(frags, i - 1, acc', max);
    }
  }

  // Cutting a valid fragment with more than 16 bytes left does not fill the digest: 15 to
  // 18 bytes stay, and exactly 15 if it is ASCII.
  lemma CutLeaves(frag: Bytes, len: nat, max: nat)
    requires Valid(frag) && len + RESERVE < max < len + |frag| + 1
    ensures 15 <= max - len - |Piece(frag, len, max)| <= 18
    ensures IsAscii(frag) ==> max - len - |Piece(frag, len, max)| == 15
  {
    TruncateIsFit(frag, max - len - RESERVE);
    if IsAscii(frag) {
      AsciiTruncate(frag, max - len - RESERVE);
    }
  }

  // And so little room makes the next fragments overrun, unless they are so short that
  // they fit: of valid ones of 18 bytes or more the third at the latest.
  lemma {:induction false} LittleRoomOverruns(frags: seq<Bytes>, i: nat, acc: Bytes, max: nat)
    requires i <= |frags| && 1 <= max - |acc| <= 18
    requires forall k :: 0 <= k < i ==> Valid(frags[k]) && |frags[k]| >= 18
    requires i >= if max - |acc| <= RESERVE then 1 else max - |acc| - 15
    ensures Overruns(frags, i, acc, max)
  {
    if max - |acc| > RESERVE {
      CutLeaves(frags[i - 1], |acc|, max);
      assert |Piece(frags[i - 1], |acc|, max)| >= 1;
      LittleRoomOverruns(frags, i - 1, acc + Piece(frags[i - 1], |acc|, max), max);
    }
  }

  // The bytes of the last n of the first i fragments, with their newlines.
  function Weight(frags: seq<Bytes>, i: nat, n: nat): nat
    requires n <= i <= |frags|
  {
    if n == 0 then 0 else |frags[i - 1]| + 1 + Weight(frags, i - 1, n - 1)
  }

  // How many of the newest fragments fit whole.
  predicate FitWhole(frags: seq<Bytes>, i: nat, len: nat, max: nat, n: nat)
    requires i <= |frags|
  {
    n <= i && len + Weight(frags, i, n) <= max && (n < i ==> len + Weight(frags, i, n + 1) > max)
  }

  // With at most 16 bytes left there is an overrun exactly if they do not end with a
  // fragment; this holds of any text.
  lemma {:induction false} LittleRoomIff(frags: seq<Bytes>, i: nat, acc: Bytes, max: nat, n: nat)
    requires i <= |frags| && |acc| <= max <= |acc| + RESERVE && FitWhole(frags, i, |acc|, max, n)
    ensures Overruns(frags, i, acc, max) <==> n < i && max - |acc| - Weight(frags, i, n) > 0
    decreases n
  {
    if n > 0 {
      assert Piece(frags[i - 1], |acc|, max) == frags[i - 1] + NEWLINE;
      LittleRoomIff(frags, i - 1, acc + Piece(frags[i - 1], |acc|, max), max, n - 1);
    } else if i > 0 {
      assert Weight(frags, i, 1) == |frags[i - 1]| + 1 + Weight(frags, i - 1, 0);
    }
  }

  // Of any text: the fragments that fit whole are written; then the next one overruns if
  // it has at most 16 bytes left, or is cut.
  lemma {:induction false} OverrunStage(frags: seq<Bytes>, i: nat, acc: Bytes, max: nat, n: nat) returns (acc': Bytes)
    requires i <= |frags| && |acc| <= max && FitWhole(frags, i, |acc|, max, n)
    ensures |acc'| == |acc| + Weight(frags, i, n)
    ensures Overruns(frags, i, acc, max) <==>
            && n < i && |acc'| < max
            && (max - |acc'| <= RESERVE
                || Overruns(frags, i - n - 1, acc' + Piece(frags[i - n - 1], |acc'|, max), max))
    decreases n
  {
    acc' := acc;
    if n > 0 {
      assert Piece(frags[i - 1], |acc|, max) == frags[i - 1] + NEWLINE;
      acc' := OverrunStage(frags, i - 1, acc + Piece(frags[i - 1], |acc|, max), max, n - 1);
    } else if i > 0 {
      assert Weight(frags, i, 1) == |frags[i - 1]| + 1 + Weight(frags, i - 1, 0);
    }
  }

  // For ASCII fragments the overrun can be told from their lengths. With n of them fitting
  // whole, the next one overruns if it has at most 16 bytes left; otherwise it is cut, m
  // more fit into the 15 bytes that are left then, and the one after those overruns if
  // they leave anything.
  lemma OverrunByLengths(frags: seq<Bytes>, max: nat, n: nat, m: nat)
    requires forall k :: 0 <= k < |frags| ==> IsAscii(frags[k])
    requires FitWhole(frags, |frags|, 0, max, n)
    requires var i, room := |frags|, max - Weight(frags, |frags|, n);
             n < i && room > RESERVE ==> FitWhole(frags, i - n - 1, max - 15, max, m)
    ensures var i, room := |frags|, max - Weight(frags, |frags|, n);
            Overruns(frags, i, [], max) <==>
            && n < i && room > 0
            && (room <= RESERVE || (m < i - n - 1 && 15 - Weight(frags, i - n - 1, m) > 0))
  {
    var i := |frags|;
    var acc := OverrunStage(frags, i, [], max, n);
    if n < i && max - |acc| > RESERVE {
      var frag := frags[i - n - 1];
      AsciiBoundary(frag, 0);
      WeightNext(frags, i, n);
      CutLeaves(frag, |acc|, max);
      LittleRoomIff(frags, i - n - 1, acc + Piece(frag, |acc|, max), max, m);
    }
  }

  lemma {:induction false} WeightNext(frags: seq<Bytes>, i: nat, n: nat)
    requires n < i <= |frags|
    ensures Weight(frags, i, n + 1) == Weight(frags, i, n) + |frags[i - n - 1]| + 1
    decreases n
  {
    if n > 0 {
      WeightNext(frags, i - 1, n - 1);
    }
  }

  // ------------------------------------------------------------------
  // What the digest says
  // ------------------------------------------------------------------

  // The newest first, each with a newline.
  function NewestFirst(frags: seq<Bytes>): Bytes {
    if frags == [] then [] else frags[|frags| - 1] + [10] + NewestFirst(frags[..|frags| - 1])
  }

  // When there is room for all, the digest is all of them.
  lemma {:induction false} RoomForAll(frags: seq<Bytes>, i: nat, acc: Bytes, max: nat)
    requires i <= |frags| && |acc| + Weight(frags, i, i) <= max
    ensures Write(frags, i, acc, max) == acc + NewestFirst(frags[..i])
  {
    if i > 0 {
      var acc' := acc + Piece(frags[i - 1], |acc|, max);
      assert Piece(frags[i - 1], |acc|, max) == frags[i - 1] + [10];
      assert acc' == acc + (frags[i - 1] + [10]);
      RoomForAll(frags, i - 1, acc', max);
      assert frags[..i][..i - 1] == frags[..i - 1];
      assert acc + (frags[i - 1] + [10]) + NewestFirst(frags[..i - 1])
             == acc + (frags[i - 1] + [10] + NewestFirst(frags[..i - 1]));
    }
  }

  lemma DigestIsAll(l: Labels, msgs: seq<Entry>, maxBytes: nat)
    requires maxBytes > 0 && Weight(Fragments(l, msgs), |msgs|, |msgs|) <= maxBytes
    ensures Digest(l, msgs, maxBytes) == NewestFirst(Fragments(l, msgs))
  {
    var frags := Fragments(l, msgs);
    assert Digest(l, msgs, maxBytes) == Write(frags, |frags|, [], maxBytes);
    WholeIs(frags, maxBytes);
  }

  lemma WholeIs(frags: seq<Bytes>, max: nat)
    requires Weight(frags, |frags|, |frags|) <= max
    ensures Write(frags, |frags|, [], max) == NewestFirst(frags)
  {
    RoomForAll(frags, |frags|, [], max);
    assert frags[..|frags|] == frags;
    assert [] + NewestFirst(frags) == NewestFirst(frags);
  }

  // Without a limit above zero it is empty.
  lemma NoDigest(l: Labels, msgs: seq<Entry>, maxBytes: int)
    requires maxBytes <= 0
    ensures Digest(l, msgs, maxBytes) == []
  {
  }

  // A message is told as its role and text, and on lines of their own the results of
  // tools, cut to 800 bytes, and the names of the tools called, 4000 bytes in all.
  lemma FragmentIs(l: Labels, m: Entry)
    ensures m.parts == [] ==> Fragment(l, m) == Truncate(m.role + l.afterRole + m.content, 4000)
    ensures PartsText(l, m.parts) != [] ==>
              Fragment(l, m) == Truncate(m.role + l.afterRole + m.content + [10] + PartsText(l, m.parts), 4000)
  {
    var head := m.role + l.afterRole + m.content;
    assert head + [] == head;
    assert head + ([10] + PartsText(l, m.parts)) == head + [10] + PartsText(l, m.parts);
  }

  lemma {:induction false} PartsTextJoin(l: Labels, a: seq<Part>, b: seq<Part>)
    ensures PartsText(l, a + b) == PartsText(l, a) + PartsText(l, b)
    decreases |b|
  {
    if b == [] {
      assert a + b == a;
    } else {
      var front, p := b[..|b| - 1], b[|b| - 1];
      PartsTextJoin(l, a, front);
      PartsApart(a, b);
      PartsTextSnoc(l, a + b, a + front, p);
      PartsTextSnoc(l, b, front, p);
      Behind(PartsText(l, a), PartsText(l, front), PartText(l, p));
    }
  }

  lemma PartsApart(a: seq<Part>, b: seq<Part>)
    requires b != []
    ensures b == b[..|b| - 1] + [b[|b| - 1]] && a + b == a + b[..|b| - 1] + [b[|b| - 1]]
  {
  }

  lemma Behind(x: Bytes, y: Bytes, z: Bytes)
    ensures x + (y + z) == x + y + z
  {
  }

  lemma PartsTextSnoc(l: Labels, all: seq<Part>, ps: seq<Part>, p: Part)
    requires all == ps + [p]
    ensures PartsText(l, all) == PartsText(l, ps) + PartText(l, p)
  {
    assert all[..|all| - 1] == ps;
  }

  lemma PartsTextOne(l: Labels, id: Bytes, content: Bytes, name: Bytes)
    ensures PartsText(l, [ToolResult(id, content)]) == l.toolResult + Truncate(content, 800) + [10]
    ensures PartsText(l, [ToolUse(id, name, content)]) == l.tool + name + [10]
    ensures PartsText(l, [TextPart(content)]) == [] && PartsText(l, [Media(content)]) == []
  {
    assert PartsText(l, []) == [];
    assert [ToolResult(id, content)][..0] == [] && [ToolUse(id, name, content)][..0] == [];
    assert [TextPart(content)][..0] == [] && [Media(content)][..0] == [];
    var shown := l.toolResult + Truncate(content, 800) + [10];
    assert PartsText(l, []) + shown == shown;
    assert PartsText(l, []) + (l.tool + name + [10]) == l.tool + name + [10];
  }

  // So a small limit does not bind at all: any message that is longer appears whole.
  lemma SmallLimitIgnored(l: Labels, m: Entry, maxBytes: int)
    requires 1 <= maxBytes <= RESERVE && |Fragment(l, m)| >= maxBytes
    ensures Digest(l, [m], maxBytes) == Fragment(l, m) + NEWLINE
  {
    var frags, none: Bytes := Fragments(l, [m]), [];
    var piece := Piece(frags[0], |none|, maxBytes);
    assert none + piece == piece;
    assert Write(frags, 1, none, maxBytes) == Write(frags, 0, none + piece, maxBytes);
  }

  // ------------------------------------------------------------------
  // The digest the local fallback asks for
  // ------------------------------------------------------------------

  const FALLBACK_DIGEST: nat := 14 * 1024

  // The labels are a colon and a blank, and texts of 14 and 7 bytes; the marker has 51.
  lemma LabelSizes()
    ensures LABELS.afterRole == [':' as int, ' ' as int] && |LABELS.toolResult| == 14 && |LABELS.tool| == 7
    ensures |MARKER| == 51
  {
    assert Ascii(": ") == [58, 32];
  }

  // A plain message of at least 4000 ASCII bytes fills a fragment.
  predicate LongPlain(m: Entry) {
    m.parts == [] && IsAscii(m.role) && IsAscii(m.content) && |m.content| >= FRAGMENT_LIMIT
  }

  lemma LongPlainFragment(m: Entry)
    requires LongPlain(m)
    ensures IsAscii(Fragment(LABELS, m)) && |Fragment(LABELS, m)| == FRAGMENT_LIMIT
  {
    var whole := m.role + LABELS.afterRole + m.content + [];
    assert IsAscii(whole);
    assert Fragment(LABELS, m) == Truncate(whole, FRAGMENT_LIMIT);
    AsciiTruncate(whole, FRAGMENT_LIMIT);
  }

  // Five such messages make a digest of 18322 bytes where 14336 were asked for: three
  // fit, the fourth is cut so that 15 bytes are left, and the fifth is written whole.
  lemma FallbackOverruns(msgs: seq<Entry>)
    requires |msgs| >= 5 && forall i :: 0 <= i < |msgs| ==> LongPlain(msgs[i])
    ensures |Digest(LABELS, msgs, FALLBACK_DIGEST)| == 18322
  {
    var frags := Fragments(LABELS, msgs);
    forall i | 0 <= i < |msgs| ensures IsAscii(frags[i]) && |frags[i]| == FRAGMENT_LIMIT {
      LongPlainFragment(msgs[i]);
    }
    FiveFragments(frags, |frags|, FALLBACK_DIGEST);
  }

  lemma FiveFragments(frags: seq<Bytes>, n: nat, max: nat)
    requires 5 <= n == |frags| && max == FALLBACK_DIGEST
    requires forall i :: 0 <= i < n ==> IsAscii(frags[i]) && |frags[i]| == FRAGMENT_LIMIT
    ensures |Write(frags, n, [], max)| == 18322
  {
    var a1 := WholePiece(frags, n - 1, [], max);
    var a2 := WholePiece(frags, n - 2, a1, max);
    var a3 := WholePiece(frags, n - 3, a2, max);
    var frag := frags[n - 4];
    AsciiBoundary(frag, 0);
    WriteStep(frags, n - 4, a3, max);
    CutLeaves(frag, |a3|, max);
    var a4 := a3 + Piece(frag, |a3|, max);
    WriteStep(frags, n - 5, a4, max);
  }

  lemma WholePiece(frags: seq<Bytes>, i: nat, acc: Bytes, max: nat) returns (acc': Bytes)
    requires i < |frags| && |acc| + |frags[i]| + 1 <= max
    ensures |acc'| == |acc| + |frags[i]| + 1 && Write(frags, i + 1, acc, max) == Write(frags, i, acc', max)
  {
    WriteStep(frags, i, acc, max);
    acc' := acc + Piece(frags[i], |acc|, max);
  }

  // ------------------------------------------------------------------
  // The trimmed copy
  // ------------------------------------------------------------------

  const RETRY_TOOL_BYTES: nat := 6000
  const RETRY_TEXT_BYTES: nat := 12000
  const MARKER: Bytes := Ascii("\n\n[_truncated before retry for model request size_]")

  function TrimText(orig: Bytes, max: int, marker: Bytes): Bytes {
    var t := Truncate(orig, max);
    if |orig| > |t| then t + marker else t
  }

  function TrimPart(p: Part, toolMax: int, textMax: int, marker: Bytes): Part {
    match p
    case ToolResult(id, content) => ToolResult(id, TrimText(content, toolMax, marker))
    case TextPart(text) => TextPart(TrimText(text, textMax, marker))
    case _ => p
  }

  // A trimmed payload is within its limit plus the marker.
  lemma TrimTextBound(orig: Bytes, max: int, marker: Bytes)
    requires max > 0
    ensures |TrimText(orig, max, marker)| <= max + |marker|
    ensures |orig| <= max ==> TrimText(orig, max, marker) == orig
  {
  }

  // Some character ends after byte `low` and not after byte `high`.
  predicate EndsBetween(s: Bytes, low: int, high: nat)
    requires Valid(s)
  {
    exists k: nat | k <= high && k <= |s| :: low < k && Boundary(s, k)
  }

  // Trimming lengthens a valid payload exactly if some character ends within the limit,
  // and closer to the end of the text than the marker is long: surely when the text is
  // over its limit by less than the marker's length less three, never once it is over by
  // the marker's length or more, and for ASCII exactly below that.
  lemma TrimTextGrowth(orig: Bytes, max: int, marker: Bytes)
    requires Valid(orig) && 0 < max < |orig|
    ensures |TrimText(orig, max, marker)| > |orig| <==> EndsBetween(orig, |orig| - |marker|, max)
    ensures |orig| < max - 3 + |marker| ==> |TrimText(orig, max, marker)| > |orig|
    ensures |orig| >= max + |marker| ==> |TrimText(orig, max, marker)| <= |orig|
    ensures IsAscii(orig) ==> (|TrimText(orig, max, marker)| > |orig| <==> |orig| < max + |marker|)
  {
    TruncateIsFit(orig, max);
    FitLongest(orig, max);
    var t := |Truncate(orig, max)|;
    assert |TrimText(orig, max, marker)| == t + |marker|;
    if t + |marker| > |orig| {
      assert |orig| - |marker| < t <= max && Boundary(orig, t);
      assert EndsBetween(orig, |orig| - |marker|, max);
    }
    if EndsBetween(orig, |orig| - |marker|, max) {
      var k: nat :| k <= max && |orig| - |marker| < k && Boundary(orig, k);
      assert k <= t;
    }
    if IsAscii(orig) {
      AsciiTruncate(orig, max);
    }
  }

  datatype Message = Message(role: Bytes, name: Bytes, content: array<Part>)

  // out is a copy of msgs with trimmed payloads: same messages, roles, part kinds and ids.
  ghost predicate TrimmedCopy(msgs: array<Message>, out: array<Message>, toolMax: int, textMax: int, marker: Bytes)
    reads msgs, out, set i | 0 <= i < msgs.Length :: msgs[i].content, set i | 0 <= i < out.Length :: out[i].content
  {
    && out.Length == msgs.Length
    && forall i :: 0 <= i < out.Length ==> TrimmedMessage(msgs[i], out[i], toolMax, textMax, marker)
  }

  ghost predicate TrimmedMessage(m: Message, m': Message, toolMax: int, textMax: int, marker: Bytes)
    reads m.content, m'.content
  {
    && m'.role == m.role && m'.name == m.name && m'.content.Length == m.content.Length
    && forall j :: 0 <= j < m.content.Length ==> m'.content[j] == TrimPart(m.content[j], toolMax, textMax, marker)
  }

  // A payload and its copy: the same within the limit, and beyond it a beginning of at
  // most that many bytes with the marker behind it.
  ghost predicate CutTo(orig: Bytes, copy: Bytes, limit: nat, marker: Bytes) {
    if |orig| <= limit then copy == orig
    else exists k: nat | k <= limit :: copy == orig[..k] + marker
  }

  // A part and its copy: the same kind with the same id, and the same altogether but for
  // the payload of a text or a tool's result.
  ghost predicate SamePart(p: Part, p': Part, toolMax: nat, textMax: nat, marker: Bytes) {
    match p
    case ToolResult(id, content) => p'.ToolResult? && p'.id == id && CutTo(content, p'.content, toolMax, marker)
    case TextPart(text) => p'.TextPart? && CutTo(text, p'.text, textMax, marker)
    case ToolUse(_, _, _) => p' == p
    case Media(_) => p' == p
  }

  lemma TrimTextCuts(orig: Bytes, max: nat, marker: Bytes)
    requires max > 0
    ensures CutTo(orig, TrimText(orig, max, marker), max, marker)
  {
    if |orig| > max {
      var k := Shrink(orig, max);
      assert TrimText(orig, max, marker) == orig[..k] + marker;
    }
  }

  lemma TrimPartKeeps(p: Part, toolMax: nat, textMax: nat, marker: Bytes)
    requires toolMax > 0 && textMax > 0
    ensures SamePart(p, TrimPart(p, toolMax, textMax, marker), toolMax, textMax, marker)
  {
    match p
    case ToolResult(_, content) => TrimTextCuts(content, toolMax, marker);
    case TextPart(text) => TrimTextCuts(text, textMax, marker);
    case _ =>
  }

  // The copy of a request's messages, message by message and part by part.
  ghost predicate SameMessages(msgs: array<Message>, out: array<Message>, toolMax: nat, textMax: nat, marker: Bytes)
    reads msgs, out, set i | 0 <= i < msgs.Length :: msgs[i].content, set i | 0 <= i < out.Length :: out[i].content
  {
    && out.Length == msgs.Length
    && forall i :: 0 <= i < out.Length ==>
         && out[i].role == msgs[i].role && out[i].name == msgs[i].name
         && out[i].content.Length == msgs[i].content.Length
         && forall j :: 0 <= j < out[i].content.Length ==>
              SamePart(msgs[i].content[j], out[i].content[j], toolMax, textMax, marker)
  }

  lemma CopyKeeps(msgs: array<Message>, out: array<Message>, toolMax: nat, textMax: nat, marker: Bytes)
    requires toolMax > 0 && textMax > 0 && TrimmedCopy(msgs, out, toolMax, textMax, marker)
    ensures SameMessages(msgs, out, toolMax, textMax, marker)
  {
    forall i, j | 0 <= i < out.Length && 0 <= j < out[i].content.Length
      ensures out[i].content.Length == msgs[i].content.Length
      ensures SamePart(msgs[i].content[j], out[i].content[j], toolMax, textMax, marker)
    {
      assert TrimmedMessage(msgs[i], out[i], toolMax, textMax, marker);
      TrimPartKeeps(msgs[i].content[j], toolMax, textMax, marker);
    }
  }

  // The copy of one message's content, in memory of its own.
  method TrimContent(m: Message, toolMax: int, textMax: int, marker: Bytes) returns (content: array<Part>)
    ensures fresh(content) && TrimmedMessage(m, Message(m.role, m.name, content), toolMax, textMax, marker)
  {
    content := new Part[m.content.Length](_ => Media([]));
    for j := 0 to m.content.Length
      invariant forall k :: 0 <= k < j ==> content[k] == TrimPart(m.content[k], toolMax, textMax, marker)
    {
      content[j] := m.content[j];
      match m.content[j]
      case ToolResult(id, orig) =>
        var t := TruncateUTF8(orig, toolMax);
        if |orig| > |t| {
          t := t + marker;
        }
        content[j] := ToolResult(id, t);
      case TextPart(orig) =>
        var t := TruncateUTF8(orig, textMax);
        if |orig| > |t| {
          t := t + marker;
        }
        content[j] := TextPart(t);
      case _ =>
    }
  }

  // deepTruncateMessagesForRetry: it changes nothing that existed before.
  method DeepTruncateMessagesForRetry(msgs: array<Message>, toolMax: int, textMax: int, marker: Bytes)
    returns (out: array<Message>)
    ensures fresh(out) && forall i :: 0 <= i < out.Length ==> fresh(out[i].content)
    ensures TrimmedCopy(msgs, out, toolMax, textMax, marker)
    ensures toolMax > 0 && textMax > 0 ==> SameMessages(msgs, out, toolMax, textMax, marker)
  {
    var none := new Part[0];
    out := new Message[msgs.Length](_ => Message([], [], none));
    for i := 0 to msgs.Length
      invariant fresh(out) && fresh(none) && out.Length == msgs.Length
      invariant forall k :: 0 <= k < out.Length ==> fresh(out[k].content)
      invariant forall k :: 0 <= k < i ==> TrimmedMessage(msgs[k], out[k], toolMax, textMax, marker)
    {
      var content := TrimContent(msgs[i], toolMax, textMax, marker);
      out[i] := Message(msgs[i].role, msgs[i].name, content);
    }
  }

  // ------------------------------------------------------------------
  // The retry ladder
  // ------------------------------------------------------------------

  // What a provider's error says, and whether it marks itself retryable.
  datatype StreamErr = StreamErr(text: string, retryable: bool)

  // errRecoverablePrimaryStream
  predicate Recoverable(e: StreamErr) {
    var s := Text.ToLower(e.text);
    || Text.Contains(s, "length limit exceeded")
    || (Text.Contains(s, "validationexception") && (Text.Contains(s, "too large") || Text.Contains(s, "limit")))
    || Text.Contains(s, "throttling") || Text.Contains(s, "timeout") || Text.Contains(s, "timed out")
    || Text.Contains(s, "429") || Text.Contains(s, "503") || Text.Contains(s, "502") || Text.Contains(s, "500")
    || e.retryable
  }

  // Which errors are worth a second try, whatever the case of their letters.
  lemma RecoverableIs(e: StreamErr)
    ensures var s := Text.ToLower(e.text);
            Recoverable(e) <==>
            || e.retryable || Text.Contains(s, "length limit exceeded") || Text.Contains(s, "throttling")
            || Text.Contains(s, "timeout") || Text.Contains(s, "timed out")
            || Text.Contains(s, "429") || Text.Contains(s, "500") || Text.Contains(s, "502") || Text.Contains(s, "503")
            || (Text.Contains(s, "validationexception") && Text.Contains(s, "too large"))
            || (Text.Contains(s, "validationexception") && Text.Contains(s, "limit"))
  {
  }

  class Request {
    const model: string
    const messages: array<Message>

    constructor (model: string, messages: array<Message>)
      ensures this.model == model && this.messages == messages
    {
      this.model, this.messages := model, messages;
    }
  }

  datatype Opening = Primary(attempt: nat) | LocalFallback(cause: StreamErr) | Failed(error: StreamErr)

  // openPrimaryModelStream. `answers` is the provider's reply to each attempt: an
  // error, or None for a stream; `local` tells whether the local engine is there.
  // `sent` lists the requests the provider has seen.
  method OpenPrimaryModelStream(req: Request, answers: nat -> Option<StreamErr>, local: bool)
    returns (r: Opening, sent: seq<Request>)
    ensures 1 <= |sent| <= 2 && sent[0] == req
    ensures |sent| == 2 <==> answers(0).Some? && Recoverable(answers(0).value)
    ensures |sent| == 2 ==>
              && fresh(sent[1]) && fresh(sent[1].messages) && sent[1].model == req.model
              && (forall i :: 0 <= i < sent[1].messages.Length ==> fresh(sent[1].messages[i].content))
              && SameMessages(req.messages, sent[1].messages, 6000, 12000, MARKER)
    ensures r == match (answers(0), answers(1))
                 case (None, _) => Primary(0)
                 case (Some(e), _) =>
                   if !Recoverable(e) then Failed(e)
                   else match answers(1)
                        case None => Primary(1)
                        case Some(e') => if Recoverable(e') && local then LocalFallback(e') else Failed(e')
  {
    sent := [];
    var attempt := 0;
    var lastErr := None;
    while attempt < 2
      invariant 0 <= attempt <= 2 && |sent| == attempt
      invariant attempt >= 1 ==> sent[0] == req && answers(0).Some? && Recoverable(answers(0).value)
      invariant attempt == 1 ==> lastErr == answers(0)
      invariant attempt < 2
    {
      var useReq := req;
      if attempt == 1 {
        var messages := DeepTruncateMessagesForRetry(req.messages, RETRY_TOOL_BYTES, RETRY_TEXT_BYTES, MARKER);
        useReq := new Request(req.model, messages);
      }
      sent := sent + [useReq];
      var err := answers(attempt);
      if err.None? {
        return Primary(attempt), sent;
      }
      lastErr := err;
      if !Recoverable(err.value) {
        return Failed(err.value), sent;
      }
      if attempt == 1 {
        break;
      }
      attempt := attempt + 1;
    }
    if local {
      return LocalFallback(lastErr.value), sent;
    }
    return Failed(lastErr.value), sent;
  }
}
