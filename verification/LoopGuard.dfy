// internal/agent/runner.go: loopGuard, which ends a turn once the model has
// issued the same call (name and input) three times.
module LoopGuards {
  import opened Wrappers
  import opened Provider
  import opened ToolExecutor

  const LOOP_BREAK_REPEATS: nat := 3

  // The guard's map key.
  function Signature(call: ToolCall): string { call.name + "|" + call.input }

  // ------------------------------------------------------------------
  // Signatures tell calls apart
  // ------------------------------------------------------------------

  datatype Lex = Outside | Inside | Escaped | Bad

  // Where a JSON text is after one more character: string literals are the only
  // place for a bar or a backslash.
  function LexStep(l: Lex, c: char): Lex {
    match l
    case Outside => if c == '\"' then Inside else if c == '|' || c == '\\' then Bad else Outside
    case Inside => if c == '\"' then Outside else if c == '\\' then Escaped else Inside
    case Escaped => Inside
    case Bad => Bad
  }

  function LexAll(l: Lex, s: string): Lex
    decreases |s|
  {
    if s == [] then l else LexAll(LexStep(l, s[0]), s[1..])
  }

  // What json.Marshal's output is known to satisfy.
  predicate JsonText(s: string) { LexAll(Outside, s) == Outside }

  lemma {:induction false} LexConcat(l: Lex, a: string, b: string)
    ensures LexAll(l, a + b) == LexAll(LexAll(l, a), b)
    decreases |a|
  {
    if a == [] {
      assert a + b == b;
    } else {
      assert (a + b)[1..] == a[1..] + b;
      LexConcat(LexStep(l, a[0]), a[1..], b);
    }
  }

  lemma {:induction false} BadStaysBad(s: string)
    ensures LexAll(Bad, s) == Bad
    decreases |s|
  {
    if s != [] {
      BadStaysBad(s[1..]);
    }
  }

  // A text cannot be complete both on its own and as the rest of a string literal.
  lemma {:induction false} NotBothWays(s: string)
    ensures LexAll(Outside, s) == Outside ==> LexAll(Inside, s) != Outside
    ensures LexAll(Inside, s) == Outside ==> LexAll(Outside, s) != Outside
    decreases |s|
  {
    if s != [] {
      BadStaysBad(s[1..]);
      NotBothWays(s[1..]);
    }
  }

  // Two calls with JSON inputs have the same signature only if they are identical
  // in name and input, although the separator may occur in either.
  lemma SignatureInjective(a: ToolCall, b: ToolCall)
    requires JsonText(a.input) && JsonText(b.input) && Signature(a) == Signature(b)
    ensures a.name == b.name && a.input == b.input
  {
    if |a.name| < |b.name| {
      NoLongerName(a, b);
    } else if |b.name| < |a.name| {
      NoLongerName(b, a);
    } else {
      var n := |a.name|;
      assert Signature(a)[..n] == a.name && Signature(b)[..n] == b.name;
      assert Signature(a)[n + 1..] == a.input && Signature(b)[n + 1..] == b.input;
    }
  }

  lemma NoLongerName(a: ToolCall, b: ToolCall)
    requires JsonText(a.input) && JsonText(b.input) && |a.name| < |b.name|
    ensures Signature(a) != Signature(b)
  {
    if Signature(a) == Signature(b) {
      var x := b.name[|a.name| + 1..];
      assert a.input == Signature(b)[|a.name| + 1..];
      assert a.input == x + "|" + b.input;
      LexConcat(Outside, x + "|", b.input);
      LexConcat(Outside, x, "|");
      BadStaysBad(b.input);
      NotBothWays(b.input);
    }
  }

  // ------------------------------------------------------------------
  // Counting
  // ------------------------------------------------------------------

  // How often each signature occurs in a list of calls.
  ghost function Tally(calls: seq<ToolCall>): multiset<string> {
    if calls == [] then multiset{} else multiset{Signature(calls[0])} + Tally(calls[1..])
  }

  // No signature has been seen often enough to trip the guard.
  ghost predicate Calm(m: multiset<string>) { forall sig :: m[sig] < LOOP_BREAK_REPEATS }

  datatype Verdict = Pass | Trip(name: string, count: nat)

  // Counting calls on top of m, one after the other, up to the first that
  // reaches the limit.
  ghost function Scan(m: multiset<string>, calls: seq<ToolCall>): (multiset<string>, Verdict)
    decreases |calls|
  {
    if calls == [] then (m, Pass)
    else
      var sig := Signature(calls[0]);
      var m' := m + multiset{sig};
      if m'[sig] >= LOOP_BREAK_REPEATS then (m', Trip(calls[0].name, m'[sig])) else Scan(m', calls[1..])
  }

  // The guard trips exactly when some call, counted with all earlier calls of the
  // turn, has been issued three times; otherwise it has counted every call.
  lemma {:induction false} TripsIffRepeated(m: multiset<string>, calls: seq<ToolCall>)
    requires Calm(m)
    ensures Scan(m, calls).1.Pass? <==> Calm(m + Tally(calls))
    ensures Scan(m, calls).1.Pass? ==> Scan(m, calls).0 == m + Tally(calls)
    decreases |calls|
  {
    if calls == [] {
      assert m + Tally(calls) == m;
    } else {
      var sig := Signature(calls[0]);
      var m' := m + multiset{sig};
      assert m + Tally(calls) == m' + Tally(calls[1..]);
      if m'[sig] >= LOOP_BREAK_REPEATS {
        assert (m + Tally(calls))[sig] >= LOOP_BREAK_REPEATS;
      } else {
        assert Calm(m');
        TripsIffRepeated(m', calls[1..]);
      }
    }
  }

  // When it trips, it stops right at the third occurrence and names that call.
  lemma {:induction false} TripPoint(m: multiset<string>, calls: seq<ToolCall>) returns (k: nat)
    requires Calm(m) && Scan(m, calls).1.Trip?
    ensures k < |calls| && StopsAt(m, calls, k)
    decreases |calls|
  {
    var sig := Signature(calls[0]);
    var m' := m + multiset{sig};
    if m'[sig] >= LOOP_BREAK_REPEATS {
      k := 0;
      TallyPrefix(m, calls, 0);
    } else {
      assert Calm(m');
      var j := TripPoint(m', calls[1..]);
      k := j + 1;
      StopsLater(m, calls, j);
    }
  }

  // The limit in figures: a batch passes exactly if nothing comes up a third time, and
  // otherwise the guard names a call that has come up three times.
  lemma ThirdTrips(m: multiset<string>, calls: seq<ToolCall>)
    requires forall sig :: m[sig] <= 2
    ensures Scan(m, calls).1.Pass? <==> forall sig :: (m + Tally(calls))[sig] <= 2
    ensures Scan(m, calls).1.Trip? ==>
              && Scan(m, calls).1.count == 3
              && exists k :: 0 <= k < |calls| && calls[k].name == Scan(m, calls).1.name
                             && (m + Tally(calls[..k + 1]))[calls[k].name + "|" + calls[k].input] == 3
  {
    assert Calm(m);
    TripsIffRepeated(m, calls);
    assert Calm(m + Tally(calls)) <==> forall sig :: (m + Tally(calls))[sig] <= 2;
    if Scan(m, calls).1.Trip? {
      var k := TripPoint(m, calls);
      assert (m + Tally(calls[..k + 1]))[Signature(calls[k])] == 3;
    }
  }

  lemma StopsLater(m: multiset<string>, calls: seq<ToolCall>, j: nat)
    requires j + 1 < |calls|
    requires var m' := m + multiset{Signature(calls[0])};
             m'[Signature(calls[0])] < LOOP_BREAK_REPEATS && StopsAt(m', calls[1..], j)
    ensures StopsAt(m, calls, j + 1)
  {
    TallyPrefix(m, calls, j);
    TallyPrefix(m, calls, j + 1);
  }

  // Call k is the third of its kind, and no earlier one was.
  ghost predicate StopsAt(m: multiset<string>, calls: seq<ToolCall>, k: nat)
    requires k < |calls|
  {
    var (m', verdict) := Scan(m, calls);
    && verdict == Trip(calls[k].name, LOOP_BREAK_REPEATS)
    && m' == m + Tally(calls[..k + 1])
    && m'[Signature(calls[k])] == LOOP_BREAK_REPEATS
    && Calm(m + Tally(calls[..k]))
  }

  lemma TallyPrefix(m: multiset<string>, calls: seq<ToolCall>, k: nat)
    requires k < |calls|
    ensures m + Tally(calls[..k + 1]) == m + multiset{Signature(calls[0])} + Tally(calls[1..][..k])
    ensures k == 0 ==> m + Tally(calls[..k]) == m && Tally(calls[1..][..k]) == multiset{}
  {
    assert calls[..k + 1][1..] == calls[1..][..k];
  }

  lemma {:induction false} TallyConcat(a: seq<ToolCall>, b: seq<ToolCall>)
    ensures Tally(a + b) == Tally(a) + Tally(b)
  {
    if a == [] {
      assert a + b == b;
    } else {
      assert (a + b)[1..] == a[1..] + b;
      TallyConcat(a[1..], b);
    }
  }

  lemma {:induction false} TallySize(calls: seq<ToolCall>)
    ensures |Tally(calls)| == |calls|
  {
    if calls != [] {
      TallySize(calls[1..]);
    }
  }

  // Pigeonhole: a calm history of d distinct calls has at most 2d calls.
  lemma {:induction false} CalmIsShort(m: multiset<string>, kinds: set<string>)
    requires Calm(m) && forall sig :: sig in m ==> sig in kinds
    ensures |m| <= 2 * |kinds|
    decreases kinds
  {
    if kinds == {} {
      assert m == multiset{};
    } else {
      var sig :| sig in kinds;
      var rest := m[sig := 0];
      assert |m| == |rest| + m[sig];
      CalmIsShort(rest, kinds - {sig});
    }
  }

  function CallsOf(results: seq<ToolResult>): (calls: seq<ToolCall>)
    ensures |calls| == |results| && forall i :: 0 <= i < |calls| ==> calls[i] == results[i].call
  {
    seq(|results|, i requires 0 <= i < |results| => results[i].call)
  }

  class LoopGuard {
    var seen: map<string, nat>
    // The signatures counted so far.
    ghost var recorded: multiset<string>

    // The map holds the multiplicities of the recorded signatures, and nothing else.
    ghost predicate Valid()
      reads this
    {
      forall sig :: (sig in seen <==> sig in recorded) && (sig in seen ==> seen[sig] == recorded[sig])
    }

    constructor ()
      ensures Valid() && recorded == multiset{}
    {
      seen := map[];
      recorded := multiset{};
    }

    // record: counts one batch, and stops at the first call that trips the guard.
    method Record(results: seq<ToolResult>) returns (tripped: bool, name: string, count: nat)
      requires Valid()
      modifies this
      ensures Valid()
      ensures (recorded, if tripped then Trip(name, count) else Pass) == Scan(old(recorded), CallsOf(results))
      ensures !tripped ==> name == "" && count == 0
    {
      ghost var calls := CallsOf(results);
      var i := 0;
      while i < |results|
        invariant 0 <= i <= |results|
        invariant Valid()
        invariant Scan(recorded, calls[i..]) == Scan(old(recorded), calls)
      {
        var sig := Signature(results[i].call);
        assert calls[i..][0] == calls[i] && calls[i..][1..] == calls[i + 1..];
        seen := seen[sig := (if sig in seen then seen[sig] else 0) + 1];
        recorded := recorded + multiset{sig};
        if seen[sig] >= LOOP_BREAK_REPEATS {
          return true, results[i].call.name, seen[sig];
        }
        i := i + 1;
      }
      return false, "", 0;
    }
  }
}
