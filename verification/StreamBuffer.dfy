// internal/channels/buffer.go: tokens are grouped into chunks, sent at the end of a
// sentence, a paragraph or a thousand bytes, or by a timer that may fire late.
module StreamBuffers {
  import opened ByteStrings
  import opened Wrappers

  const NEWLINE: Byte := 10
  const SPACE: Byte := 32
  const MAX_HELD: nat := 1000

  predicate EndsSentence(b: Byte) { b == 46 || b == 33 || b == 63 }

  // shouldFlush
  predicate ShouldFlush(s: Bytes) {
    && s != []
    && var n := |s|;
       || (n >= 2 && s[n - 1] == NEWLINE && s[n - 2] == NEWLINE)
       || (n > 1 && (s[n - 1] == NEWLINE || s[n - 1] == SPACE) && EndsSentence(s[n - 2]))
       || n > MAX_HELD
  }

  // A text is due exactly if it ends with two newlines, or with '.', '!' or '?' before a
  // newline or a blank, or is longer than a thousand bytes.
  lemma DueIff(s: Bytes)
    ensures ShouldFlush(s) <==>
            || |s| > 1000
            || (|s| >= 2 && s[|s| - 1] == '\n' as int && s[|s| - 2] == '\n' as int)
            || (|s| >= 2 && (s[|s| - 1] == '\n' as int || s[|s| - 1] == ' ' as int)
                && (s[|s| - 2] == '.' as int || s[|s| - 2] == '!' as int || s[|s| - 2] == '?' as int))
  {
  }

  // Timers by number: those still running, and those that have fired and whose
  // callback waits for the mutex. Stopping a timer that has fired changes nothing.
  datatype Clock = Clock(made: nat, armed: set<nat>, pending: set<nat>) {
    function Start(): Clock { Clock(made + 1, armed + {made}, pending) }
    function Stop(id: nat): Clock { Clock(made, armed - {id}, pending) }
    function Fire(id: nat): Clock { Clock(made, armed - {id}, pending + {id}) }
    function Taken(id: nat): Clock { Clock(made, armed, pending - {id}) }
  }

  datatype State = State(buffer: Bytes, flushTimer: Option<nat>, clock: Clock, sent: seq<Bytes>)

  const INIT := State([], None, Clock(0, {}, {}), [])

  // ------------------------------------------------------------------
  // The operations, each of which runs under the mutex
  // ------------------------------------------------------------------

  function Flushed(s: State): State {
    if s.buffer == [] then s
    else State([], None, if s.flushTimer.Some? then s.clock.Stop(s.flushTimer.value) else s.clock, s.sent + [s.buffer])
  }

  function Pushed(s: State, token: Bytes): State {
    var t := s.(buffer := s.buffer + token);
    if ShouldFlush(t.buffer) then Flushed(t)
    else if t.flushTimer.None? then t.(flushTimer := Some(t.clock.made), clock := t.clock.Start())
    else t
  }

  class StreamingBuffer {
    const target: Bytes -> bool
    var buffer: Bytes
    var flushTimer: Option<nat>
    var clock: Clock
    var sent: seq<Bytes>

    ghost function View(): State
      reads this
    {
      State(buffer, flushTimer, clock, sent)
    }

    constructor (target: Bytes -> bool)
      ensures View() == INIT && this.target == target
    {
      this.target := target;
      buffer, flushTimer, clock, sent := [], None, Clock(0, {}, {}), [];
    }

    // flushLocked; the result is false for the target's error.
    method FlushLocked() returns (ok: bool)
      modifies this
      ensures View() == Flushed(old(View()))
      ensures ok == (old(buffer) == [] || target(old(buffer)))
    {
      var content := buffer;
      if content == [] {
        return true;
      }
      buffer := [];
      if flushTimer.Some? {
        clock := clock.Stop(flushTimer.value);
        flushTimer := None;
      }
      sent := sent + [content];
      return target(content);
    }

    method Push(token: Bytes) returns (ok: bool)
      modifies this
      ensures View() == Pushed(old(View()), token)
      ensures ok == (!ShouldFlush(old(buffer) + token) || target(old(buffer) + token))
    {
      buffer := buffer + token;
      if ShouldFlush(buffer) {
        ok := FlushLocked();
        return;
      }
      if flushTimer.None? {
        flushTimer := Some(clock.made);
        clock := clock.Start();
      }
      return true;
    }

    // The function a timer runs, once it has the mutex.
    method TimerCallback(id: nat)
      requires id in clock.pending
      modifies this
      ensures View() == Step(old(View()), Callback(id))
    {
      clock := clock.Taken(id);
      var _ := FlushLocked();
    }

    method Done() returns (ok: bool)
      modifies this
      ensures View() == Flushed(old(View()))
      ensures ok == (old(buffer) == [] || target(old(buffer)))
    {
      ok := FlushLocked();
    }
  }

  // ------------------------------------------------------------------
  // Runs
  // ------------------------------------------------------------------

  datatype Action = Push(token: Bytes) | Fire(id: nat) | Callback(id: nat) | Done

  predicate Enabled(s: State, a: Action) {
    match a
    case Push(_) => true
    case Fire(id) => id in s.clock.armed
    case Callback(id) => id in s.clock.pending
    case Done => true
  }

  function Step(s: State, a: Action): State {
    match a
    case Push(token) => Pushed(s, token)
    case Fire(id) => s.(clock := s.clock.Fire(id))
    case Callback(id) => Flushed(s.(clock := s.clock.Taken(id)))
    case Done => Flushed(s)
  }

  datatype Run = Begin | Then(before: Run, last: Action)

  function After(s: State, r: Run): State {
    match r
    case Begin => s
    case Then(before, a) => Step(After(s, before), a)
  }

  predicate Possible(s: State, r: Run) {
    r.Then? ==> Possible(s, r.before) && Enabled(After(s, r.before), r.last)
  }

  // No empty token is pushed onto an empty buffer.
  predicate Careful(s: State, r: Run) {
    r.Then? ==> Careful(s, r.before) && !Idle(After(s, r.before), r.last)
  }

  predicate Idle(s: State, a: Action) { a == Push([]) && s.buffer == [] }

  // ------------------------------------------------------------------
  // Invariants
  // ------------------------------------------------------------------

  // In every state: no chunk is empty, what is held is not due and at most a thousand
  // bytes, it has had a timer, and the only timer running is the current one.
  predicate Inv(s: State) {
    && (forall i :: 0 <= i < |s.sent| ==> s.sent[i] != [])
    && !ShouldFlush(s.buffer) && |s.buffer| <= MAX_HELD
    && (s.buffer != [] ==> s.flushTimer.Some?)
    && (forall id :: id in s.clock.armed ==> s.flushTimer == Some(id) && id !in s.clock.pending)
    && (forall id :: id in s.clock.pending ==> id < s.clock.made)
    && (s.flushTimer.Some? ==> s.flushTimer.value < s.clock.made)
  }

  // Something will still flush the buffer.
  predicate Attended(s: State) { s.buffer != [] ==> s.clock.armed != {} || s.clock.pending != {} }

  // A timer is set exactly while there is something to flush, and it is on its way.
  predicate Live(s: State) {
    && (s.flushTimer.Some? <==> s.buffer != [])
    && (s.flushTimer.Some? ==> s.flushTimer.value in s.clock.armed + s.clock.pending)
  }

  lemma StepKeepsInv(s: State, a: Action)
    requires Inv(s) && Enabled(s, a)
    ensures Inv(Step(s, a))
  {
    match a
    case Push(token) =>
      var t := s.(buffer := s.buffer + token);
      if ShouldFlush(t.buffer) {
        FlushKeepsInv(t);
      }
    case Fire(id) =>
    case Callback(id) => FlushKeepsInv(s.(clock := s.clock.Taken(id)));
    case Done => FlushKeepsInv(s);
  }

  lemma FlushKeepsInv(s: State)
    requires Inv(s.(buffer := []))
    ensures Inv(Flushed(s))
  {
  }

  lemma StepKeepsLive(s: State, a: Action)
    requires Inv(s) && Live(s) && Enabled(s, a)
    ensures Live(Step(s, a)) <==> !Idle(s, a)
  {
  }

  lemma {:induction false} RunKeepsInv(s: State, r: Run)
    requires Inv(s) && Possible(s, r)
    ensures Inv(After(s, r))
  {
    if r.Then? {
      RunKeepsInv(s, r.before);
      StepKeepsInv(After(s, r.before), r.last);
    }
  }

  lemma {:induction false} RunKeepsLive(s: State, r: Run)
    requires Inv(s) && Live(s) && Possible(s, r) && Careful(s, r)
    ensures Live(After(s, r)) && Attended(After(s, r))
  {
    if r.Then? {
      RunKeepsInv(s, r.before);
      RunKeepsLive(s, r.before);
      StepKeepsLive(After(s, r.before), r.last);
    }
  }

  // Under every interleaving of pushes, timers and Done: no empty chunk, at most a
  // thousand bytes held, at most one timer running; and while no empty token meets an
  // empty buffer, a buffer with something in it has a timer or a callback to come.
  lemma EveryRun(r: Run)
    requires Possible(INIT, r)
    ensures Inv(After(INIT, r))
    ensures var s := After(INIT, r);
            (forall i :: 0 <= i < |s.sent| ==> s.sent[i] != []) && |s.buffer| <= 1000 && !ShouldFlush(s.buffer)
    ensures Careful(INIT, r) ==> Attended(After(INIT, r))
  {
    RunKeepsInv(INIT, r);
    if Careful(INIT, r) {
      RunKeepsLive(INIT, r);
    }
  }

  // ------------------------------------------------------------------
  // The empty token
  // ------------------------------------------------------------------

  // Every push of the run has something in it.
  predicate NoEmptyPush(r: Run) {
    r.Then? ==> NoEmptyPush(r.before) && r.last != Push([])
  }

  lemma {:induction false} NoEmptyPushIsCareful(s: State, r: Run)
    requires NoEmptyPush(r)
    ensures Careful(s, r)
  {
    if r.Then? {
      NoEmptyPushIsCareful(s, r.before);
    }
  }

  // Callbacks that find the buffer empty change nothing else.
  lemma {:induction false} DrainIdle(s: State) returns (r: Run)
    requires s.buffer == []
    ensures Possible(s, r) && NoEmptyPush(r)
    ensures After(s, r) == s.(clock := Clock(s.clock.made, s.clock.armed, {}))
    decreases |s.clock.pending|
  {
    r := Begin;
    var left := s.clock.pending;
    while left != {}
      invariant left <= s.clock.pending
      invariant Possible(s, r) && NoEmptyPush(r)
      invariant After(s, r) == s.(clock := Clock(s.clock.made, s.clock.armed, left))
      decreases |left|
    {
      var id :| id in left;
      r := Then(r, Callback(id));
      left := left - {id};
    }
  }

  // After the empty token the timer fires on nothing and is never cleared, so the next
  // token finds it set and starts none.
  lemma EmptyTokenStarves(s: State) returns (r: Run)
    requires Inv(s) && Live(s) && s.buffer == []
    ensures var t := Pushed(s, []);
            Possible(t, r) && NoEmptyPush(r) && !Attended(After(t, r))
  {
    var t := Pushed(s, []);
    var id := s.clock.made;
    assert s.buffer + [] == [];
    assert s.clock.armed == {};
    assert t.flushTimer == Some(id) && t.clock.armed == {id} && t.buffer == [];
    r := DrainIdle(t);
    var fired := Then(r, Fire(id));
    assert After(t, fired).clock == Clock(t.clock.made, {}, {id});
    var ran := Then(fired, Callback(id));
    assert After(t, ran) == t.(clock := Clock(t.clock.made, {}, {}));
    r := Then(ran, Push([97]));
    assert After(t, r).buffer == [97];
  }

  // From a sound state, pushing a token can lead to an unattended buffer, with no
  // other empty token involved, exactly if the token and the buffer are both empty.
  lemma StarvesIffIdle(s: State, token: Bytes)
    requires Inv(s) && Live(s)
    ensures (exists r :: NoEmptyPush(r) && Possible(Pushed(s, token), r) && !Attended(After(Pushed(s, token), r)))
            <==> token == [] && s.buffer == []
  {
    if token == [] && s.buffer == [] {
      var r := EmptyTokenStarves(s);
    } else {
      var t := Pushed(s, token);
      StepKeepsInv(s, Push(token));
      StepKeepsLive(s, Push(token));
      forall r | NoEmptyPush(r) && Possible(t, r) ensures Attended(After(t, r)) {
        NoEmptyPushIsCareful(t, r);
        RunKeepsLive(t, r);
      }
    }
  }

  // An unattended buffer stays so under any tokens that do not end a sentence: only
  // Done or such an end sends it.
  lemma StarvedStays(s: State, a: Action)
    requires Inv(s) && !Attended(s) && Enabled(s, a)
    ensures Attended(Step(s, a)) <==> a == Done || (a.Push? && ShouldFlush(s.buffer + a.token))
    ensures Attended(Step(s, a)) ==> Step(s, a).buffer == []
  {
  }

  // ------------------------------------------------------------------
  // What is sent
  // ------------------------------------------------------------------

  function Flat(tokens: seq<Bytes>): Bytes {
    if tokens == [] then [] else Flat(tokens[..|tokens| - 1]) + tokens[|tokens| - 1]
  }

  function Ungrouped(groups: seq<seq<Bytes>>): seq<Bytes> {
    if groups == [] then [] else Ungrouped(groups[..|groups| - 1]) + groups[|groups| - 1]
  }

  // The tokens of a run.
  function Tokens(r: Run): seq<Bytes> {
    match r
    case Begin => []
    case Then(before, a) => if a.Push? then Tokens(before) + [a.token] else Tokens(before)
  }

  // The tokens each chunk is made of, and those still held.
  datatype History = History(groups: seq<seq<Bytes>>, open: seq<Bytes>)

  function Closed(h: History): History { History(h.groups + [h.open], []) }

  function Chronicle(r: Run): History {
    match r
    case Begin => History([], [])
    case Then(before, a) =>
      var h, s := Chronicle(before), After(INIT, before);
      match a
      case Push(token) =>
        var g := h.(open := h.open + [token]);
        if ShouldFlush(s.buffer + token) then Closed(g) else g
      case Fire(_) => h
      case _ => if s.buffer == [] then h else Closed(h)
  }

  // No break comes before the last token.
  predicate Unbroken(tokens: seq<Bytes>, upTo: nat) {
    forall k :: 0 <= k < upTo && k <= |tokens| ==> !ShouldFlush(Flat(tokens[..k]))
  }

  predicate Tracks(s: State, h: History) {
    && |h.groups| == |s.sent|
    && (forall i :: 0 <= i < |s.sent| ==> s.sent[i] == Flat(h.groups[i]) && Unbroken(h.groups[i], |h.groups[i]|))
    && s.buffer == Flat(h.open) && Unbroken(h.open, |h.open| + 1)
  }

  lemma FlatSnoc(tokens: seq<Bytes>, token: Bytes)
    ensures Flat(tokens + [token]) == Flat(tokens) + token
  {
    assert (tokens + [token])[..|tokens|] == tokens;
  }

  lemma UnbrokenSnoc(tokens: seq<Bytes>, token: Bytes)
    requires Unbroken(tokens, |tokens| + 1)
    ensures Unbroken(tokens + [token], |tokens| + 1)
    ensures !ShouldFlush(Flat(tokens + [token])) ==> Unbroken(tokens + [token], |tokens| + 2)
  {
    var all := tokens + [token];
    assert all[..|all|] == all;
    forall k | 0 <= k <= |tokens| ensures all[..k] == tokens[..k] {
    }
  }

  // Each chunk is the text of a run of tokens, in order and whole; of a chunk's tokens
  // all but the last reach no break, so that none was sent late; and the chunks' tokens
  // followed by those held are exactly the tokens pushed.
  lemma {:induction false} ChunksAreTokens(r: Run)
    requires Possible(INIT, r)
    ensures Tracks(After(INIT, r), Chronicle(r))
    ensures Ungrouped(Chronicle(r).groups) + Chronicle(r).open == Tokens(r)
  {
    if r.Then? {
      var h, s := Chronicle(r.before), After(INIT, r.before);
      ChunksAreTokens(r.before);
      match r.last
      case Push(token) =>
        PushTracks(s, h, token);
        assert Ungrouped(h.groups) + (h.open + [token]) == Tokens(r);
        UngroupedClosed(h.(open := h.open + [token]));
      case Fire(id) =>
      case Callback(id) =>
        UngroupedClosed(h);
        FlushTracks(s.(clock := s.clock.Taken(id)), h);
      case Done =>
        UngroupedClosed(h);
        FlushTracks(s, h);
    } else {
      assert Flat([][..0]) == [];
    }
  }

  lemma FlushTracks(s: State, h: History)
    requires Tracks(s, h)
    ensures Tracks(Flushed(s), if s.buffer == [] then h else Closed(h))
  {
    assert Unbroken([], 1);
    assert Unbroken(h.open, |h.open|);
  }

  lemma PushTracks(s: State, h: History, token: Bytes)
    requires Tracks(s, h)
    ensures var g := h.(open := h.open + [token]);
            Tracks(Pushed(s, token), if ShouldFlush(s.buffer + token) then Closed(g) else g)
  {
    FlatSnoc(h.open, token);
    UnbrokenSnoc(h.open, token);
    assert Unbroken([], 1);
  }

  lemma UngroupedClosed(h: History)
    ensures Ungrouped(Closed(h).groups) + Closed(h).open == Ungrouped(h.groups) + h.open
  {
    assert Closed(h).groups[..|h.groups|] == h.groups;
  }

  lemma {:induction false} FlatPlus(a: seq<Bytes>, b: seq<Bytes>)
    ensures Flat(a + b) == Flat(a) + Flat(b)
  {
    if b == [] {
      assert a + b == a;
    } else {
      var c := b[..|b| - 1];
      assert a + b == (a + c) + [b[|b| - 1]];
      FlatSnoc(a + c, b[|b| - 1]);
      FlatPlus(a, c);
    }
  }

  lemma {:induction false} FlatGroups(sent: seq<Bytes>, groups: seq<seq<Bytes>>)
    requires |sent| == |groups| && forall i :: 0 <= i < |sent| ==> sent[i] == Flat(groups[i])
    ensures Flat(sent) == Flat(Ungrouped(groups))
  {
    if groups != [] {
      var n := |groups| - 1;
      FlatGroups(sent[..n], groups[..n]);
      FlatPlus(Ungrouped(groups[..n]), groups[n]);
    }
  }

  // Nothing is lost, repeated or reordered: the chunks followed by the buffer are the
  // tokens pushed, empty ones and late callbacks or not; after Done all of it is sent.
  lemma NothingLost(r: Run)
    requires Possible(INIT, r)
    ensures Flat(After(INIT, r).sent) + After(INIT, r).buffer == Flat(Tokens(r))
    ensures Possible(INIT, Then(r, Done)) && Flat(After(INIT, Then(r, Done)).sent) == Flat(Tokens(r))
  {
    var s, h := After(INIT, r), Chronicle(r);
    ChunksAreTokens(r);
    FlatGroups(s.sent, h.groups);
    FlatPlus(Ungrouped(h.groups), h.open);
    FlatSnoc(s.sent, s.buffer);
  }

  // Two steps at most send what is held: the timer fires, if it has not, and its
  // callback runs.
  lemma TimerSends(r: Run) returns (more: Run)
    requires Possible(INIT, r) && Careful(INIT, r)
    ensures Possible(INIT, more) && Tokens(more) == Tokens(r)
    ensures more == r || (exists a :: more == Then(r, a)) || exists a, b :: more == Then(Then(r, a), b)
    ensures Flat(After(INIT, more).sent) == Flat(Tokens(r))
  {
    var s := After(INIT, r);
    RunKeepsInv(INIT, r);
    RunKeepsLive(INIT, r);
    more := r;
    if s.buffer != [] {
      var id := s.flushTimer.value;
      if id in s.clock.armed {
        more := Then(more, Fire(id));
      }
      more := Then(more, Callback(id));
    }
    NothingLost(more);
  }
}
