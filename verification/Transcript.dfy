// The appended message log of one turn, told as a sequence of events: notes,
// model requests, and rounds of tool calls with their results.
module Transcript {
  import opened Provider
  import opened ToolExecutor
  import opened ToolNames
  import opened LoopGuards
  import Text

  datatype Message =
    | Note(role: Role, content: string)                     // user, system, plan, nudge, ...
    | Assistant(content: string, calls: seq<ToolCall>)
    | ToolAnswer(id: string, content: string)               // role tool, one tool_result part

  // ------------------------------------------------------------------
  // Paired logs
  // ------------------------------------------------------------------

  predicate AnswersIn(msgs: seq<Message>, calls: seq<ToolCall>) {
    && |msgs| == |calls|
    && forall j :: 0 <= j < |calls| ==> msgs[j].ToolAnswer? && msgs[j].id == calls[j].id
  }

  // Every assistant message is followed by the answers to its calls, in order, and
  // there are no other answers.
  predicate Paired(log: seq<Message>)
    decreases |log|
  {
    log == [] ||
    match log[0]
    case Note(_, _) => Paired(log[1..])
    case ToolAnswer(_, _) => false
    case Assistant(_, calls) =>
      && |calls| < |log|
      && AnswersIn(log[1..1 + |calls|], calls)
      && Paired(log[1 + |calls|..])
  }

  // The same, position by position.
  ghost predicate PairedAt(log: seq<Message>, i: nat)
    requires i < |log|
  {
    match log[i]
    case Note(_, _) => i + 1 < |log| ==> !log[i + 1].ToolAnswer?
    case Assistant(_, calls) =>
      && i + |calls| < |log|
      && AnswersIn(log[i + 1..i + 1 + |calls|], calls)
      && (i + |calls| + 1 < |log| ==> !log[i + |calls| + 1].ToolAnswer?)
    case ToolAnswer(_, _) => i > 0
  }

  lemma {:induction false} PairedPointwise(log: seq<Message>)
    ensures Paired(log) <==> forall i: nat :: i < |log| ==> PairedAt(log, i)
    decreases |log|
  {
    if Paired(log) && log != [] {
      PairedForward(log);
    }
    if forall i: nat :: i < |log| ==> PairedAt(log, i) {
      PairedBackward(log);
    }
  }

  // How many messages the first entry of a paired log takes up.
  function Stride(log: seq<Message>): nat
    requires log != []
  {
    if log[0].Assistant? then 1 + |log[0].calls| else 1
  }

  // The condition at a position looks at the rest of the log only.
  lemma PairedAtShift(log: seq<Message>, n: nat, i: nat)
    requires n + i < |log|
    ensures i > 0 || !log[n].ToolAnswer? ==> (PairedAt(log, n + i) <==> PairedAt(log[n..], i))
  {
    var rest := log[n..];
    assert forall k :: 0 <= k < |rest| ==> rest[k] == log[n + k];
    if rest[i].Assistant? && i + |rest[i].calls| < |rest| {
      var c := |rest[i].calls|;
      assert rest[i + 1..i + 1 + c] == log[n + i + 1..n + i + 1 + c];
    }
  }

  lemma {:induction false} PairedForward(log: seq<Message>)
    requires Paired(log) && log != []
    ensures forall i: nat :: i < |log| ==> PairedAt(log, i)
    decreases |log|
  {
    var n := Stride(log);
    var rest := log[n..];
    if rest != [] {
      PairedForward(rest);
      assert PairedAt(rest, 0);
    }
    forall i: nat | i < |log| ensures PairedAt(log, i) {
      if i >= n {
        PairedAtShift(log, n, i - n);
        assert PairedAt(rest, i - n);
      } else {
        FirstPaired(log, i);
      }
    }
  }

  lemma FirstPaired(log: seq<Message>, i: nat)
    requires log != [] && Paired(log) && i < Stride(log)
    ensures PairedAt(log, i)
  {
    var n := Stride(log);
    if n < |log| {
      assert log[n..][0] == log[n];
    }
    if i > 0 {
      assert log[i] == log[1..n][i - 1];
    }
  }

  lemma {:induction false} PairedBackward(log: seq<Message>)
    requires forall i: nat :: i < |log| ==> PairedAt(log, i)
    ensures Paired(log)
    decreases |log|
  {
    if log != [] {
      assert PairedAt(log, 0);
      var n := Stride(log);
      forall i: nat | i < |log[n..]| ensures PairedAt(log[n..], i) {
        assert PairedAt(log, n + i);
        PairedAtShift(log, n, i);
      }
      PairedBackward(log[n..]);
    }
  }

  lemma {:induction false} PairedConcat(a: seq<Message>, b: seq<Message>)
    requires Paired(a) && Paired(b)
    ensures Paired(a + b)
    decreases |a|
  {
    if a == [] {
      assert a + b == b;
    } else {
      var n := Stride(a);
      var ab := a + b;
      PairedConcat(a[n..], b);
      assert ab[0] == a[0] && ab[n..] == a[n..] + b;
      if a[0].Assistant? {
        assert ab[1..n] == a[1..n];
      }
    }
  }

  // ------------------------------------------------------------------
  // Events
  // ------------------------------------------------------------------

  datatype Event =
    | Said(msg: Message)
    | Ask(flush: bool)          // a model request is built and sent
    | Round(content: string, calls: seq<ToolCall>, results: seq<ToolResult>, executed: seq<(nat, string)>)
    | FlushRound(content: string, calls: seq<ToolCall>, results: seq<ToolResult>)

  // The events of a turn so far.
  datatype Story = Start | Then(prev: Story, last: Event)

  function Answers(results: seq<ToolResult>): (msgs: seq<Message>)
    ensures |msgs| == |results|
    ensures forall i :: 0 <= i < |msgs| ==> msgs[i] == ToolAnswer(results[i].call.id, results[i].result)
  {
    seq(|results|, i requires 0 <= i < |results| => ToolAnswer(results[i].call.id, results[i].result))
  }

  function RenderEvent(e: Event): seq<Message> {
    match e
    case Said(msg) => [msg]
    case Ask(_) => []
    case Round(content, calls, results, _) => [Assistant(content, calls)] + Answers(results)
    case FlushRound(content, calls, results) => [Assistant(content, calls)] + Answers(results)
  }

  // The messages a turn has appended.
  function Render(t: Story): seq<Message> {
    match t
    case Start => []
    case Then(prev, e) => Render(prev) + RenderEvent(e)
  }

  // The message lists its model requests were built from, on top of the log it
  // started with.
  function Asked(base: seq<Message>, t: Story): seq<seq<Message>> {
    match t
    case Start => []
    case Then(prev, e) =>
      if e.Ask? then Asked(base, prev) + [base + Render(prev)] else Asked(base, prev)
  }

  function Asks(t: Story): nat {
    match t
    case Start => 0
    case Then(prev, e) => if e.Ask? then Asks(prev) + 1 else Asks(prev)
  }

  // Iterations of the loop.
  function LoopAsks(t: Story): nat {
    match t
    case Start => 0
    case Then(prev, e) => if e == Ask(false) then LoopAsks(prev) + 1 else LoopAsks(prev)
  }

  ghost predicate ResultsFor(calls: seq<ToolCall>, results: seq<ToolResult>) {
    |results| == |calls| && forall i :: 0 <= i < |results| ==> results[i].call == calls[i]
  }

  ghost predicate ShapedEvent(e: Event) {
    match e
    case Said(msg) => msg.Note?
    case Ask(_) => true
    case Round(_, calls, results, _) => ResultsFor(calls, results)
    case FlushRound(_, calls, results) => ResultsFor(calls, results)
  }

  ghost predicate Shaped(t: Story) { t.Start? || (Shaped(t.prev) && ShapedEvent(t.last)) }

  lemma RenderEventPaired(e: Event)
    requires ShapedEvent(e)
    ensures Paired(RenderEvent(e))
  {
    var msgs := RenderEvent(e);
    match e
    case Said(_) => assert msgs[1..] == [];
    case Ask(_) =>
    case Round(_, calls, results, _) =>
      assert msgs[1..1 + |calls|] == Answers(results);
      assert msgs[1 + |calls|..] == [];
    case FlushRound(_, calls, results) =>
      assert msgs[1..1 + |calls|] == Answers(results);
      assert msgs[1 + |calls|..] == [];
  }

  lemma {:induction false} RenderPaired(t: Story)
    requires Shaped(t)
    ensures Paired(Render(t))
  {
    if t.Then? {
      RenderPaired(t.prev);
      RenderEventPaired(t.last);
      PairedConcat(Render(t.prev), RenderEvent(t.last));
    }
  }

  lemma PairedOnto(base: seq<Message>, whole: seq<Message>)
    requires Paired(base) && base <= whole && Paired(whole[|base|..])
    ensures Paired(whole)
  {
    PairedConcat(base, whole[|base|..]);
    assert whole == base + whole[|base|..];
  }

  // No model request is built while a call is unanswered.
  lemma {:induction false} AskedPaired(base: seq<Message>, t: Story)
    requires Shaped(t)
    ensures |Asked(base, t)| == Asks(t)
    ensures forall i :: 0 <= i < |Asked(base, t)| ==>
              base <= Asked(base, t)[i] && Paired(Asked(base, t)[i][|base|..])
  {
    if t.Then? {
      AskedPaired(base, t.prev);
      if t.last.Ask? {
        RenderPaired(t.prev);
        assert (base + Render(t.prev))[|base|..] == Render(t.prev);
      }
    }
  }

  // ------------------------------------------------------------------
  // Budget
  // ------------------------------------------------------------------

  // Run and RunStream count executions over the whole turn; RunAutonomous starts a
  // fresh counter for every round.
  datatype Scope = WholeTurn | EachRound

  // MaxToolCallsPerUserTurn, and the text that answers a call beyond it.
  datatype Cap = Cap(max: int, refusal: string)

  // Tool calls really executed in budgeted rounds.
  function Spent(t: Story): nat {
    match t
    case Start => 0
    case Then(prev, e) => if e.Round? then Spent(prev) + |e.executed| else Spent(prev)
  }

  // Tool calls executed in memory flushes, which no counter sees.
  function FlushRun(t: Story): nat {
    match t
    case Start => 0
    case Then(prev, e) => if e.FlushRound? then FlushRun(prev) + |e.results| else FlushRun(prev)
  }

  // All of them.
  function Executed(t: Story): nat { Spent(t) + FlushRun(t) }

  // The calls the model asked for in budgeted rounds.
  function RoundCalls(t: Story): seq<ToolCall> {
    match t
    case Start => []
    case Then(prev, e) => if e.Round? then RoundCalls(prev) + e.calls else RoundCalls(prev)
  }

  // The budget counter before the next round.
  function Used(scope: Scope, cap: Cap, t: Story): nat {
    if scope.WholeTurn? && cap.max > 0 then Spent(t) else 0
  }

  ghost predicate RoundKept(cap: Cap, used: nat, e: Event)
    requires e.Round?
  {
    Outcome(Job(e.calls, cap.max, cap.refusal), used, used + (if cap.max > 0 then |e.executed| else 0),
            e.results, e.executed)
  }

  ghost predicate BudgetKept(scope: Scope, cap: Cap, t: Story) {
    t.Start? ||
    (BudgetKept(scope, cap, t.prev) && (t.last.Round? ==> RoundKept(cap, Used(scope, cap, t.prev), t.last)))
  }

  function Min(a: nat, b: nat): nat { if a <= b then a else b }

  // Over the rounds of a whole turn exactly the granted number of calls is executed,
  // split over rounds and executor paths in whatever way.
  lemma {:induction false} WholeTurnBudget(cap: Cap, t: Story)
    requires BudgetKept(WholeTurn, cap, t)
    ensures Spent(t) == if cap.max <= 0 then |RoundCalls(t)| else Min(cap.max, |RoundCalls(t)|)
  {
    if t.Then? {
      WholeTurnBudget(cap, t.prev);
    }
  }

  // The turn as a whole keeps the cap exactly if no flush executed a call, or all calls
  // together are no more than that.
  lemma TurnWithinCapIff(cap: Cap, t: Story)
    requires BudgetKept(WholeTurn, cap, t) && cap.max > 0
    ensures Executed(t) <= cap.max <==> FlushRun(t) == 0 || |RoundCalls(t)| + FlushRun(t) <= cap.max
  {
    WholeTurnBudget(cap, t);
  }

  // With a counter per round the cap holds for each round only.
  function CappedPerRound(max: int, t: Story): nat {
    match t
    case Start => 0
    case Then(prev, e) =>
      if e.Round? then CappedPerRound(max, prev) + Granted(max, 0, |e.calls|) else CappedPerRound(max, prev)
  }

  lemma {:induction false} EachRoundBudget(cap: Cap, t: Story)
    requires BudgetKept(EachRound, cap, t)
    ensures Spent(t) == CappedPerRound(cap.max, t)
  {
    if t.Then? {
      EachRoundBudget(cap, t.prev);
    }
  }

  // Rounds that ask for calls at all.
  function Askers(t: Story): nat {
    match t
    case Start => 0
    case Then(prev, e) => if e.Round? && e.calls != [] then Askers(prev) + 1 else Askers(prev)
  }

  lemma {:induction false} CappedSums(max: int, t: Story)
    requires max > 0
    ensures Askers(t) <= CappedPerRound(max, t) <= |RoundCalls(t)|
    ensures Askers(t) == 0 ==> |RoundCalls(t)| == 0
    ensures Askers(t) <= 1 ==> CappedPerRound(max, t) <= max
    ensures CappedPerRound(max, t) < |RoundCalls(t)| ==> CappedPerRound(max, t) >= max + Askers(t) - 1
  {
    if t.Then? {
      CappedSums(max, t.prev);
    }
  }

  // A run whose counter starts anew each round keeps the cap exactly if its rounds and
  // flushes together ask for no more calls than that, or no flush asks for any and at
  // most one round does.
  lemma WithinCapIff(cap: Cap, t: Story)
    requires BudgetKept(EachRound, cap, t) && cap.max > 0
    ensures Executed(t) <= cap.max <==>
            |RoundCalls(t)| + FlushRun(t) <= cap.max || (FlushRun(t) == 0 && Askers(t) <= 1)
  {
    EachRoundBudget(cap, t);
    CappedSums(cap.max, t);
  }

  // ------------------------------------------------------------------
  // What the model said, and what the guard counts
  // ------------------------------------------------------------------

  // The answer of the model to its n-th request, and the pseudo tool calls read
  // out of a plain text together with the text that is left.
  type Model = nat -> StreamOpen
  type Extractor = string -> (string, seq<ToolCall>)

  function Interpret(extract: Extractor, text: string, calls: seq<ToolCall>): (string, seq<ToolCall>) {
    if calls != [] then (text, calls)
    else
      var (rest, found) := extract(text);
      if found == [] then (text, []) else (rest, found)
  }

  function Shown(content: string, calls: seq<ToolCall>): string {
    if Text.IsBlank(content) && calls != [] then "[Activating tools...]" else content
  }

  // The calls of a reply after name resolution, or untouched without it.
  ghost predicate Resolved(resolve: bool, tools: map<string, ToolDef>, raw: seq<ToolCall>, calls: seq<ToolCall>) {
    && |calls| == |raw|
    && forall i :: 0 <= i < |calls| ==>
         if resolve then Renamed(tools, raw[i], calls[i]) else calls[i] == raw[i]
  }

  datatype Setting = Setting(model: Model, first: nat, extract: Extractor, world: nat -> World, resolve: bool,
                             tools: map<string, ToolDef>)

  // The reply to the latest request of t.
  function Reply(st: Setting, t: Story): Response
    requires Asks(t) > 0
  {
    Collect(st.model(st.first + Asks(t) - 1))
  }

  // The first request is answered by the model's reply number `first`, the next by the
  // one after it, and so on.
  lemma RepliesInOrder(st: Setting, s: Story, t: Story, n: nat)
    requires t.Then? && t.prev == s && t.last.Ask? && n == Asks(s)
    ensures Asks(t) == n + 1 && Reply(st, t) == Collect(st.model(st.first + n))
  {
  }

  // Each round directly follows a request, carries the calls of its reply, and has only
  // what tools answered to these calls.
  ghost predicate FollowsLast(st: Setting, t: Story, e: Event) {
    match e
    case Said(_) => true
    case Ask(_) => true
    case Round(content, calls, _, executed) =>
      && t.Then? && t.last == Ask(false)
      && Reply(st, t).Response?
      && (exists batch: nat :: Genuine(st.world(batch), calls, executed))
      && (var (text, raw) := Interpret(st.extract, Reply(st, t).text, Reply(st, t).calls);
          content == Shown(text, raw) && Resolved(st.resolve, st.tools, raw, calls))
    case FlushRound(content, calls, results) =>
      && t.Then? && t.last == Ask(true)
      && Reply(st, t).Response?
      && (forall r :: r in results ==> Answered(st.world, r))
      && content == Shown(Reply(st, t).text, Reply(st, t).calls) && calls == Reply(st, t).calls
  }

  // The result is what a tool answered to its call.
  ghost predicate Answered(world: nat -> World, r: ToolResult) {
    exists batch: nat :: AnswerOf(world(batch), r.call, r.result)
  }

  ghost predicate Follows(st: Setting, t: Story) {
    t.Start? || (Follows(st, t.prev) && FollowsLast(st, t.prev, t.last))
  }

  // ------------------------------------------------------------------
  // What a round says, in terms of the reply
  // ------------------------------------------------------------------

  // The text, or a placeholder if it is blank.
  ghost predicate TextOr(content: string, text: string) {
    content == if forall i :: 0 <= i < |text| ==> Text.IsSpace(text[i]) then "[Activating tools...]" else text
  }

  // The calls of the reply: ids and inputs stay, and a name becomes a resolution of it
  // where names are resolved.
  ghost predicate SameCalls(st: Setting, raw: seq<ToolCall>, calls: seq<ToolCall>) {
    && |calls| == |raw|
    && forall i :: 0 <= i < |calls| ==>
         && calls[i].id == raw[i].id && calls[i].input == raw[i].input
         && (if st.resolve then ResolvesTo(st.tools, raw[i].name, calls[i].name) else calls[i].name == raw[i].name)
  }

  // t is, or once was, the story r.
  ghost predicate Within(r: Story, t: Story) { r == t || (t.Then? && Within(r, t.prev)) }

  lemma {:induction false} FollowsWithin(st: Setting, r: Story, t: Story)
    requires Follows(st, t) && Within(r, t)
    ensures Follows(st, r)
  {
    if r != t {
      FollowsWithin(st, r, t.prev);
    }
  }

  // Every round of a turn answers a request that got a reply. With calls in the reply,
  // these are the round's, and its content is the reply's text unless that is blank.
  // Without, the round has the calls read out of the text, and as content what the reading
  // leaves of it unless that is blank; and if nothing is read out, the text exactly.
  lemma RoundSays(st: Setting, t: Story, r: Story)
    requires Follows(st, t) && Within(r, t) && r.Then? && r.last.Round?
    ensures Asks(r.prev) > 0 && r.prev.Then? && r.prev.last == Ask(false) && Reply(st, r.prev).Response?
    ensures var reply, round := Reply(st, r.prev), r.last;
            var left, found := st.extract(reply.text).0, st.extract(reply.text).1;
            && (reply.calls != [] ==> SameCalls(st, reply.calls, round.calls) && TextOr(round.content, reply.text))
            && (reply.calls == [] && found != [] ==> SameCalls(st, found, round.calls) && TextOr(round.content, left))
            && (reply.calls == [] && found == [] ==> round.calls == [] && round.content == reply.text)
  {
    FollowsWithin(st, r, t);
    assert FollowsLast(st, r.prev, r.last);
    Text.BlankIffAllSpace(Reply(st, r.prev).text);
    Text.BlankIffAllSpace(st.extract(Reply(st, r.prev).text).0);
  }

  // The round of a flush has the calls of its reply and no others.
  lemma FlushSays(st: Setting, t: Story, r: Story)
    requires Follows(st, t) && Within(r, t) && r.Then? && r.last.FlushRound?
    ensures Asks(r.prev) > 0 && r.prev.Then? && r.prev.last == Ask(true) && Reply(st, r.prev).Response?
    ensures var reply, round := Reply(st, r.prev), r.last;
            && round.calls == reply.calls
            && (reply.calls == [] ==> round.content == reply.text)
            && (reply.calls != [] ==> TextOr(round.content, reply.text))
  {
    FollowsWithin(st, r, t);
    assert FollowsLast(st, r.prev, r.last);
    Text.BlankIffAllSpace(Reply(st, r.prev).text);
  }

  // The distinct (name, input) signatures of a turn.
  ghost function Kinds(t: Story): set<string> { set sig | sig in Tally(RoundCalls(t)) }

  // A turn that the guard has let pass has at most two rounds per distinct call.
  lemma CalmTurnIsShort(t: Story, rounds: nat)
    requires Calm(Tally(RoundCalls(t))) && rounds <= |RoundCalls(t)|
    ensures rounds <= 2 * |Kinds(t)|
  {
    TallySize(RoundCalls(t));
    CalmIsShort(Tally(RoundCalls(t)), Kinds(t));
  }
}
