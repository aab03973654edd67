// internal/agent/runner.go (Run, RunStream, doFlush) and runner_auto.go
// (RunAutonomous): the three drivers of the tool-use loop.
module AgentRunner {
  import opened Wrappers
  import opened Provider
  import opened ToolExecutor
  import opened ToolNames
  import opened LoopGuards
  import opened Transcript
  import opened TurnShapes
  import Text

  const MAX_AUTO_ITERATIONS: nat := 500
  const COMPLETED := "Autonomous goal completed."

  datatype RunResult =
    | Done(response: string, iterations: nat)
    | LoopBreak(tool: string, count: nat, iterations: nat)
    | StreamFailed(error: string, iterations: nat)
    | Exhausted(iterations: nat)

  datatype Config = Config(maxIterations: int, cap: Cap)

  // ------------------------------------------------------------------
  // How turns end
  // ------------------------------------------------------------------

  function Bound(maxIterations: int): nat { if maxIterations < 0 then 0 else maxIterations }

  // Call k of the round is the third of its kind, and names the culprit.
  ghost predicate BreaksAt(before: seq<ToolCall>, calls: seq<ToolCall>, k: nat, tool: string)
    requires k < |calls|
  {
    && calls[k].name == tool
    && (Tally(before) + Tally(calls[..k + 1]))[Signature(calls[k])] == LOOP_BREAK_REPEATS
  }

  // Every round so far had calls.
  ghost predicate Busy(t: Story) { t.Start? || (Busy(t.prev) && (t.last.Round? ==> t.last.calls != [])) }

  // The end of a Run or RunStream turn with story t.
  ghost predicate TurnEnd(st: Setting, maxIterations: int, t: Story, res: RunResult) {
    && t.Then? && Busy(t.prev)
    && res.iterations == LoopAsks(t) <= Bound(maxIterations)
    && res.iterations <= 2 * |Kinds(t)| + 1
    && match res
       case Done(response, _) =>
         t.last.Round? && t.last.calls == [] && t.last.content == response && Calm(Tally(RoundCalls(t)))
       case LoopBreak(tool, count, _) =>
         && t.last.Round? && count == LOOP_BREAK_REPEATS
         && Calm(Tally(RoundCalls(t.prev)))
         && exists k :: 0 <= k < |t.last.calls| && BreaksAt(RoundCalls(t.prev), t.last.calls, k, tool)
       case StreamFailed(error, _) =>
         && t.last == Ask(false) && Reply(st, t) == StreamError(error)
         && Calm(Tally(RoundCalls(t)))
       case Exhausted(iterations) =>
         iterations == Bound(maxIterations) && Calm(Tally(RoundCalls(t))) && Busy(t)
  }

  ghost predicate Unfinished(t: Story) { t.Start? || (Unfinished(t.prev) && !CallsTool(t.last, FINISH_TASK)) }

  // The end of an autonomous run.
  ghost predicate AutoEnd(st: Setting, t: Story, res: RunResult) {
    && res.iterations == LoopAsks(t) <= MAX_AUTO_ITERATIONS
    && match res
       case Done(_, _) => t.Then? && Unfinished(t.prev) && CallsTool(t.last, FINISH_TASK)
       case LoopBreak(_, _, _) => false
       case StreamFailed(error, _) =>
         t.Then? && t.last == Ask(false) && Unfinished(t) && Reply(st, t) == StreamError(error)
       case Exhausted(iterations) => iterations == MAX_AUTO_ITERATIONS && Unfinished(t)
  }

  // The limits in figures: a call repeated three times, and five hundred iterations.
  lemma EndsSay(st: Setting, maxIterations: int, t: Story, res: RunResult)
    ensures TurnEnd(st, maxIterations, t, res) && res.LoopBreak? ==>
              res.count == 3 && exists i :: 0 <= i < |t.last.calls| && t.last.calls[i].name == res.tool
    ensures TurnEnd(st, maxIterations, t, res) && res.Exhausted? ==>
              res.iterations == if maxIterations < 0 then 0 else maxIterations
    ensures AutoEnd(st, t, res) && res.Exhausted? ==> res.iterations == 500
    ensures AutoEnd(st, t, res) && res.Done? ==>
              t.Then? && t.last.Round? && exists i :: 0 <= i < |t.last.calls| && t.last.calls[i].name == "finish_task"
  {
  }

  // ------------------------------------------------------------------
  // Accounts of a turn
  // ------------------------------------------------------------------

  // The accounts of an interactive turn that is still going.
  ghost predicate Going(cap: Cap, t: Story, iterations: nat, used: int) {
    && BudgetKept(WholeTurn, cap, t)
    && used == Used(WholeTurn, cap, t)
    && iterations == LoopAsks(t) <= |RoundCalls(t)|
    && Calm(Tally(RoundCalls(t)))
    && Busy(t)
  }

  lemma {:induction false} GoingQuietly(cap: Cap, s: Story, t: Story, iterations: nat, used: int)
    requires Going(cap, s, iterations, used) && QuietSince(s, t)
    ensures Going(cap, t, iterations, used) && RoundCalls(t) == RoundCalls(s)
    decreases t
  {
    if t != s {
      GoingQuietly(cap, s, t.prev, iterations, used);
    }
  }

  lemma BudgetRound(cap: Cap, s: Story, round: Event)
    requires BudgetKept(WholeTurn, cap, s) && round.Round? && RoundKept(cap, Used(WholeTurn, cap, s), round)
    ensures BudgetKept(WholeTurn, cap, Then(Then(s, Ask(false)), round))
  {
  }

  // One iteration that asks for calls and is passed by the guard.
  lemma GoingRound(cap: Cap, s: Story, round: Event, iterations: nat, used: int)
    requires Going(cap, s, iterations, used)
    requires round.Round? && round.calls != [] && RoundKept(cap, Used(WholeTurn, cap, s), round)
    requires Calm(Tally(RoundCalls(s)) + Tally(round.calls))
    ensures Going(cap, Then(Then(s, Ask(false)), round), iterations + 1,
                  used + if cap.max > 0 then |round.executed| else 0)
  {
    var asked := Then(s, Ask(false));
    var t := Then(asked, round);
    BudgetRound(cap, s, round);
    TallyConcat(RoundCalls(s), round.calls);
    assert RoundCalls(asked) == RoundCalls(s) && LoopAsks(asked) == iterations + 1 && Busy(asked);
    assert RoundCalls(t) == RoundCalls(s) + round.calls && LoopAsks(t) == iterations + 1 && Busy(t);
  }

  // A round without calls ends the turn.
  lemma EndsDone(st: Setting, maxIterations: int, s: Story, round: Event, iterations: nat)
    requires Busy(s) && iterations == LoopAsks(s) <= |RoundCalls(s)| && Calm(Tally(RoundCalls(s)))
    requires iterations + 1 <= Bound(maxIterations)
    requires round.Round? && round.calls == []
    ensures TurnEnd(st, maxIterations, Then(Then(s, Ask(false)), round), Done(round.content, iterations + 1))
  {
    CalmTurnIsShort(s, iterations);
    assert RoundCalls(Then(Then(s, Ask(false)), round)) == RoundCalls(s);
  }

  // A call issued for the third time ends the turn.
  lemma EndsBroken(st: Setting, maxIterations: int, s: Story, round: Event, iterations: nat, name: string, count: nat)
    requires Busy(s) && iterations == LoopAsks(s) <= |RoundCalls(s)| && Calm(Tally(RoundCalls(s)))
    requires iterations + 1 <= Bound(maxIterations)
    requires round.Round? && Scan(Tally(RoundCalls(s)), round.calls).1 == Trip(name, count)
    ensures TurnEnd(st, maxIterations, Then(Then(s, Ask(false)), round), LoopBreak(name, count, iterations + 1))
  {
    CalmTurnIsShort(s, iterations);
    var k := TripPoint(Tally(RoundCalls(s)), round.calls);
    assert BreaksAt(RoundCalls(s), round.calls, k, name);
    MoreKinds(s, Then(Then(s, Ask(false)), round), round.calls);
  }

  // Between two iterations of an interactive turn that opened with o.
  ghost predicate InTurn(cfg: Config, o: Story, t: Story, iterations: nat, used: int, recorded: multiset<string>) {
    && t.Then? && Rounds(o, t) && Going(cfg.cap, t, iterations, used)
    && iterations <= Bound(cfg.maxIterations) && recorded == Tally(RoundCalls(t))
  }

  lemma OpeningInTurn(env: Environment, st: Setting, cfg: Config, base: seq<Message>, user: string,
                      plan: Option<string>, t: Story)
    requires Opening(env, st, base, user, plan, t)
    ensures InTurn(cfg, t, t, 0, 0, multiset{})
  {
    OpeningQuietly(env, st, base, user, plan, t);
    GoingQuietly(cfg.cap, Start, t, 0, 0);
  }

  // After its end: the budget was kept throughout, the end is one of those above, and
  // nothing happened but iterations.
  ghost predicate Over(st: Setting, cfg: Config, o: Story, t: Story, res: RunResult) {
    BudgetKept(WholeTurn, cfg.cap, t) && TurnEnd(st, cfg.maxIterations, t, res) && Proceeds(o, t)
  }

  // What an iteration leaves.
  ghost predicate Judged(st: Setting, cfg: Config, o: Story, t: Story, iterations: nat, used: int,
                         recorded: multiset<string>, res: Option<RunResult>) {
    match res
    case None => InTurn(cfg, o, t, iterations, used, recorded)
    case Some(end) => Over(st, cfg, o, t, end)
  }

  // A stream that fails ends the turn.
  lemma JudgeFailed(st: Setting, cfg: Config, o: Story, s: Story, iterations: nat, used: int,
                    recorded: multiset<string>, error: string)
    requires InTurn(cfg, o, s, iterations, used, recorded) && iterations + 1 <= Bound(cfg.maxIterations)
    requires Reply(st, Then(s, Ask(false))) == StreamError(error)
    ensures Over(st, cfg, o, Then(s, Ask(false)), StreamFailed(error, iterations + 1))
  {
    CalmTurnIsShort(s, iterations);
  }

  // And the last iteration does.
  lemma JudgeExhausted(st: Setting, cfg: Config, o: Story, s: Story, iterations: nat, used: int,
                       recorded: multiset<string>)
    requires InTurn(cfg, o, s, iterations, used, recorded) && iterations == Bound(cfg.maxIterations)
    ensures Over(st, cfg, o, s, Exhausted(iterations))
  {
    CalmTurnIsShort(s, iterations);
  }

  lemma JudgeDone(st: Setting, cfg: Config, o: Story, s: Story, round: Event, iterations: nat, used: int, used': int,
                  recorded: multiset<string>)
    requires InTurn(cfg, o, s, iterations, used, recorded) && iterations + 1 <= Bound(cfg.maxIterations)
    requires round.Round? && round.calls == [] && RoundKept(cfg.cap, Used(WholeTurn, cfg.cap, s), round)
    ensures Judged(st, cfg, o, Then(Then(s, Ask(false)), round), iterations + 1, used', recorded,
                   Some(Done(round.content, iterations + 1)))
  {
    BudgetRound(cfg.cap, s, round);
    RoundsOn(o, s, Then(Then(s, Ask(false)), round));
    EndsDone(st, cfg.maxIterations, s, round, iterations);
  }

  lemma JudgeCalls(st: Setting, cfg: Config, o: Story, s: Story, round: Event, iterations: nat, used: int, used': int,
                   before: multiset<string>, recorded: multiset<string>, verdict: Verdict)
    requires InTurn(cfg, o, s, iterations, used, before) && iterations + 1 <= Bound(cfg.maxIterations)
    requires round.Round? && round.calls != [] && RoundKept(cfg.cap, Used(WholeTurn, cfg.cap, s), round)
    requires used' == used + if cfg.cap.max > 0 then |round.executed| else 0
    requires (recorded, verdict) == Scan(before, round.calls)
    ensures Judged(st, cfg, o, Then(Then(s, Ask(false)), round), iterations + 1, used', recorded,
                   if verdict.Pass? then None else Some(LoopBreak(verdict.name, verdict.count, iterations + 1)))
  {
    BudgetRound(cfg.cap, s, round);
    RoundsOn(o, s, Then(Then(s, Ask(false)), round));
    TripsIffRepeated(before, round.calls);
    if verdict.Pass? {
      TallyConcat(RoundCalls(s), round.calls);
      assert recorded == Tally(RoundCalls(s)) + Tally(round.calls);
      GoingRound(cfg.cap, s, round, iterations, used);
    } else {
      EndsBroken(st, cfg.maxIterations, s, round, iterations, verdict.name, verdict.count);
    }
  }

  // The accounts of an autonomous run that is still going.
  ghost predicate Roaming(cap: Cap, t: Story, iterations: nat) {
    BudgetKept(EachRound, cap, t) && iterations == LoopAsks(t) && Unfinished(t)
  }

  lemma {:induction false} RoamingQuietly(cap: Cap, s: Story, t: Story, iterations: nat)
    requires Roaming(cap, s, iterations) && QuietSince(s, t)
    ensures Roaming(cap, t, iterations)
    decreases t
  {
    if t != s {
      RoamingQuietly(cap, s, t.prev, iterations);
    }
  }

  // Between two iterations of an autonomous run with these marks.
  ghost predicate InRun(env: Environment, st: Setting, cfg: Config, base: seq<Message>, marks: seq<Story>, t: Story) {
    Marks(env, st, base, marks) && t == marks[|marks| - 1] && Roaming(cfg.cap, t, |marks| - 1)
  }

  // After its end: the budget was kept in each round, the end is one of those above,
  // and nothing happened but iterations, the last one perhaps left without a reply.
  ghost predicate AutoOver(env: Environment, st: Setting, cfg: Config, base: seq<Message>, marks: seq<Story>, t: Story,
                           res: RunResult) {
    && BudgetKept(EachRound, cfg.cap, t) && AutoEnd(st, t, res) && Marks(env, st, base, marks)
    && (if res.StreamFailed? then |marks| == res.iterations && t == Asking(env, |marks|, marks[|marks| - 1])
        else |marks| == res.iterations + 1 && t == marks[|marks| - 1])
  }

  // What an iteration leaves: another mark, or the end, which has one unless the stream failed.
  ghost predicate AutoJudged(env: Environment, st: Setting, cfg: Config, base: seq<Message>, marks: seq<Story>,
                             t: Story, res: Option<RunResult>) {
    match res
    case None => InRun(env, st, cfg, base, marks + [t], t)
    case Some(end) =>
      if end.Done? then AutoOver(env, st, cfg, base, marks + [t], t, end)
      else AutoOver(env, st, cfg, base, marks, t, end)
  }

  lemma AutoOpeningInRun(env: Environment, st: Setting, cfg: Config, base: seq<Message>, goal: string,
                         plan: Option<string>, s: Story, t: Story)
    requires Relieved(env, st, base, Aimed(env, goal), s) && t == PlannedFor(env, goal, plan, s)
    ensures AutoOpening(env, st, base, goal, plan, t) && InRun(env, st, cfg, base, [t], t)
  {
    AutoOpeningQuietly(env, st, base, goal, plan, s, t);
    RoamingQuietly(cfg.cap, Start, t, 0);
  }

  lemma AutoFailed(env: Environment, st: Setting, cfg: Config, base: seq<Message>, marks: seq<Story>, s: Story,
                   error: string)
    requires |marks| <= MAX_AUTO_ITERATIONS && InRun(env, st, cfg, base, marks, s)
    requires Reply(st, Asking(env, |marks|, s)) == StreamError(error)
    ensures AutoOver(env, st, cfg, base, marks, Asking(env, |marks|, s), StreamFailed(error, |marks|))
  {
    AskedRoaming(env, cfg.cap, s, |marks|);
  }

  // One iteration after its request: a round, and what follows it.
  lemma AutoPlayed(env: Environment, st: Setting, cfg: Config, base: seq<Message>, marks: seq<Story>, s: Story,
                   round: Event, t: Story, response: string)
    requires |marks| <= MAX_AUTO_ITERATIONS && InRun(env, st, cfg, base, marks, s)
    requires round.Round? && RoundKept(cfg.cap, Used(EachRound, cfg.cap, Asking(env, |marks|, s)), round)
    requires AfterReply(env, st, base, Asking(env, |marks|, s), round, t)
    ensures if CallsTool(round, FINISH_TASK) then AutoOver(env, st, cfg, base, marks + [t], t, Done(response, |marks|))
            else InRun(env, st, cfg, base, marks + [t], t)
  {
    var n := |marks|;
    var a := Asking(env, n, s);
    var r := Then(a, round);
    MarksOn(env, st, base, marks, round, t);
    AskedRoaming(env, cfg.cap, s, n);
    if !CallsTool(round, FINISH_TASK) {
      assert Roaming(cfg.cap, r, n);
      if round.calls == [] && Reply(st, a).finish == Stop {
        assert QuietSince(r, t);
      } else {
        RelievedQuietly(env, st, base, r, t);
      }
      RoamingQuietly(cfg.cap, r, t, n);
    }
  }

  lemma AskedRoaming(env: Environment, cap: Cap, s: Story, iterations: nat)
    requires iterations > 0 && Roaming(cap, s, iterations - 1)
    ensures Roaming(cap, Asking(env, iterations, s), iterations)
  {
    var noted := Noted(s, SystemRole, env.prompts.checkpoint);
    assert Roaming(cap, noted, iterations - 1);
  }

  lemma SubsetSize(a: set<string>, b: set<string>)
    requires a <= b
    ensures |a| <= |b|
  {
    assert b == a + (b - a);
  }

  lemma MoreKinds(s: Story, t: Story, calls: seq<ToolCall>)
    requires RoundCalls(t) == RoundCalls(s) + calls
    ensures |Kinds(s)| <= |Kinds(t)|
  {
    TallyConcat(RoundCalls(s), calls);
    SubsetSize(Kinds(s), Kinds(t));
  }

  // The log and the requests are what the story says.
  ghost predicate Told(base: seq<Message>, first: nat, log: seq<Message>, requests: seq<seq<Message>>, t: Story) {
    && log == base + Render(t)
    && first <= |requests| && requests[first..] == Asked(base, t)
    && |requests| == first + Asks(t)
    && Shaped(t)
  }

  // One more event.
  lemma TellMore(base: seq<Message>, first: nat, log: seq<Message>, requests: seq<seq<Message>>, t: Story, e: Event)
    requires Told(base, first, log, requests, t) && ShapedEvent(e)
    ensures Told(base, first, log + RenderEvent(e), if e.Ask? then requests + [log] else requests, Then(t, e))
  {
    Append(base, Render(t), RenderEvent(e));
    if e.Ask? {
      RenderAsk(t, e);
      Suffix(requests, first, log);
    }
  }

  lemma Append(a: seq<Message>, b: seq<Message>, c: seq<Message>)
    ensures a + (b + c) == a + b + c
  {
  }

  lemma RenderAsk(t: Story, e: Event)
    requires e.Ask?
    ensures Render(Then(t, e)) == Render(t)
  {
  }

  lemma Suffix(requests: seq<seq<Message>>, first: nat, log: seq<Message>)
    requires first <= |requests|
    ensures (requests + [log])[first..] == requests[first..] + [log]
  {
  }

  lemma RoundMessages(log: seq<Message>, content: string, calls: seq<ToolCall>, results: seq<ToolResult>,
                      executed: seq<(nat, string)>)
    ensures log + [Assistant(content, calls)] + Answers(results)
            == log + RenderEvent(Round(content, calls, results, executed))
            == log + RenderEvent(FlushRound(content, calls, results))
  {
  }

  class Runner {
    const cfg: Config
    const env: Environment
    const registry: ToolRegistry
    var log: seq<Message>               // everything appended to working memory
    var requests: seq<seq<Message>>     // the messages of every model request
    // The current turn: the log it started from, its first request, and its story.
    ghost var base: seq<Message>
    ghost var first: nat
    ghost var story: Story
    // Its beginning, up to the loop.
    ghost var opening: Story

    constructor (maxIterations: int, maxToolCalls: int, env: Environment, registry: ToolRegistry)
      ensures cfg == Config(maxIterations, Cap(maxToolCalls, BudgetMessage(maxToolCalls)))
      ensures this.env == env && this.registry == registry
      ensures log == [] && requests == []
    {
      this.cfg := Config(maxIterations, Cap(maxToolCalls, BudgetMessage(maxToolCalls)));
      this.env, this.registry := env, registry;
      log, requests := [], [];
      base, first, story, opening := [], 0, Start, Start;
    }

    ghost function St(resolve: bool): Setting
      reads this, registry
    {
      Setting(env.model, first, env.extract, env.world, resolve, registry.tools)
    }

    ghost predicate Consistent(resolve: bool)
      reads this, registry
    {
      registry.Valid() && Told(base, first, log, requests, story) && Follows(St(resolve), story)
    }

    // What a turn has appended is paired, and so is what every one of its model
    // requests has on top of the older messages; with these paired, the whole is.
    lemma LogIsPaired(resolve: bool)
      requires Consistent(resolve)
      ensures |base| <= |log| && Paired(log[|base|..])
      ensures forall i :: first <= i < |requests| ==>
                base <= requests[i] && Paired(requests[i][|base|..])
      ensures Paired(base) ==> Paired(log) && forall i :: first <= i < |requests| ==> Paired(requests[i])
    {
      RenderPaired(story);
      assert log[|base|..] == Render(story);
      AskedPaired(base, story);
      forall i | first <= i < |requests|
        ensures base <= requests[i] && Paired(requests[i][|base|..])
        ensures Paired(base) ==> Paired(requests[i])
      {
        assert requests[i] == requests[first..][i - first];
        if Paired(base) {
          PairedOnto(base, requests[i]);
        }
      }
      if Paired(base) {
        PairedOnto(base, log);
      }
    }

    // A turn that is done answers with the text of the last reply, in which there were
    // no calls.
    lemma DoneAnswers(res: RunResult)
      requires Consistent(true) && Over(St(true), cfg, opening, story, res) && res.Done?
      ensures story.Then? && Asks(story.prev) > 0
      ensures Reply(St(true), story.prev) == Response(res.response, [], Reply(St(true), story.prev).finish)
      ensures env.extract(res.response).1 == []
    {
      RoundSays(St(true), story, story);
    }

    method Say(resolve: bool, role: Role, content: string)
      requires Consistent(resolve)
      modifies this`log, this`story
      ensures Consistent(resolve)
      ensures story == Then(old(story), Said(Note(role, content)))
    {
      TellMore(base, first, log, requests, story, Said(Note(role, content)));
      log := log + [Note(role, content)];
      story := Then(story, Said(Note(role, content)));
    }

    // buildRequestV3 or buildRequest, and openPrimaryModelStream.
    method AskModel(resolve: bool, flush: bool) returns (open: StreamOpen)
      requires Consistent(resolve)
      modifies this`requests, this`story
      ensures Consistent(resolve)
      ensures requests == old(requests) + [log] && open == env.model(old(|requests|))
      ensures story == Then(old(story), Ask(flush))
      ensures Collect(open) == Reply(St(resolve), story)
    {
      TellMore(base, first, log, requests, story, Ask(flush));
      open := env.model(|requests|);
      requests := requests + [log];
      story := Then(story, Ask(flush));
    }

    // Appends one tool message per result.
    method AppendAnswers(results: seq<ToolResult>)
      modifies this`log
      ensures log == old(log) + Answers(results)
    {
      for i := 0 to |results|
        invariant log == old(log) + Answers(results)[..i]
      {
        log := log + [ToolAnswer(results[i].call.id, results[i].result)];
      }
      assert Answers(results)[..|results|] == Answers(results);
    }

    // The calls of a reply after normalizeToolCallNames.
    method ResolveNames(raw: seq<ToolCall>) returns (calls: seq<ToolCall>)
      requires registry.Valid()
      ensures Resolved(true, registry.tools, raw, calls)
    {
      var parts := new ToolCall[|raw|](i requires 0 <= i < |raw| => raw[i]);
      registry.NormalizeToolCallNames(parts);
      calls := parts[..];
    }

    // The body of the loop from the assistant message to the last tool message.
    // Without calls the executor does nothing.
    method PlayRound(resolve: bool, scope: Scope, reply: Response, used: int)
      returns (content: string, results: seq<ToolResult>, used': int)
      requires Consistent(resolve)
      requires story.Then? && story.last == Ask(false)
      requires reply.Response? && reply == Reply(St(resolve), story)
      requires used == Used(scope, cfg.cap, story)
      modifies this`log, this`story
      ensures Consistent(resolve)
      ensures story.Then? && story.prev == old(story)
      ensures story.last.Round? && story.last.content == content && story.last.results == results
      ensures RoundKept(cfg.cap, Used(scope, cfg.cap, old(story)), story.last)
      ensures used' == used + if cfg.cap.max > 0 then |story.last.executed| else 0
    {
      var (text, raw) := Interpret(env.extract, reply.text, reply.calls);
      var calls := raw;
      if resolve {
        calls := ResolveNames(raw);
      }
      content := Shown(text, calls);
      ghost var before := log;
      var executed;
      results, used', executed := PlayCalls(content, calls, used);
      ghost var e := Round(content, calls, results, executed);
      RoundMessages(before, content, calls, results, executed);
      TellMore(base, first, before, requests, story, e);
      story := Then(story, e);
    }

    // Appends the assistant message, executes its calls and appends the answers.
    method PlayCalls(content: string, calls: seq<ToolCall>, used: int)
      returns (results: seq<ToolResult>, used': int, executed: seq<(nat, string)>)
      modifies this`log
      ensures log == old(log) + [Assistant(content, calls)] + Answers(results)
      ensures Outcome(Job(calls, cfg.cap.max, cfg.cap.refusal), used, used', results, executed)
      ensures exists batch: nat :: Genuine(env.world(batch), calls, executed)
    {
      log := log + [Assistant(content, calls)];
      var job := Job(calls, cfg.cap.max, cfg.cap.refusal);
      results, used', executed := ExecuteToolCallsParallel(job, used, env.world(|log|));
      AppendAnswers(results);
    }

    // The flush turn runs its calls one after the other, outside any budget.
    method FlushCalls(calls: seq<ToolCall>) returns (results: seq<ToolResult>)
      modifies this`log
      ensures ResultsFor(calls, results) && forall r :: r in results ==> Answered(env.world, r)
      ensures log == old(log) + Answers(results)
    {
      results := [];
      for i := 0 to |calls|
        invariant |results| == i && forall j :: 0 <= j < i ==> results[j].call == calls[j]
        invariant forall r :: r in results ==> Answered(env.world, r)
        invariant log == old(log) + Answers(results)
      {
        var result := env.world(|log|)(0, calls[i]);
        ghost var before := results;
        assert AnswerOf(env.world(|log|), calls[i], result);
        assert Answered(env.world, ToolResult(calls[i], result));
        log := log + [ToolAnswer(calls[i].id, result)];
        results := results + [ToolResult(calls[i], result)];
        assert Answers(results) == Answers(before) + [ToolAnswer(calls[i].id, result)];
      }
    }

    // doFlush and doFlushStream
    method DoFlush(resolve: bool)
      requires Consistent(resolve)
      modifies this`log, this`requests, this`story
      ensures Consistent(resolve)
      ensures old(requests) <= requests
      ensures Flushed(St(resolve), env.prompts.flush, old(story), story)
    {
      Say(resolve, UserRole, env.prompts.flush);
      var open := AskModel(resolve, true);
      var reply := CollectStream(open);
      if reply.StreamError? {
        return;
      }
      var content := Shown(reply.text, reply.calls);
      ghost var before := log;
      log := log + [Assistant(content, reply.calls)];
      var results := FlushCalls(reply.calls);
      ghost var e := FlushRound(content, reply.calls, results);
      RoundMessages(before, content, reply.calls, results, []);
      TellMore(base, first, before, requests, story, e);
      story := Then(story, e);
    }

    // shouldFlush, and the flush if it says so.
    method Relieve(resolve: bool)
      requires Consistent(resolve)
      modifies this`log, this`requests, this`story
      ensures Consistent(resolve)
      ensures old(requests) <= requests
      ensures Relieved(env, St(resolve), base, old(story), story)
    {
      if NearlyFull(env, log) {
        DoFlush(resolve);
      }
    }

    // Begins a turn: the user's message, the plan if there is one, and a flush if
    // memory is nearly full.
    method Begin(user: string, plan: Option<string>)
      requires registry.Valid()
      modifies this
      ensures Consistent(true)
      ensures base == old(log) && first == |old(requests)| && old(requests) <= requests
      ensures Opening(env, St(true), base, user, plan, opening) && opening == story
      ensures InTurn(cfg, opening, story, 0, 0, multiset{})
    {
      base, first, story := log, |requests|, Start;
      Say(true, UserRole, user);
      if plan.Some? {
        Say(true, SystemRole, env.prompts.plan + plan.value);
      }
      assert story == Planned(env, user, plan);
      Relieve(true);
      OpeningInTurn(env, St(true), cfg, base, user, plan, story);
      opening := story;
    }

    // The part of an iteration after the reply, common to Run and RunStream.
    method Advance(guard: LoopGuard, reply: Response, iterations: nat, used: int)
      returns (res: Option<RunResult>, used': int)
      requires Consistent(true)
      requires story.Then? && story.last == Ask(false) && reply.Response? && reply == Reply(St(true), story)
      requires guard.Valid() && iterations + 1 <= Bound(cfg.maxIterations)
      requires InTurn(cfg, opening, story.prev, iterations, used, guard.recorded)
      modifies this`log, this`story, guard
      ensures Consistent(true) && guard.Valid()
      ensures Judged(St(true), cfg, opening, story, iterations + 1, used', guard.recorded, res)
    {
      ghost var st, o, before := St(true), opening, story.prev;
      assert story == Then(before, Ask(false));
      var content, results;
      content, results, used' := PlayRound(true, WholeTurn, reply, used);
      ghost var round, counted := story.last, guard.recorded;
      assert CallsOf(results) == round.calls;
      if |results| == 0 {
        JudgeDone(st, cfg, o, before, round, iterations, used, used', counted);
        return Some(Done(content, iterations + 1)), used';
      }
      var tripped, name, count := guard.Record(results);
      JudgeCalls(st, cfg, o, before, round, iterations, used, used', counted, guard.recorded,
                 if tripped then Trip(name, count) else Pass);
      res := if tripped then Some(LoopBreak(name, count, iterations + 1)) else None;
    }

    // An iteration of Run.
    method Iterate(guard: LoopGuard, iterations: nat, used: int) returns (res: Option<RunResult>, used': int)
      requires Consistent(true) && guard.Valid() && iterations + 1 <= Bound(cfg.maxIterations)
      requires InTurn(cfg, opening, story, iterations, used, guard.recorded)
      modifies this`log, this`requests, this`story, guard
      ensures Consistent(true) && guard.Valid() && old(requests) <= requests
      ensures Judged(St(true), cfg, opening, story, iterations + 1, used', guard.recorded, res)
    {
      ghost var st, before := St(true), story;
      var open := AskModel(true, false);
      var reply := CollectStream(open);
      if reply.StreamError? {
        JudgeFailed(st, cfg, opening, before, iterations, used, guard.recorded, reply.error);
        return Some(StreamFailed(reply.error, iterations + 1)), used;
      }
      res, used' := Advance(guard, reply, iterations, used);
    }

    // An iteration of RunStream, which reads the stream itself.
    method IterateStream(guard: LoopGuard, iterations: nat, used: int) returns (res: Option<RunResult>, used': int)
      requires Consistent(true) && guard.Valid() && iterations + 1 <= Bound(cfg.maxIterations)
      requires InTurn(cfg, opening, story, iterations, used, guard.recorded)
      modifies this`log, this`requests, this`story, guard
      ensures Consistent(true) && guard.Valid() && old(requests) <= requests
      ensures Judged(St(true), cfg, opening, story, iterations + 1, used', guard.recorded, res)
    {
      ghost var st, before := St(true), story;
      var open := AskModel(true, false);
      if open.OpenFailed? {
        JudgeFailed(st, cfg, opening, before, iterations, used, guard.recorded, open.error);
        return Some(StreamFailed(open.error, iterations + 1)), used;
      }
      var reply := ReadStream(open.events);
      if reply.StreamError? {
        JudgeFailed(st, cfg, opening, before, iterations, used, guard.recorded, reply.error);
        return Some(StreamFailed(reply.error, iterations + 1)), used;
      }
      res, used' := Advance(guard, reply, iterations, used);
    }

    // Run
    method Run(user: string, plan: Option<string>) returns (res: RunResult)
      requires registry.Valid()
      modifies this
      ensures Consistent(true)
      ensures base == old(log) && first == |old(requests)| && old(requests) <= requests
      ensures Opening(env, St(true), base, user, plan, opening)
      ensures Over(St(true), cfg, opening, story, res)
    {
      Begin(user, plan);
      ghost var st, o := St(true), opening;
      var guard := new LoopGuard();
      var iterations, used := 0, 0;
      while iterations < cfg.maxIterations
        invariant Consistent(true) && fresh(guard) && guard.Valid()
        invariant base == old(log) && first == |old(requests)| && old(requests) <= requests
        invariant St(true) == st && opening == o
        invariant InTurn(cfg, o, story, iterations, used, guard.recorded)
      {
        var done;
        done, used := Iterate(guard, iterations, used);
        iterations := iterations + 1;
        if done.Some? {
          return done.value;
        }
      }
      JudgeExhausted(st, cfg, o, story, iterations, used, guard.recorded);
      return Exhausted(iterations);
    }

    // RunStream
    method RunStream(user: string, plan: Option<string>) returns (res: RunResult)
      requires registry.Valid()
      modifies this
      ensures Consistent(true)
      ensures base == old(log) && first == |old(requests)| && old(requests) <= requests
      ensures Opening(env, St(true), base, user, plan, opening)
      ensures Over(St(true), cfg, opening, story, res)
    {
      Begin(user, plan);
      ghost var st, o := St(true), opening;
      var guard := new LoopGuard();
      var iterations, used := 0, 0;
      while iterations < cfg.maxIterations
        invariant Consistent(true) && fresh(guard) && guard.Valid()
        invariant base == old(log) && first == |old(requests)| && old(requests) <= requests
        invariant St(true) == st && opening == o
        invariant InTurn(cfg, o, story, iterations, used, guard.recorded)
      {
        var done;
        done, used := IterateStream(guard, iterations, used);
        iterations := iterations + 1;
        if done.Some? {
          return done.value;
        }
      }
      JudgeExhausted(st, cfg, o, story, iterations, used, guard.recorded);
      return Exhausted(iterations);
    }

    // The part of an autonomous iteration after the reply; `before` is the story before
    // the iteration.
    method AutoRound(reply: Response, ghost marks: seq<Story>, ghost before: Story) returns (finished: bool)
      requires Consistent(false) && |marks| <= MAX_AUTO_ITERATIONS
      requires InRun(env, St(false), cfg, base, marks, before)
      requires story == Asking(env, |marks|, before) && reply.Response? && reply == Reply(St(false), story)
      modifies this`log, this`requests, this`story
      ensures Consistent(false) && old(requests) <= requests
      ensures if finished then AutoOver(env, St(false), cfg, base, marks + [story], story, Done(COMPLETED, |marks|))
              else InRun(env, St(false), cfg, base, marks + [story], story)
    {
      ghost var st, asked := St(false), story;
      var content, results, spent := PlayRound(false, EachRound, reply, 0);
      ghost var round := story.last;
      assert ShapedEvent(round) && story == Then(asked, round);
      finished := FindFinish(results);
      assert finished <==> CallsTool(round, FINISH_TASK);
      if |results| == 0 && reply.finish == Stop {
        Say(false, UserRole, env.prompts.nudge);
      } else if !finished {
        Relieve(false);
      }
      AutoPlayed(env, st, cfg, base, marks, before, round, story, COMPLETED);
    }

    // The goal, a flush if memory is nearly full, and the plan if there is one.
    method BeginAuto(goal: string, plan: Option<string>)
      requires registry.Valid()
      modifies this
      ensures Consistent(false)
      ensures base == old(log) && first == |old(requests)| && old(requests) <= requests
      ensures AutoOpening(env, St(false), base, goal, plan, opening) && opening == story
      ensures InRun(env, St(false), cfg, base, [story], story)
    {
      base, first, story := log, |requests|, Start;
      if goal != "" {
        Say(false, SystemRole, env.prompts.goal + goal + env.prompts.orders);
      }
      assert story == Aimed(env, goal);
      Relieve(false);
      ghost var relieved := story;
      if plan.Some? && goal != "" && !Text.IsBlank(plan.value) {
        Say(false, SystemRole, env.prompts.plan + plan.value);
      }
      AutoOpeningInRun(env, St(false), cfg, base, goal, plan, relieved, story);
      opening := story;
    }

    // The start of an autonomous iteration: a checkpoint now and then, and the request.
    method AutoAsk(iterations: nat) returns (open: StreamOpen)
      requires Consistent(false)
      modifies this`log, this`requests, this`story
      ensures Consistent(false)
      ensures story == Asking(env, iterations, old(story)) && Collect(open) == Reply(St(false), story)
      ensures old(requests) <= requests
    {
      if iterations > 1 && iterations % CHECKPOINT_EVERY == 0 {
        Say(false, SystemRole, env.prompts.checkpoint);
      }
      open := AskModel(false, false);
    }

    // An iteration of RunAutonomous.
    method AutoIterate(iterations: nat, ghost marks: seq<Story>) returns (res: Option<RunResult>)
      requires Consistent(false) && iterations == |marks| <= MAX_AUTO_ITERATIONS
      requires InRun(env, St(false), cfg, base, marks, story)
      modifies this`log, this`requests, this`story
      ensures Consistent(false) && old(requests) <= requests
      ensures AutoJudged(env, St(false), cfg, base, marks, story, res)
      ensures res.Some? && res.value.Done? ==> res.value.response == COMPLETED
    {
      ghost var st, before := St(false), story;
      var open := AutoAsk(iterations);
      var reply := CollectStream(open);
      if reply.StreamError? {
        AutoFailed(env, st, cfg, base, marks, before, reply.error);
        return Some(StreamFailed(reply.error, iterations));
      }
      var finished := AutoRound(reply, marks, before);
      res := if finished then Some(Done(COMPLETED, iterations)) else None;
    }

    // RunAutonomous: no guard, names as the model wrote them, a nudge instead of an
    // end when the model stops calling, and a budget counter per round.
    method RunAutonomous(goal: string, plan: Option<string>) returns (res: RunResult, ghost marks: seq<Story>)
      requires registry.Valid()
      modifies this
      ensures Consistent(false)
      ensures base == old(log) && first == |old(requests)| && old(requests) <= requests
      ensures AutoOpening(env, St(false), base, goal, plan, opening)
      ensures AutoOver(env, St(false), cfg, base, marks, story, res) && marks[0] == opening
      ensures res.Done? ==> res.response == "Autonomous goal completed."
    {
      BeginAuto(goal, plan);
      ghost var st, o, older := St(false), opening, base;
      var iterations := 0;
      marks := [story];
      while iterations < MAX_AUTO_ITERATIONS
        invariant Consistent(false)
        invariant base == old(log) && first == |old(requests)| && old(requests) <= requests
        invariant |marks| == iterations + 1 <= MAX_AUTO_ITERATIONS + 1
        invariant St(false) == st && opening == o && marks[0] == o
        invariant InRun(env, st, cfg, older, marks, story)
      {
        iterations := iterations + 1;
        var done := AutoIterate(iterations, marks);
        if done.Some? {
          return done.value, if done.value.Done? then marks + [story] else marks;
        }
        marks := marks + [story];
      }
      res := Exhausted(iterations);
    }
  }

  // Whether one of the calls was finish_task.
  method FindFinish(results: seq<ToolResult>) returns (finished: bool)
    ensures finished <==> exists i :: 0 <= i < |results| && results[i].call.name == FINISH_TASK
  {
    finished := false;
    for i := 0 to |results|
      invariant finished <==> exists j :: 0 <= j < i && results[j].call.name == FINISH_TASK
    {
      if results[i].call.name == FINISH_TASK {
        finished := true;
      }
    }
  }

  // Reads a stream to its end or its first error.
  method ReadStream(events: seq<StreamEvent>) returns (reply: Response)
    ensures reply == CollectOnto(events, "", [], Unset)
  {
    var text, calls, finish := "", [], Unset;
    for i := 0 to |events|
      invariant CollectOnto(events[i..], text, calls, finish) == CollectOnto(events, "", [], Unset)
    {
      assert events[i..][1..] == events[i + 1..];
      match events[i]
      case TextChunk(t) => text := text + t;
      case ToolUseEvent(c) => calls := calls + [c];
      case DoneEvent(f) => finish := f;
      case ErrorEvent(e) => return StreamError(e);
    }
    return Response(text, calls, finish);
  }

  // openPrimaryModelStream's result, collected.
  method CollectStream(open: StreamOpen) returns (reply: Response)
    ensures reply == Collect(open)
  {
    if open.OpenFailed? {
      return StreamError(open.error);
    }
    reply := ReadStream(open.events);
  }
}
