// What a turn is made of, event by event: its opening, its iterations and its
// memory flushes, for the interactive and the autonomous drivers.
module TurnShapes {
  import opened Wrappers
  import opened Provider
  import opened ToolExecutor
  import opened Transcript
  import Text

  const FINISH_TASK := "finish_task"

  // The fixed prompts the drivers append; their wording plays no part. The goal
  // stands between two of them.
  datatype Prompts = Prompts(plan: string, flush: string, goal: string, orders: string, checkpoint: string,
                             nudge: string)

  // The surroundings of a runner: the model, the reading of pseudo calls out of
  // text, the tools at each batch, the tokens that working memory counts after a log,
  // and its budget of them. All arbitrary.
  datatype Environment = Environment(
    model: Model,
    extract: Extractor,
    world: nat -> World,
    tokens: seq<Message> -> nat,
    budget: int,
    prompts: Prompts)

  // int(float64(budget) * 0.8), which cuts towards zero.
  function FourFifths(budget: int): int { if budget >= 0 then budget * 4 / 5 else 0 - (0 - budget) * 4 / 5 }

  // shouldFlush
  predicate NearlyFull(env: Environment, log: seq<Message>) { env.tokens(log) > FourFifths(env.budget) }

  ghost predicate CallsTool(e: Event, name: string) {
    e.Round? && exists i :: 0 <= i < |e.calls| && e.calls[i].name == name
  }

  // ------------------------------------------------------------------
  // Flushes
  // ------------------------------------------------------------------

  function Noted(t: Story, role: Role, content: string): Story { Then(t, Said(Note(role, content))) }

  // A flush takes s to t: its prompt, its request, and a round unless the stream fails.
  ghost predicate Flushed(st: Setting, prompt: string, s: Story, t: Story) {
    var asked := Then(Noted(s, UserRole, prompt), Ask(true));
    if Reply(st, asked).StreamError? then t == asked else t.Then? && t.prev == asked && t.last.FlushRound?
  }

  function LogAfter(base: seq<Message>, s: Story): seq<Message> { base + Render(s) }

  // A flush if memory is nearly full, on top of the older messages.
  ghost predicate Relieved(env: Environment, st: Setting, base: seq<Message>, s: Story, t: Story) {
    if NearlyFull(env, LogAfter(base, s)) then Flushed(st, env.prompts.flush, s, t) else t == s
  }

  // Since story s, only notes and memory flushes: no loop iteration and no
  // budgeted round.
  ghost predicate QuietSince(s: Story, t: Story)
    decreases t
  {
    t == s || (t.Then? && !t.last.Round? && t.last != Ask(false) && QuietSince(s, t.prev))
  }

  lemma RelievedQuietly(env: Environment, st: Setting, base: seq<Message>, s: Story, t: Story)
    requires Relieved(env, st, base, s, t)
    ensures QuietSince(s, t)
  {
    var told := Noted(s, UserRole, env.prompts.flush);
    assert QuietSince(s, told);
    assert QuietSince(s, Then(told, Ask(true)));
  }

  lemma {:induction false} QuietTrans(a: Story, b: Story, c: Story)
    requires QuietSince(a, b) && QuietSince(b, c)
    ensures QuietSince(a, c)
    decreases c
  {
    if c != b {
      QuietTrans(a, b, c.prev);
    }
  }

  // ------------------------------------------------------------------
  // Interactive turns
  // ------------------------------------------------------------------

  function Planned(env: Environment, user: string, plan: Option<string>): Story {
    var said := Noted(Start, UserRole, user);
    if plan.Some? then Noted(said, SystemRole, env.prompts.plan + plan.value) else said
  }

  // The user's message, the plan if there is one, and a flush if need be.
  ghost predicate Opening(env: Environment, st: Setting, base: seq<Message>, user: string, plan: Option<string>,
                          t: Story) {
    Relieved(env, st, base, Planned(env, user, plan), t)
  }

  lemma OpeningQuietly(env: Environment, st: Setting, base: seq<Message>, user: string, plan: Option<string>, t: Story)
    requires Opening(env, st, base, user, plan, t)
    ensures QuietSince(Start, t) && t.Then?
  {
    var p := Planned(env, user, plan);
    assert QuietSince(Start, Noted(Start, UserRole, user));
    assert QuietSince(Start, p);
    RelievedQuietly(env, st, base, p, t);
    QuietTrans(Start, p, t);
  }

  // No flush while the tokens are at most four fifths of the budget; above it the prompt
  // and one request.
  lemma RelievedSays(env: Environment, st: Setting, base: seq<Message>, s: Story, t: Story)
    requires Relieved(env, st, base, s, t) && env.budget >= 0
    ensures 5 * env.tokens(base + Render(s)) <= 4 * env.budget ==> t == s
    ensures 5 * env.tokens(base + Render(s)) > 4 * env.budget ==>
              Asks(t) == Asks(s) + 1 && Render(s) + [Note(UserRole, env.prompts.flush)] <= Render(t)
  {
    var told := Noted(s, UserRole, env.prompts.flush);
    assert Render(told) == Render(s) + [Note(UserRole, env.prompts.flush)];
    assert Render(Then(told, Ask(true))) == Render(told) && Asks(Then(told, Ask(true))) == Asks(s) + 1;
  }

  lemma NotedSays(s: Story, role: Role, content: string)
    ensures Render(Noted(s, role, content)) == Render(s) + [Note(role, content)]
    ensures Asks(Noted(s, role, content)) == Asks(s)
  {
  }

  lemma PlannedSays(env: Environment, user: string, plan: Option<string>)
    ensures Asks(Planned(env, user, plan)) == 0
    ensures Render(Planned(env, user, plan)) ==
            if plan.Some? then [Note(UserRole, user), Note(SystemRole, env.prompts.plan + plan.value)]
            else [Note(UserRole, user)]
  {
    NotedSays(Start, UserRole, user);
    if plan.Some? {
      NotedSays(Noted(Start, UserRole, user), SystemRole, env.prompts.plan + plan.value);
    }
  }

  // The opening in messages.
  lemma OpeningSays(env: Environment, st: Setting, base: seq<Message>, user: string, plan: Option<string>, t: Story)
    returns (said: seq<Message>)
    requires Opening(env, st, base, user, plan, t) && env.budget >= 0
    ensures said == if plan.Some? then [Note(UserRole, user), Note(SystemRole, env.prompts.plan + plan.value)]
                    else [Note(UserRole, user)]
    ensures 5 * env.tokens(base + said) <= 4 * env.budget ==> Render(t) == said && Asks(t) == 0
    ensures 5 * env.tokens(base + said) > 4 * env.budget ==>
              Asks(t) == 1 && said + [Note(UserRole, env.prompts.flush)] <= Render(t)
  {
    var p := Planned(env, user, plan);
    said := Render(p);
    PlannedSays(env, user, plan);
    RelievedSays(env, st, base, p, t);
  }

  // After o, nothing but iterations: a request and its round.
  ghost predicate Rounds(o: Story, t: Story)
    decreases t
  {
    t == o || (t.Then? && t.last.Round? && t.prev.Then? && t.prev.last == Ask(false) && Rounds(o, t.prev.prev))
  }

  // The same, or one more request that was left without a reply.
  ghost predicate Proceeds(o: Story, t: Story) {
    Rounds(o, t) || (t.Then? && t.last == Ask(false) && Rounds(o, t.prev))
  }

  // After its opening a turn has no flush and says nothing of its own: every request is
  // one of the loop, and is followed by its round, but perhaps the last.
  lemma {:induction false} RoundsAre(o: Story, t: Story) returns (rounds: nat)
    requires Rounds(o, t)
    ensures LoopAsks(t) == LoopAsks(o) + rounds && Asks(t) == Asks(o) + rounds && FlushRun(t) == FlushRun(o)
    ensures Render(o) <= Render(t) && Within(o, t)
    decreases t
  {
    if t == o {
      rounds := 0;
    } else {
      rounds := RoundsAre(o, t.prev.prev);
      rounds := rounds + 1;
    }
  }

  lemma ProceedsSays(o: Story, t: Story)
    requires Proceeds(o, t)
    ensures Asks(t) - Asks(o) == LoopAsks(t) - LoopAsks(o) >= 0 && FlushRun(t) == FlushRun(o)
    ensures Render(o) <= Render(t) && Within(o, t)
  {
    var n := RoundsAre(o, if Rounds(o, t) then t else t.prev);
  }

  lemma RoundsOn(o: Story, s: Story, t: Story)
    requires Rounds(o, s) && t.Then? && t.prev == Then(s, Ask(false)) && t.last.Round?
    ensures Rounds(o, t) && Proceeds(o, t)
  {
  }

  // ------------------------------------------------------------------
  // Autonomous runs
  // ------------------------------------------------------------------

  function Aimed(env: Environment, goal: string): Story {
    if goal == "" then Start else Noted(Start, SystemRole, env.prompts.goal + goal + env.prompts.orders)
  }

  function PlannedFor(env: Environment, goal: string, plan: Option<string>, s: Story): Story {
    if plan.Some? && goal != "" && !Text.IsBlank(plan.value) then Noted(s, SystemRole, env.prompts.plan + plan.value)
    else s
  }

  // The goal, a flush if need be, and then the plan.
  ghost predicate AutoOpening(env: Environment, st: Setting, base: seq<Message>, goal: string, plan: Option<string>,
                              t: Story) {
    exists s :: Relieved(env, st, base, Aimed(env, goal), s) && t == PlannedFor(env, goal, plan, s)
  }

  lemma AutoOpeningQuietly(env: Environment, st: Setting, base: seq<Message>, goal: string, plan: Option<string>,
                           s: Story, t: Story)
    requires Relieved(env, st, base, Aimed(env, goal), s) && t == PlannedFor(env, goal, plan, s)
    ensures AutoOpening(env, st, base, goal, plan, t) && QuietSince(Start, t)
  {
    assert QuietSince(Start, Aimed(env, goal));
    RelievedQuietly(env, st, base, Aimed(env, goal), s);
    QuietTrans(Start, Aimed(env, goal), s);
    assert QuietSince(Start, t);
  }

  // The opening in messages: the plan comes after the flush.
  lemma AutoOpeningSays(env: Environment, st: Setting, base: seq<Message>, goal: string, plan: Option<string>,
                        t: Story)
    returns (aim: seq<Message>, last: seq<Message>)
    requires AutoOpening(env, st, base, goal, plan, t) && env.budget >= 0
    ensures aim == if goal == "" then [] else [Note(SystemRole, env.prompts.goal + goal + env.prompts.orders)]
    ensures last == if goal != "" && plan.Some? && exists i :: 0 <= i < |plan.value| && !Text.IsSpace(plan.value[i])
                    then [Note(SystemRole, env.prompts.plan + plan.value)] else []
    ensures 5 * env.tokens(base + aim) <= 4 * env.budget ==> Render(t) == aim + last && Asks(t) == 0
    ensures 5 * env.tokens(base + aim) > 4 * env.budget ==>
              Asks(t) == 1 && exists told :: Render(t) == told + last
                                             && aim + [Note(UserRole, env.prompts.flush)] <= told
  {
    var a := Aimed(env, goal);
    var s :| Relieved(env, st, base, a, s) && t == PlannedFor(env, goal, plan, s);
    aim := Render(a);
    if plan.Some? {
      Text.BlankIffAllSpace(plan.value);
    }
    last := if t == s then [] else Render(t)[|Render(s)|..];
    assert Render(t) == Render(s) + last;
    RelievedSays(env, st, base, a, s);
  }

  const CHECKPOINT_EVERY: nat := 25

  // Iteration n up to its request: now and then a checkpoint first.
  function Asking(env: Environment, n: nat, s: Story): Story {
    Then(if n > 1 && n % CHECKPOINT_EVERY == 0 then Noted(s, SystemRole, env.prompts.checkpoint) else s, Ask(false))
  }

  // From the request a to the end of the iteration: a round, then a nudge if the model
  // stopped without a call, or a flush if need be unless finish_task was called.
  ghost predicate AfterReply(env: Environment, st: Setting, base: seq<Message>, a: Story, round: Event, t: Story)
    requires Asks(a) > 0
  {
    var r := Then(a, round);
    && round.Round? && Reply(st, a).Response?
    && if round.calls == [] && Reply(st, a).finish == Stop then t == Noted(r, UserRole, env.prompts.nudge)
       else if CallsTool(round, FINISH_TASK) then t == r
       else Relieved(env, st, base, r, t)
  }

  ghost predicate Iteration(env: Environment, st: Setting, base: seq<Message>, n: nat, s: Story, t: Story) {
    exists round :: AfterReply(env, st, base, Asking(env, n, s), round, t)
  }

  // The iteration in figures and messages.
  lemma IterationSays(env: Environment, st: Setting, base: seq<Message>, n: nat, s: Story, t: Story)
    returns (a: Story, round: Event)
    requires Iteration(env, st, base, n, s, t) && env.budget >= 0
    ensures a.Then? && a.last == Ask(false) && Asks(a) > 0 && Reply(st, a).Response? && round.Round?
    ensures Render(a) == if n > 1 && n % 25 == 0 then Render(s) + [Note(SystemRole, env.prompts.checkpoint)]
                         else Render(s)
    ensures var r := Then(a, round);
            var finishes := exists i :: 0 <= i < |round.calls| && round.calls[i].name == "finish_task";
            if round.calls == [] && Reply(st, a).finish == Stop then
              t == Then(r, Said(Note(UserRole, env.prompts.nudge)))
            else if finishes || 5 * env.tokens(base + Render(r)) <= 4 * env.budget then t == r
            else Asks(t) == Asks(r) + 1 && Render(r) + [Note(UserRole, env.prompts.flush)] <= Render(t)
  {
    a := Asking(env, n, s);
    round :| AfterReply(env, st, base, a, round, t);
    var r := Then(a, round);
    if (round.calls != [] || Reply(st, a).finish != Stop) && !CallsTool(round, FINISH_TASK) {
      RelievedSays(env, st, base, r, t);
    }
  }

  // The stories an autonomous run passes through: its opening, and after each iteration.
  ghost predicate Marks(env: Environment, st: Setting, base: seq<Message>, marks: seq<Story>) {
    && marks != []
    && forall i: nat :: i + 1 < |marks| ==> Iteration(env, st, base, i + 1, marks[i], marks[i + 1])
  }

  lemma MarksOn(env: Environment, st: Setting, base: seq<Message>, marks: seq<Story>, round: Event, t: Story)
    requires Marks(env, st, base, marks)
    requires AfterReply(env, st, base, Asking(env, |marks|, marks[|marks| - 1]), round, t)
    ensures Marks(env, st, base, marks + [t])
  {
    assert Iteration(env, st, base, |marks|, marks[|marks| - 1], t);
  }
}
