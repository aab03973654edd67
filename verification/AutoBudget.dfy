// internal/agent/runner_auto.go: how many calls an autonomous run can execute under
// a cap that is counted anew in every round.
module AutoBudget {
  import opened Wrappers
  import opened Provider
  import opened ToolExecutor
  import opened Transcript
  import opened TurnShapes
  import opened AgentRunner

  // ------------------------------------------------------------------
  // At most the cap for each of five hundred rounds
  // ------------------------------------------------------------------

  function RoundCount(t: Story): nat {
    match t
    case Start => 0
    case Then(prev, e) => if e.Round? then RoundCount(prev) + 1 else RoundCount(prev)
  }

  // Each round has a request of its own.
  lemma {:induction false} RoundsFollowAsks(st: Setting, t: Story)
    requires Follows(st, t)
    ensures RoundCount(t) + (if t.Then? && t.last == Ask(false) then 1 else 0) <= LoopAsks(t)
  {
    if t.Then? {
      RoundsFollowAsks(st, t.prev);
    }
  }

  lemma {:induction false} CappedByRounds(max: int, t: Story)
    requires max > 0
    ensures CappedPerRound(max, t) <= max * RoundCount(t)
  {
    if t.Then? {
      CappedByRounds(max, t.prev);
      OneMore(max, RoundCount(t.prev), CappedPerRound(max, t.prev), if t.last.Round? then |t.last.calls| else 0);
    }
  }

  lemma OneMore(max: nat, rounds: nat, spent: nat, n: nat)
    requires max > 0 && spent <= max * rounds
    ensures spent + Granted(max, 0, n) <= max * (rounds + 1)
  {
    assert Granted(max, 0, n) <= max;
    assert max * (rounds + 1) == max * rounds + max;
  }

  // The rounds of an autonomous run execute at most five hundred times the cap.
  lemma AutoSpendsAtMost(env: Environment, st: Setting, cfg: Config, base: seq<Message>, marks: seq<Story>, t: Story,
                         res: RunResult)
    requires Follows(st, t) && AutoOver(env, st, cfg, base, marks, t, res) && cfg.cap.max > 0
    ensures Spent(t) <= cfg.cap.max * res.iterations <= cfg.cap.max * 500
  {
    EachRoundBudget(cfg.cap, t);
    CappedByRounds(cfg.cap.max, t);
    RoundsFollowAsks(st, t);
    TimesLess(cfg.cap.max, RoundCount(t), res.iterations);
    TimesLess(cfg.cap.max, res.iterations, MAX_AUTO_ITERATIONS);
  }

  lemma TimesLess(c: nat, m: nat, n: nat)
    requires m <= n
    ensures c * m <= c * n
  {
  }

  // ------------------------------------------------------------------
  // Scripted surroundings
  // ------------------------------------------------------------------

  function Events(calls: seq<ToolCall>): seq<StreamEvent> {
    seq(|calls|, i requires 0 <= i < |calls| => ToolUseEvent(calls[i]))
  }

  lemma {:induction false} EventsCollect(calls: seq<ToolCall>)
    ensures NoError(Events(calls)) && Texts(Events(calls)) == "" && Calls(Events(calls)) == calls
    ensures Finish(Events(calls), Unset) == Unset
    decreases |calls|
  {
    if calls != [] {
      assert Events(calls)[1..] == Events(calls[1..]);
      EventsCollect(calls[1..]);
      FinishCons(Events(calls), Unset);
    }
  }

  // A model that asks for these batches, one per request, and for nothing more; tools that
  // answer `out`; and memory that is always nearly full, or never.
  ghost predicate Scripted(env: Environment, st: Setting, batches: seq<seq<ToolCall>>, out: string, full: bool) {
    && st.model == env.model && st.world == env.world && st.extract == env.extract && st.first == 0
    && (forall n: nat :: st.model(n) == if n < |batches| then Opened(Events(batches[n])) else OpenFailed("no reply"))
    && (forall text :: st.extract(text) == (text, []))
    && (forall batch: nat, moment: nat, call :: st.world(batch)(moment, call) == out)
    && (forall log :: NearlyFull(env, log) <==> full)
  }

  // There are such surroundings.
  lemma ScriptExists(batches: seq<seq<ToolCall>>, out: string, full: bool, prompts: Prompts, resolve: bool,
                     tools: map<string, ToolDef>)
    returns (env: Environment, st: Setting)
    ensures Scripted(env, st, batches, out, full) && st.resolve == resolve && st.tools == tools
  {
    env := Environment((n: nat) => if n < |batches| then Opened(Events(batches[n])) else OpenFailed("no reply"),
                       text => (text, []), _ => (_, _) => out, _ => if full then 1 else 0, 0, prompts);
    st := Setting(env.model, 0, env.extract, env.world, resolve, tools);
  }

  lemma RequestGets(env: Environment, st: Setting, batches: seq<seq<ToolCall>>, out: string, full: bool, a: Story)
    requires Scripted(env, st, batches, out, full) && Asks(a) > 0
    ensures Asks(a) > |batches| ==> Reply(st, a).StreamError?
    ensures Asks(a) <= |batches| ==>
              && Reply(st, a) == Response("", batches[Asks(a) - 1], Unset)
              && Interpret(st.extract, "", batches[Asks(a) - 1]) == ("", batches[Asks(a) - 1])
  {
    var n := Asks(a) - 1;
    assert Reply(st, a) == Collect(st.model(n));
    if n < |batches| {
      EventsCollect(batches[n]);
      CollectIs(Events(batches[n]));
    }
  }

  // The round of a batch: the first calls that the counter admits are executed.
  function BatchRound(cap: Cap, calls: seq<ToolCall>, out: string): Event {
    var n := Granted(cap.max, 0, |calls|);
    Round(Shown("", calls), calls,
          seq(|calls|, i requires 0 <= i < |calls| => ToolResult(calls[i], if i < n then out else cap.refusal)),
          seq(n, i requires 0 <= i < n => (i, out)))
  }

  lemma BatchIsKept(cap: Cap, calls: seq<ToolCall>, out: string, world: World)
    requires forall moment: nat, call :: world(moment, call) == out
    ensures RoundKept(cap, 0, BatchRound(cap, calls, out)) && ShapedEvent(BatchRound(cap, calls, out))
    ensures Genuine(world, calls, BatchRound(cap, calls, out).executed)
  {
    var e := BatchRound(cap, calls, out);
    forall i | 0 <= i < |e.results| ensures ExecutedAt(e.executed, i) || e.results[i].result == cap.refusal {
      if i < |e.executed| {
        assert e.executed[i].0 == i;
      }
    }
    forall k | 0 <= k < |e.executed| ensures AnswerOf(world, calls[e.executed[k].0], e.executed[k].1) {
      assert world(0, calls[k]) == out;
    }
  }

  // The round that answers the request a.
  lemma BatchFollows(env: Environment, st: Setting, cap: Cap, batches: seq<seq<ToolCall>>, out: string, full: bool,
                     a: Story)
    requires Scripted(env, st, batches, out, full) && !st.resolve
    requires Follows(st, a) && Shaped(a) && a.Then? && a.last == Ask(false) && 0 < Asks(a) <= |batches|
    ensures var e := BatchRound(cap, batches[Asks(a) - 1], out);
            && Follows(st, Then(a, e)) && Shaped(Then(a, e)) && RoundKept(cap, 0, e)
  {
    var calls := batches[Asks(a) - 1];
    var e := BatchRound(cap, calls, out);
    RequestGets(env, st, batches, out, full, a);
    BatchIsKept(cap, calls, out, st.world(0));
    assert Genuine(st.world(0), calls, e.executed);
    assert FollowsLast(st, a, e);
  }

  // ------------------------------------------------------------------
  // A run for every list of batches
  // ------------------------------------------------------------------

  // Batches of an autonomous run: none is empty, and the last is the first to call
  // finish_task.
  predicate Finishing(batches: seq<seq<ToolCall>>) {
    && 1 <= |batches| <= MAX_AUTO_ITERATIONS
    && forall k :: 0 <= k < |batches| ==> batches[k] != [] && (Finishes(batches[k]) <==> k == |batches| - 1)
  }

  predicate Finishes(calls: seq<ToolCall>) { exists i :: 0 <= i < |calls| && calls[i].name == FINISH_TASK }

  // The calls that a counter per batch grants of the first n batches.
  function GrantedOf(max: int, batches: seq<seq<ToolCall>>, n: nat): nat
    requires n <= |batches|
  {
    if n == 0 then 0 else GrantedOf(max, batches, n - 1) + Granted(max, 0, |batches[n - 1]|)
  }

  // An autonomous run in which memory is never nearly full, and its surroundings.
  ghost predicate ScriptedRun(env: Environment, st: Setting, cfg: Config, base: seq<Message>, goal: string,
                              batches: seq<seq<ToolCall>>, out: string, marks: seq<Story>) {
    && Scripted(env, st, batches, out, false) && !st.resolve && Finishing(batches)
    && marks != [] && AutoOpening(env, st, base, goal, None, marks[0])
  }

  lemma AskingKeeps(env: Environment, st: Setting, s: Story, n: nat)
    requires Follows(st, s) && Shaped(s)
    ensures var a := Asking(env, n, s); Follows(st, a) && Shaped(a) && Asks(a) == Asks(s) + 1
  {
    var noted := Noted(s, SystemRole, env.prompts.checkpoint);
    assert Follows(st, noted) && Shaped(noted) && Asks(noted) == Asks(s);
  }

  // Nothing follows the round, and it finishes with the last batch.
  lemma BatchAfter(env: Environment, st: Setting, cap: Cap, base: seq<Message>, batches: seq<seq<ToolCall>>,
                   out: string, a: Story)
    requires Scripted(env, st, batches, out, false) && Finishing(batches) && 0 < Asks(a) <= |batches|
    ensures var e := BatchRound(cap, batches[Asks(a) - 1], out);
            AfterReply(env, st, base, a, e, Then(a, e)) && (CallsTool(e, FINISH_TASK) <==> Asks(a) == |batches|)
  {
    var e := BatchRound(cap, batches[Asks(a) - 1], out);
    RequestGets(env, st, batches, out, false, a);
    assert !NearlyFull(env, LogAfter(base, Then(a, e)));
    assert CallsTool(e, FINISH_TASK) <==> Finishes(batches[Asks(a) - 1]);
  }

  // The whole of iteration n + 1.
  lemma PlaysOn(env: Environment, st: Setting, cap: Cap, base: seq<Message>, batches: seq<seq<ToolCall>>, out: string,
                n: nat, s: Story)
    returns (e: Event)
    requires Scripted(env, st, batches, out, false) && !st.resolve && Finishing(batches)
    requires n < |batches| && Follows(st, s) && Shaped(s) && Asks(s) == n
    ensures e.Round? && RoundKept(cap, Used(EachRound, cap, Asking(env, n + 1, s)), e)
    ensures AfterReply(env, st, base, Asking(env, n + 1, s), e, Then(Asking(env, n + 1, s), e))
    ensures var t := Then(Asking(env, n + 1, s), e); Follows(st, t) && Shaped(t) && Asks(t) == n + 1
    ensures CallsTool(e, FINISH_TASK) <==> n == |batches| - 1
  {
    var a := Asking(env, n + 1, s);
    e := BatchRound(cap, batches[n], out);
    AskingKeeps(env, st, s, n + 1);
    assert Asks(a) == n + 1 && Used(EachRound, cap, a) == 0 && Asks(Then(a, e)) == n + 1;
    BatchFollows(env, st, cap, batches, out, false, a);
    BatchAfter(env, st, cap, base, batches, out, a);
  }

  lemma {:induction false} Reaches(env: Environment, st: Setting, cfg: Config, base: seq<Message>, goal: string,
                                   batches: seq<seq<ToolCall>>, out: string, n: nat)
    returns (marks: seq<Story>, s: Story)
    requires Scripted(env, st, batches, out, false) && !st.resolve && Finishing(batches) && n < |batches|
    ensures |marks| == n + 1 && InRun(env, st, cfg, base, marks, s) && Follows(st, s) && Shaped(s) && Asks(s) == n
    ensures AutoOpening(env, st, base, goal, None, marks[0])
  {
    if n == 0 {
      s := Aimed(env, goal);
      marks := [s];
      assert Follows(st, Start) && Shaped(Start);
      AutoOpeningInRun(env, st, cfg, base, goal, None, s, s);
    } else {
      marks, s := Reaches(env, st, cfg, base, goal, batches, out, n - 1);
      var e := PlaysOn(env, st, cfg.cap, base, batches, out, n - 1, s);
      var t := Then(Asking(env, n, s), e);
      AutoPlayed(env, st, cfg, base, marks, s, e, t, COMPLETED);
      marks, s := marks + [t], t;
    }
  }

  // For every such list of batches there is a run of RunAutonomous, in full, that asks
  // for them.
  lemma AutoRunExists(env: Environment, st: Setting, cfg: Config, base: seq<Message>, goal: string,
                      batches: seq<seq<ToolCall>>, out: string)
    returns (marks: seq<Story>, t: Story)
    requires Scripted(env, st, batches, out, false) && !st.resolve && Finishing(batches)
    ensures ScriptedRun(env, st, cfg, base, goal, batches, out, marks) && Follows(st, t) && Shaped(t)
    ensures AutoOver(env, st, cfg, base, marks, t, Done(COMPLETED, |batches|))
  {
    var n := |batches|;
    var before, s := Reaches(env, st, cfg, base, goal, batches, out, n - 1);
    var e := PlaysOn(env, st, cfg.cap, base, batches, out, n - 1, s);
    t := Then(Asking(env, n, s), e);
    marks := before + [t];
    AutoPlayed(env, st, cfg, base, before, s, e, t, COMPLETED);
  }

  // ------------------------------------------------------------------
  // Every run there executes the same
  // ------------------------------------------------------------------

  // What mark i is: i requests answered, i batches asked for, nothing flushed.
  ghost predicate MarkIs(cap: Cap, batches: seq<seq<ToolCall>>, i: nat, t: Story) {
    && i <= |batches| && Asks(t) == i && FlushRun(t) == 0
    && CappedPerRound(cap.max, t) == GrantedOf(cap.max, batches, i)
    && (Unfinished(t) <==> i < |batches|)
  }

  lemma AskingIs(env: Environment, cap: Cap, batches: seq<seq<ToolCall>>, i: nat, s: Story)
    requires MarkIs(cap, batches, i, s)
    ensures var a := Asking(env, i + 1, s);
            && Asks(a) == i + 1 && FlushRun(a) == 0 && CappedPerRound(cap.max, a) == GrantedOf(cap.max, batches, i)
            && (Unfinished(a) <==> i < |batches|)
  {
    var noted := Noted(s, SystemRole, env.prompts.checkpoint);
    assert MarkIs(cap, batches, i, noted);
  }

  // One iteration from a mark leads to the next one, and there is none after the last.
  lemma NextMark(env: Environment, st: Setting, cap: Cap, base: seq<Message>, batches: seq<seq<ToolCall>>, out: string,
                 i: nat, s: Story, t: Story)
    requires Scripted(env, st, batches, out, false) && !st.resolve && Finishing(batches)
    requires MarkIs(cap, batches, i, s) && Iteration(env, st, base, i + 1, s, t) && Follows(st, t)
    ensures MarkIs(cap, batches, i + 1, t)
  {
    var a := Asking(env, i + 1, s);
    var round :| AfterReply(env, st, base, a, round, t);
    AskingIs(env, cap, batches, i, s);
    RequestGets(env, st, batches, out, false, a);
    assert Reply(st, a).Response?;
    assert i < |batches|;
    JustRound(env, st, base, batches, out, a, round, t);
    RoundIs(st, batches, i, a, round, t);
    RoundCounts(cap, batches, i, a, round);
  }

  // No nudge and no flush follows.
  lemma JustRound(env: Environment, st: Setting, base: seq<Message>, batches: seq<seq<ToolCall>>, out: string,
                  a: Story, round: Event, t: Story)
    requires Scripted(env, st, batches, out, false) && 0 < Asks(a) <= |batches|
    requires AfterReply(env, st, base, a, round, t)
    ensures t == Then(a, round)
  {
    RequestGets(env, st, batches, out, false, a);
    assert !NearlyFull(env, LogAfter(base, Then(a, round)));
  }

  lemma RoundCounts(cap: Cap, batches: seq<seq<ToolCall>>, i: nat, a: Story, round: Event)
    requires Finishing(batches) && i < |batches| && round.Round? && round.calls == batches[i]
    requires Asks(a) == i + 1 && FlushRun(a) == 0 && CappedPerRound(cap.max, a) == GrantedOf(cap.max, batches, i)
    requires Unfinished(a)
    ensures MarkIs(cap, batches, i + 1, Then(a, round))
  {
    assert CallsTool(round, FINISH_TASK) <==> Finishes(batches[i]);
  }

  lemma RoundIs(st: Setting, batches: seq<seq<ToolCall>>, i: nat, a: Story, round: Event, t: Story)
    requires i < |batches| && round.Round? && Asks(a) > 0 && a.Then? && a.last == Ask(false) && !st.resolve
    requires Reply(st, a) == Response("", batches[i], Unset)
    requires Interpret(st.extract, "", batches[i]) == ("", batches[i])
    requires Follows(st, t) && t == Then(a, round)
    ensures round.calls == batches[i] && Follows(st, a)
  {
    assert FollowsLast(st, a, round);
  }

  // An iteration leaves what was there before in place.
  lemma StepBack(env: Environment, st: Setting, base: seq<Message>, batches: seq<seq<ToolCall>>, out: string, i: nat,
                 s: Story, t: Story)
    requires Scripted(env, st, batches, out, false) && Iteration(env, st, base, i, s, t) && Follows(st, t)
    ensures Follows(st, s)
  {
    var a := Asking(env, i, s);
    var round :| AfterReply(env, st, base, a, round, t);
    var r := Then(a, round);
    assert !NearlyFull(env, LogAfter(base, r));
    assert t == r || t == Noted(r, UserRole, env.prompts.nudge);
    assert Follows(st, r);
    assert Follows(st, a);
    assert a.prev == s || a.prev == Noted(s, SystemRole, env.prompts.checkpoint);
    assert Follows(st, a.prev);
  }

  lemma {:induction false} MarksFollow(env: Environment, st: Setting, base: seq<Message>, batches: seq<seq<ToolCall>>,
                                       out: string, marks: seq<Story>, i: nat)
    requires Scripted(env, st, batches, out, false) && Marks(env, st, base, marks) && Follows(st, marks[|marks| - 1])
    requires i < |marks|
    ensures Follows(st, marks[i])
    decreases |marks| - i
  {
    if i + 1 < |marks| {
      MarksFollow(env, st, base, batches, out, marks, i + 1);
      assert Iteration(env, st, base, i + 1, marks[i], marks[i + 1]);
      StepBack(env, st, base, batches, out, i + 1, marks[i], marks[i + 1]);
    }
  }

  lemma {:induction false} MarksAre(env: Environment, st: Setting, cfg: Config, base: seq<Message>, goal: string,
                                    batches: seq<seq<ToolCall>>, out: string, marks: seq<Story>, i: nat)
    requires ScriptedRun(env, st, cfg, base, goal, batches, out, marks)
    requires Marks(env, st, base, marks) && Follows(st, marks[|marks| - 1]) && i < |marks|
    ensures MarkIs(cfg.cap, batches, i, marks[i])
  {
    if i == 0 {
      assert !NearlyFull(env, LogAfter(base, Aimed(env, goal)));
      assert marks[0] == Aimed(env, goal);
      assert Unfinished(Start);
    } else {
      MarksAre(env, st, cfg, base, goal, batches, out, marks, i - 1);
      MarksFollow(env, st, base, batches, out, marks, i);
      assert Iteration(env, st, base, i - 1 + 1, marks[i - 1], marks[i]);
      NextMark(env, st, cfg.cap, base, batches, out, i - 1, marks[i - 1], marks[i]);
    }
  }

  // Every run of RunAutonomous in these surroundings ends with its last batch, and
  // executes exactly what a counter per round grants.
  lemma AutoRunSpends(env: Environment, st: Setting, cfg: Config, base: seq<Message>, goal: string,
                      batches: seq<seq<ToolCall>>, out: string, marks: seq<Story>, t: Story, res: RunResult)
    requires ScriptedRun(env, st, cfg, base, goal, batches, out, marks)
    requires Follows(st, t) && AutoOver(env, st, cfg, base, marks, t, res)
    ensures res.Done? && res.iterations == |batches|
    ensures Executed(t) == Spent(t) == GrantedOf(cfg.cap.max, batches, |batches|)
  {
    var n := |marks| - 1;
    var last := marks[n];
    if res.StreamFailed? {
      assert Follows(st, last);
      MarksAre(env, st, cfg, base, goal, batches, out, marks, n);
      AskingIs(env, cfg.cap, batches, n, last);
      RequestGets(env, st, batches, out, false, t);
    } else {
      MarksAre(env, st, cfg, base, goal, batches, out, marks, n);
      EachRoundBudget(cfg.cap, t);
      assert Unfinished(t) <==> n < |batches|;
    }
  }

  function Batches(cap: nat, n: nat, call: ToolCall): seq<seq<ToolCall>> {
    seq(n, k => seq(cap, _ => if k == n - 1 then call.(name := FINISH_TASK) else call))
  }

  lemma {:induction false} FullBatches(cap: nat, n: nat, call: ToolCall, k: nat)
    requires cap > 0 && k <= n
    ensures GrantedOf(cap, Batches(cap, n, call), k) == cap * k
  {
    if k > 0 {
      FullBatches(cap, n, call, k - 1);
    }
  }

  lemma FullBatchesFinish(cap: nat, n: nat, call: ToolCall)
    requires cap > 0 && 1 <= n <= 500 && call.name != FINISH_TASK
    ensures Finishing(Batches(cap, n, call))
  {
    var batches: seq<seq<ToolCall>> := Batches(cap, n, call);
    forall k | 0 <= k < n ensures batches[k] != [] && (Finishes(batches[k]) <==> k == n - 1) {
      assert batches[k][0].name == if k == n - 1 then FINISH_TASK else call.name;
    }
  }

  // So the bound is met: with a model that asks for as many calls as the cap in each of n
  // rounds, there is a run, and every run executes n times the cap.
  lemma AutoSpendsAll(env: Environment, st: Setting, cfg: Config, base: seq<Message>, goal: string, n: nat,
                      call: ToolCall, out: string)
    requires cfg.cap.max > 0 && 1 <= n <= 500 && call.name != FINISH_TASK && !st.resolve
    requires Scripted(env, st, Batches(cfg.cap.max, n, call), out, false)
    ensures exists marks, t :: IsRun(env, st, cfg, base, goal, marks, t, Done(COMPLETED, n))
    ensures forall marks, t, res :: IsRun(env, st, cfg, base, goal, marks, t, res) ==> Executed(t) == cfg.cap.max * n
  {
    var batches := Batches(cfg.cap.max, n, call);
    FullBatchesFinish(cfg.cap.max, n, call);
    FullBatches(cfg.cap.max, n, call, n);
    var marks0, t0 := AutoRunExists(env, st, cfg, base, goal, batches, out);
    assert IsRun(env, st, cfg, base, goal, marks0, t0, Done(COMPLETED, n));
    forall marks, t, res | IsRun(env, st, cfg, base, goal, marks, t, res) ensures Executed(t) == cfg.cap.max * n {
      AutoRunSpends(env, st, cfg, base, goal, batches, out, marks, t, res);
    }
  }

  // What RunAutonomous promises of a run without a plan.
  ghost predicate IsRun(env: Environment, st: Setting, cfg: Config, base: seq<Message>, goal: string,
                        marks: seq<Story>, t: Story, res: RunResult) {
    && marks != [] && AutoOpening(env, st, base, goal, None, marks[0])
    && Follows(st, t) && AutoOver(env, st, cfg, base, marks, t, res)
  }

  // ------------------------------------------------------------------
  // Flushes
  // ------------------------------------------------------------------

  // The round of a flush: all its calls are executed.
  function FlushBatch(calls: seq<ToolCall>, out: string): Event {
    FlushRound(Shown("", calls), calls, seq(|calls|, i requires 0 <= i < |calls| => ToolResult(calls[i], out)))
  }

  // A flush in surroundings whose memory is always nearly full.
  lemma FlushFollows(env: Environment, st: Setting, base: seq<Message>, batches: seq<seq<ToolCall>>, out: string,
                     s: Story)
    returns (t: Story)
    requires Scripted(env, st, batches, out, true) && Follows(st, s) && Shaped(s) && Asks(s) < |batches|
    ensures Relieved(env, st, base, s, t) && Follows(st, t) && Shaped(t) && Asks(t) == Asks(s) + 1
    ensures FlushRun(t) == FlushRun(s) + |batches[Asks(s)]| && Spent(t) == Spent(s)
  {
    var noted := Noted(s, UserRole, env.prompts.flush);
    var asked := Then(noted, Ask(true));
    var e := FlushBatch(batches[Asks(s)], out);
    assert Follows(st, noted) && Asks(noted) == Asks(s) && FlushRun(noted) == FlushRun(s) && Spent(noted) == Spent(s);
    assert Follows(st, asked) && Asks(asked) == Asks(s) + 1;
    assert FlushRun(asked) == FlushRun(s) && Spent(asked) == Spent(s);
    assert Shaped(noted) && Shaped(asked);
    RequestGets(env, st, batches, out, true, asked);
    forall r | r in e.results ensures Answered(st.world, r) {
      assert st.world(0)(0, r.call) == out;
      assert AnswerOf(st.world(0), r.call, r.result);
    }
    assert NearlyFull(env, LogAfter(base, s));
    assert FollowsLast(st, asked, e);
    t := Then(asked, e);
  }

  // A beginning of the turn on which the flush can act.
  ghost predicate Fresh(st: Setting, s: Story) {
    Follows(st, s) && Shaped(s) && Asks(s) == 0 && Spent(s) == 0 && FlushRun(s) == 0
  }

  lemma FreshNoted(st: Setting, s: Story, role: Role, content: string)
    requires Fresh(st, s)
    ensures Fresh(st, Noted(s, role, content))
  {
  }

  lemma AutoFlushRound(env: Environment, st: Setting, cap: Cap, base: seq<Message>, calls: seq<ToolCall>,
                       finish: ToolCall, out: string, o: Story)
    returns (e: Event)
    requires Scripted(env, st, [calls, [finish]], out, true) && !st.resolve
    requires finish.name == FINISH_TASK && cap.max == 1 && Follows(st, o) && Shaped(o) && Asks(o) == 1
    ensures e.Round? && RoundKept(cap, 0, e) && CallsTool(e, FINISH_TASK) && |e.executed| == 1
    ensures AfterReply(env, st, base, Asking(env, 1, o), e, Then(Asking(env, 1, o), e))
    ensures Follows(st, Then(Asking(env, 1, o), e))
  {
    var a := Asking(env, 1, o);
    e := BatchRound(cap, [finish], out);
    AskingKeeps(env, st, o, 1);
    RequestGets(env, st, [calls, [finish]], out, true, a);
    BatchFollows(env, st, cap, [calls, [finish]], out, true, a);
    assert e.calls[0].name == FINISH_TASK;
  }

  // So no cap bounds a run: there is an autonomous one, done after one round of one call,
  // that executes any calls beyond it in the flush it opens with.
  lemma AutoFlushUncounted(env: Environment, st: Setting, cfg: Config, base: seq<Message>, goal: string,
                           calls: seq<ToolCall>, finish: ToolCall, out: string)
    returns (marks: seq<Story>, t: Story)
    requires Scripted(env, st, [calls, [finish]], out, true) && !st.resolve
    requires finish.name == FINISH_TASK && cfg.cap.max == 1
    ensures IsRun(env, st, cfg, base, goal, marks, t, Done(COMPLETED, 1)) && Executed(t) == |calls| + 1
  {
    var aimed := Aimed(env, goal);
    assert Fresh(st, Start);
    FreshNoted(st, Start, SystemRole, env.prompts.goal + goal + env.prompts.orders);
    var o := FlushFollows(env, st, base, [calls, [finish]], out, aimed);
    AutoOpeningInRun(env, st, cfg, base, goal, None, o, o);
    var e := AutoFlushRound(env, st, cfg.cap, base, calls, finish, out, o);
    var a := Asking(env, 1, o);
    assert FlushRun(a) == |calls| && Spent(a) == 0;
    t := Then(a, e);
    marks := [o] + [t];
    AutoPlayed(env, st, cfg, base, [o], o, e, t, COMPLETED);
  }

  lemma EmptyRound(env: Environment, st: Setting, cap: Cap, calls: seq<ToolCall>, out: string, used: nat, a: Story)
    requires Scripted(env, st, [calls, []], out, true)
    requires Follows(st, a) && a.Then? && a.last == Ask(false) && Asks(a) == 2
    ensures var e := Round("", [], [], []); Follows(st, Then(a, e)) && RoundKept(cap, used, e)
  {
    var e := Round("", [], [], []);
    RequestGets(env, st, [calls, []], out, true, a);
    assert Genuine(st.world(0), [], e.executed);
    assert FollowsLast(st, a, e);
  }

  // The same of Run and RunStream: a turn answered at once executes any calls.
  lemma TurnFlushUncounted(env: Environment, st: Setting, cfg: Config, base: seq<Message>, user: string,
                           calls: seq<ToolCall>, out: string)
    returns (o: Story, t: Story)
    requires Scripted(env, st, [calls, []], out, true) && cfg.maxIterations >= 1
    ensures Opening(env, st, base, user, None, o) && Follows(st, t)
    ensures Over(st, cfg, o, t, Done("", 1)) && Executed(t) == |calls|
  {
    assert Fresh(st, Start);
    FreshNoted(st, Start, UserRole, user);
    o := FlushFollows(env, st, base, [calls, []], out, Planned(env, user, None));
    var a := Then(o, Ask(false));
    assert Follows(st, a) && Asks(a) == 2 && FlushRun(a) == |calls| && Spent(a) == 0;
    t := Then(a, Round("", [], [], []));
    EmptyRound(env, st, cfg.cap, calls, out, Used(WholeTurn, cfg.cap, o), a);
    OpeningInTurn(env, st, cfg, base, user, None, o);
    JudgeDone(st, cfg, o, o, Round("", [], [], []), 0, 0, 0, multiset{});
  }
}
