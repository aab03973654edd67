// internal/agent/runner.go: executeToolCallsParallel and boundedToolExecute.
//
// The concurrent executor is a transition system: one main goroutine that
// spawns a worker per call, a buffered channel used as a semaphore, a mutex
// around the budgeted execution, indexed result slots and a WaitGroup. Each
// step of `Next` is one shared-memory operation of one goroutine.
module ToolExecutor {
  import opened Wrappers
  import opened Provider
  import opened Totals
  import Decimal

  const MAX_PARALLEL: nat := 4

  datatype ToolResult = ToolResult(call: ToolCall, result: string)

  // The answer to a call that the budget no longer admits.
  function BudgetMessage(max: int): string {
    "[Bounded autonomy] Tool call budget for this turn exhausted ("
    + (if max < 0 then "-" + Decimal.Print(-max) else Decimal.Print(max))
    + " tool calls). Summarize using evidence already collected; do not assume further tools will run."
  }

  // ------------------------------------------------------------------
  // State
  // ------------------------------------------------------------------

  datatype Pc =
    | Absent      // not spawned yet
    | Locking     // budgetMu.Lock()
    | Checking    // compares the counter with the cap
    | Counting    // increments the counter
    | Executing   // runs the tool
    | Unlocking   // budgetMu.Unlock()
    | Storing     // results[idx] = ...
    | Releasing   // <-sem
    | Finishing   // wg.Done()
    | Gone

  // What became of a worker's call: refused by the budget, or executed as the
  // order-th execution of the batch.
  datatype Fate = Undecided | Denied | Ran(order: nat)

  datatype Worker = Worker(pc: Pc, fate: Fate, res: string)

  datatype MainPc =
    | Adding      // wg.Add(1)
    | Acquiring   // sem <- struct{}{}
    | Spawning    // go func(...)
    | Waiting     // wg.Wait()
    | Returned

  // One call of the executor: the calls, the configured cap and the text that
  // answers a call the cap refuses.
  datatype Job = Job(calls: seq<ToolCall>, max: int, refusal: string)

  datatype State = State(
    main: MainPc,
    next: nat,                          // loop index of main
    workers: seq<Worker>,
    sem: nat,                           // elements in the channel
    mu: Option<nat>,                    // holder of budgetMu
    used: int,                          // *toolBudgetUsed
    wg: nat,                            // WaitGroup counter
    results: seq<Option<ToolResult>>,
    executed: seq<(nat, string)>)       // real executions: call index and output, in order

  datatype Thread = Main | Goroutine(idx: nat)

  function Init(job: Job, used: int): State {
    State(Adding, 0, seq(|job.calls|, _ => Worker(Absent, Undecided, "")), 0, None, used, 0,
          seq(|job.calls|, _ => None), [])
  }

  predicate Shape(job: Job, s: State) {
    && |s.workers| == |s.results| == |job.calls|
    && (s.mu.Some? ==> s.mu.value < |s.workers|)
    && (if s.main.Waiting? || s.main.Returned? then s.next == |job.calls| else s.next < |job.calls|)
  }

  // ------------------------------------------------------------------
  // Steps
  // ------------------------------------------------------------------

  // A goroutine can move. Receiving from an empty channel blocks and a negative
  // WaitGroup counter panics, so both count as being stuck here.
  predicate Enabled(s: State, t: Thread) {
    match t
    case Main =>
      (match s.main
       case Acquiring => s.sem < MAX_PARALLEL
       case Waiting => s.wg == 0
       case Returned => false
       case _ => true)
    case Goroutine(i) =>
      i < |s.workers| &&
      match s.workers[i].pc
      case Absent => false
      case Gone => false
      case Locking => s.mu.None?
      case Releasing => s.sem > 0
      case Finishing => s.wg > 0
      case _ => true
  }

  // The effect of one step; `out` is what the tool answers if this step runs one.
  function Next(job: Job, s: State, t: Thread, out: string): State
    requires Shape(job, s) && Enabled(s, t)
  {
    match t
    case Main => NextMain(job, s)
    case Goroutine(i) => NextWorker(job, s, i, out)
  }

  function NextMain(job: Job, s: State): State
    requires Shape(job, s) && Enabled(s, Main)
  {
    match s.main
    case Adding => s.(main := Acquiring, wg := s.wg + 1)
    case Acquiring => s.(main := Spawning, sem := s.sem + 1)
    case Spawning =>
      s.(main := if s.next + 1 == |job.calls| then Waiting else Adding,
         next := s.next + 1,
         workers := s.workers[s.next := s.workers[s.next].(pc := Locking)])
    case Waiting => s.(main := Returned)
  }

  function NextWorker(job: Job, s: State, i: nat, out: string): State
    requires Shape(job, s) && Enabled(s, Goroutine(i))
  {
    var w := s.workers[i];
    match w.pc
    case Locking => At(s, i, w.(pc := Checking)).(mu := Some(i))
    case Checking =>
      if job.max > 0 && s.used >= job.max then
        At(s, i, Worker(Unlocking, Denied, job.refusal))
      else
        At(s, i, w.(pc := if job.max > 0 then Counting else Executing))
    case Counting => At(s, i, w.(pc := Executing)).(used := s.used + 1)
    case Executing =>
      At(s, i, Worker(Unlocking, Ran(|s.executed|), out)).(executed := s.executed + [(i, out)])
    case Unlocking => At(s, i, w.(pc := Storing)).(mu := None)
    case Storing =>
      At(s, i, w.(pc := Releasing)).(results := s.results[i := Some(ToolResult(job.calls[i], w.res))])
    case Releasing => At(s, i, w.(pc := Finishing)).(sem := s.sem - 1)
    case Finishing => At(s, i, w.(pc := Gone)).(wg := s.wg - 1)
  }

  function At(s: State, i: nat, w: Worker): State
    requires i < |s.workers|
  {
    s.(workers := s.workers[i := w])
  }

  // ------------------------------------------------------------------
  // Invariant
  // ------------------------------------------------------------------

  predicate InCritical(pc: Pc) { pc.Checking? || pc.Counting? || pc.Executing? || pc.Unlocking? }

  predicate Settled(pc: Pc) {
    pc.Unlocking? || pc.Storing? || pc.Releasing? || pc.Finishing? || pc.Gone?
  }

  predicate Stored(pc: Pc) { pc.Releasing? || pc.Finishing? || pc.Gone? }

  // Between acquire and release.
  function HoldsSlot(w: Worker): nat {
    if w.pc.Absent? || w.pc.Finishing? || w.pc.Gone? then 0 else 1
  }

  function Outstanding(w: Worker): nat { if w.pc.Absent? || w.pc.Gone? then 0 else 1 }

  // Paid for out of the budget.
  function Charged(w: Worker): nat { if w.pc.Executing? || w.fate.Ran? then 1 else 0 }

  function HasRun(w: Worker): nat { if w.fate.Ran? then 1 else 0 }

  // Steps a worker still has to take, at most.
  function Rank(w: Worker): nat {
    match w.pc
    case Absent => 9
    case Locking => 8
    case Checking => 7
    case Counting => 6
    case Executing => 5
    case Unlocking => 4
    case Storing => 3
    case Releasing => 2
    case Finishing => 1
    case Gone => 0
  }

  predicate WorkerOk(job: Job, s: State, i: nat)
    requires Shape(job, s) && i < |s.workers|
  {
    var w := s.workers[i];
    && (w.pc.Absent? <==> i >= s.next)
    && (InCritical(w.pc) <==> s.mu == Some(i))
    && (Settled(w.pc) <==> !w.fate.Undecided?)
    && (w.pc.Counting? ==> job.max > 0 && s.used < job.max)
    && (w.pc.Executing? && job.max > 0 ==> s.used <= job.max)
    && (w.fate.Denied? ==> job.max > 0 && s.used >= job.max && w.res == job.refusal)
    && (w.fate.Ran? ==> w.fate.order < |s.executed| && s.executed[w.fate.order] == (i, w.res))
    && s.results[i] == if Stored(w.pc) then Some(ToolResult(job.calls[i], w.res)) else None
  }

  predicate ExecutedOk(s: State, k: nat)
    requires k < |s.executed|
  {
    s.executed[k].0 < |s.workers| && s.workers[s.executed[k].0].fate == Ran(k)
  }

  predicate SlotsOk(s: State) {
    && s.sem == Total(s.workers, HoldsSlot) + (if s.main.Spawning? then 1 else 0)
    && s.sem <= MAX_PARALLEL
    && s.wg == Total(s.workers, Outstanding) + (if s.main.Acquiring? || s.main.Spawning? then 1 else 0)
    && (s.main.Returned? ==> s.wg == 0)
  }

  predicate BudgetOk(max: int, used0: int, s: State) {
    && |s.executed| == Total(s.workers, HasRun)
    && (if max > 0 then
          && s.used == used0 + Total(s.workers, Charged)
          && (Total(s.workers, Charged) > 0 ==> s.used <= max)
        else s.used == used0)
  }

  ghost predicate Inv(job: Job, used0: int, s: State) {
    && Shape(job, s)
    && SlotsOk(s)
    && BudgetOk(job.max, used0, s)
    && (forall i: nat :: i < |s.workers| ==> WorkerOk(job, s, i))
    && (forall k: nat :: k < |s.executed| ==> ExecutedOk(s, k))
  }

  lemma InitInv(job: Job, used0: int)
    requires job.calls != []
    ensures Inv(job, used0, Init(job, used0))
  {
    var s := Init(job, used0);
    TotalUniform(s.workers, HoldsSlot, 0);
    TotalUniform(s.workers, Outstanding, 0);
    TotalUniform(s.workers, HasRun, 0);
    TotalUniform(s.workers, Charged, 0);
  }

  lemma WeightsAfter(s: State, i: nat, w: Worker)
    requires i < |s.workers|
    ensures Total(s.workers[i := w], HoldsSlot) + HoldsSlot(s.workers[i]) == Total(s.workers, HoldsSlot) + HoldsSlot(w)
    ensures Total(s.workers[i := w], Outstanding) + Outstanding(s.workers[i])
            == Total(s.workers, Outstanding) + Outstanding(w)
    ensures Total(s.workers[i := w], Charged) + Charged(s.workers[i]) == Total(s.workers, Charged) + Charged(w)
    ensures Total(s.workers[i := w], HasRun) + HasRun(s.workers[i]) == Total(s.workers, HasRun) + HasRun(w)
  {
    TotalUpdate(s.workers, i, w, HoldsSlot);
    TotalUpdate(s.workers, i, w, Outstanding);
    TotalUpdate(s.workers, i, w, Charged);
    TotalUpdate(s.workers, i, w, HasRun);
  }

  lemma MainKeepsInv(job: Job, used0: int, s: State)
    requires Inv(job, used0, s) && Enabled(s, Main)
    ensures Inv(job, used0, NextMain(job, s))
  {
    var s' := NextMain(job, s);
    if s.main.Spawning? {
      assert WorkerOk(job, s, s.next);
      WeightsAfter(s, s.next, s.workers[s.next].(pc := Locking));
    }
    forall i: nat | i < |s'.workers| ensures WorkerOk(job, s', i) {
      assert WorkerOk(job, s, i);
    }
    forall k: nat | k < |s'.executed| ensures ExecutedOk(s', k) {
      assert ExecutedOk(s, k);
    }
  }

  lemma WorkerCounts(job: Job, s: State, i: nat, out: string)
    requires Shape(job, s) && Enabled(s, Goroutine(i))
    ensures var s' := NextWorker(job, s, i, out);
            && i < |s'.workers| && s'.workers == s.workers[i := s'.workers[i]] && s'.main == s.main
            && s'.sem + HoldsSlot(s.workers[i]) == s.sem + HoldsSlot(s'.workers[i])
            && s'.wg + Outstanding(s.workers[i]) == s.wg + Outstanding(s'.workers[i])
            && Outstanding(s.workers[i]) == 1 && s'.sem <= s.sem
  {
  }

  lemma WorkerKeepsSlots(job: Job, s: State, i: nat, out: string)
    requires Shape(job, s) && Enabled(s, Goroutine(i)) && SlotsOk(s)
    ensures SlotsOk(NextWorker(job, s, i, out))
  {
    WorkerCounts(job, s, i, out);
    var w := NextWorker(job, s, i, out).workers[i];
    TotalUpdate(s.workers, i, w, HoldsSlot);
    TotalUpdate(s.workers, i, w, Outstanding);
    TotalDominates(s.workers, i, Outstanding);
  }

  lemma WorkerCharges(job: Job, s: State, i: nat, out: string)
    requires Shape(job, s) && Enabled(s, Goroutine(i)) && WorkerOk(job, s, i)
    ensures var s' := NextWorker(job, s, i, out);
            var w, w' := s.workers[i], s'.workers[i];
            && s'.workers == s.workers[i := w']
            && |s'.executed| + HasRun(w) == |s.executed| + HasRun(w')
            && (if s.workers[i].pc.Counting? then s'.used == s.used + 1 && s.used < job.max else s'.used == s.used)
            && (job.max > 0 ==> s'.used + Charged(w) == s.used + Charged(w'))
            && (Charged(w') > Charged(w) ==> job.max <= 0 || s'.used <= job.max)
  {
  }

  lemma WorkerKeepsBudget(job: Job, used0: int, s: State, i: nat, out: string)
    requires Shape(job, s) && Enabled(s, Goroutine(i)) && BudgetOk(job.max, used0, s) && WorkerOk(job, s, i)
    ensures BudgetOk(job.max, used0, NextWorker(job, s, i, out))
  {
    WorkerCharges(job, s, i, out);
    var w := NextWorker(job, s, i, out).workers[i];
    TotalUpdate(s.workers, i, w, Charged);
    TotalUpdate(s.workers, i, w, HasRun);
    TotalDominates(s.workers, i, Charged);
  }

  lemma WorkerKeepsSelf(job: Job, s: State, i: nat, out: string)
    requires Shape(job, s) && Enabled(s, Goroutine(i)) && WorkerOk(job, s, i)
    ensures Shape(job, NextWorker(job, s, i, out))
    ensures WorkerOk(job, NextWorker(job, s, i, out), i)
  {
    WorkerFrame(job, s, i, out);
  }

  // What a goroutine's step leaves alone; the counter and the mutex change only in the
  // hands of their owner.
  lemma WorkerFrame(job: Job, s: State, i: nat, out: string)
    requires Shape(job, s) && Enabled(s, Goroutine(i)) && WorkerOk(job, s, i)
    ensures Shape(job, NextWorker(job, s, i, out))
    ensures var s' := NextWorker(job, s, i, out);
            && s'.next == s.next && s.executed <= s'.executed && s.used <= s'.used
            && (s'.used == s.used || s.mu == Some(i))
            && (s'.mu == s.mu || (s'.mu == Some(i) && s.mu.None?) || (s'.mu.None? && s.mu == Some(i)))
            && (forall j :: 0 <= j < |s.workers| && j != i ==>
               s'.workers[j] == s.workers[j] && s'.results[j] == s.results[j])
  {
  }

  lemma WorkerKeepsOthers(job: Job, s: State, i: nat, out: string, j: nat)
    requires Shape(job, s) && Enabled(s, Goroutine(i)) && j < |s.workers| && j != i
    requires WorkerOk(job, s, i) && WorkerOk(job, s, j)
    ensures Shape(job, NextWorker(job, s, i, out))
    ensures WorkerOk(job, NextWorker(job, s, i, out), j)
  {
    WorkerFrame(job, s, i, out);
  }

  lemma WorkerKeepsExecuted(job: Job, s: State, i: nat, out: string, k: nat)
    requires Shape(job, s) && Enabled(s, Goroutine(i)) && WorkerOk(job, s, i)
    requires k < |NextWorker(job, s, i, out).executed|
    requires k < |s.executed| ==> ExecutedOk(s, k)
    ensures ExecutedOk(NextWorker(job, s, i, out), k)
  {
  }

  lemma StepKeepsInv(job: Job, used0: int, s: State, t: Thread, out: string)
    requires Inv(job, used0, s) && Enabled(s, t)
    ensures Inv(job, used0, Next(job, s, t, out))
  {
    match t
    case Main => MainKeepsInv(job, used0, s);
    case Goroutine(i) =>
      WorkerKeepsSlots(job, s, i, out);
      WorkerKeepsBudget(job, used0, s, i, out);
      WorkerKeepsSelf(job, s, i, out);
      forall j: nat | j < |s.workers| && j != i ensures WorkerOk(job, NextWorker(job, s, i, out), j) {
        WorkerKeepsOthers(job, s, i, out, j);
      }
      forall k: nat | k < |NextWorker(job, s, i, out).executed|
        ensures ExecutedOk(NextWorker(job, s, i, out), k)
      {
        WorkerKeepsExecuted(job, s, i, out, k);
      }
  }

  // ------------------------------------------------------------------
  // What a finished batch has done
  // ------------------------------------------------------------------

  // How many of n further calls the cap admits; a cap of 0 or less is no cap.
  function Granted(max: int, used: int, n: nat): nat {
    if max <= 0 then n else if used >= max then 0 else if n <= max - used then n else max - used
  }

  // The contract of the executor, without its machinery: every call has its own
  // result in its own slot, the granted number of calls was really executed, none
  // of them twice, and each other call holds the refusal.
  ghost predicate Outcome(job: Job, used0: int, used1: int, results: seq<ToolResult>, executed: seq<(nat, string)>) {
    && |results| == |job.calls|
    && (forall i :: 0 <= i < |results| ==> results[i].call == job.calls[i])
    && |executed| == Granted(job.max, used0, |job.calls|)
    && used1 == (if job.max > 0 then used0 + |executed| else used0)
    && (forall k :: 0 <= k < |executed| ==>
          executed[k].0 < |results| && results[executed[k].0].result == executed[k].1)
    && (forall j, k :: 0 <= j < k < |executed| ==> executed[j].0 != executed[k].0)
    && (forall i :: 0 <= i < |results| && !ExecutedAt(executed, i) ==> results[i].result == job.refusal)
  }

  ghost predicate ExecutedAt(executed: seq<(nat, string)>, i: int) {
    exists k :: 0 <= k < |executed| && executed[k].0 == i
  }

  // The slots as the caller sees them once they are all filled.
  function Collected(s: State): (r: seq<ToolResult>)
    requires forall i :: 0 <= i < |s.results| ==> s.results[i].Some?
    ensures |r| == |s.results| && forall i :: 0 <= i < |r| ==> r[i] == s.results[i].value
  {
    seq(|s.results|, i requires 0 <= i < |s.results| => s.results[i].value)
  }

  lemma AllGone(job: Job, used0: int, s: State)
    requires Inv(job, used0, s) && s.main.Returned?
    ensures forall i: nat :: i < |s.workers| ==> s.workers[i].pc.Gone?
    ensures forall i :: 0 <= i < |s.results| ==> s.results[i] == Some(ToolResult(job.calls[i], s.workers[i].res))
  {
    forall i: nat | i < |s.workers|
      ensures s.workers[i].pc.Gone? && s.results[i] == Some(ToolResult(job.calls[i], s.workers[i].res))
    {
      assert WorkerOk(job, s, i);
      TotalDominates(s.workers, i, Outstanding);
    }
  }

  // With every worker gone, the executions add up to exactly what the cap grants.
  lemma ExecutionCount(job: Job, used0: int, s: State)
    requires Inv(job, used0, s) && s.main.Returned?
    ensures |s.executed| == Granted(job.max, used0, |job.calls|)
    ensures s.used == if job.max > 0 then used0 + |s.executed| else used0
  {
    AllGone(job, used0, s);
    SameTotal(s.workers);
    if d: nat :| d < |s.workers| && s.workers[d].fate.Denied? {
      assert WorkerOk(job, s, d);
      TotalAtMost(s.workers, HasRun);
    } else {
      forall i | 0 <= i < |s.workers| ensures HasRun(s.workers[i]) == 1 {
        assert WorkerOk(job, s, i);
      }
      TotalUniform(s.workers, HasRun, 1);
    }
  }

  lemma {:induction false} SameTotal(workers: seq<Worker>)
    requires forall i: nat :: i < |workers| ==> workers[i].pc.Gone?
    ensures Total(workers, HasRun) == Total(workers, Charged)
  {
    if workers != [] {
      assert forall i: nat :: i < |workers[1..]| ==> workers[1..][i] == workers[i + 1];
      assert workers[0].pc.Gone?;
      SameTotal(workers[1..]);
    }
  }

  lemma {:induction false} TotalAtMost(workers: seq<Worker>, weight: Worker -> nat)
    requires forall w :: weight(w) <= 1
    ensures Total(workers, weight) <= |workers|
  {
    if workers != [] {
      TotalAtMost(workers[1..], weight);
    }
  }

  lemma ReturnedOutcome(job: Job, used0: int, s: State)
    requires Inv(job, used0, s) && s.main.Returned?
    ensures forall i :: 0 <= i < |s.results| ==> s.results[i].Some?
    ensures Outcome(job, used0, s.used, Collected(s), s.executed)
  {
    AllGone(job, used0, s);
    ExecutionCount(job, used0, s);
    forall k | 0 <= k < |s.executed|
      ensures s.executed[k].0 < |s.workers| && s.workers[s.executed[k].0].fate == Ran(k)
      ensures s.workers[s.executed[k].0].res == s.executed[k].1
    {
      assert ExecutedOk(s, k);
      assert WorkerOk(job, s, s.executed[k].0);
    }
    forall i | 0 <= i < |s.workers| ensures ExecutedAt(s.executed, i) || s.workers[i].res == job.refusal {
      assert WorkerOk(job, s, i);
      var w := s.workers[i];
      if w.fate.Ran? {
        assert s.executed[w.fate.order].0 == i;
      }
    }
  }

  // What the contract says in figures.
  lemma OutcomeSays(job: Job, used0: int, used1: int, results: seq<ToolResult>, executed: seq<(nat, string)>)
    requires Outcome(job, used0, used1, results, executed)
    ensures var n := |job.calls|;
            && |results| == n
            && (job.max <= 0 ==> |executed| == n && used1 == used0)
            && (job.max > 0 && used0 >= job.max ==> |executed| == 0 && used1 == used0)
            && (job.max > 0 && used0 + n <= job.max ==> |executed| == n && used1 == used0 + n)
            && (job.max > 0 && used0 <= job.max < used0 + n ==> |executed| == job.max - used0 && used1 == job.max)
    ensures forall j, k :: 0 <= j < k < |executed| ==> executed[j].0 != executed[k].0
    ensures forall i :: 0 <= i < |results| ==>
              && results[i].call == job.calls[i]
              && ((exists k :: 0 <= k < |executed| && executed[k] == (i, results[i].result))
                  || results[i].result == job.refusal)
  {
    forall i | 0 <= i < |results|
      ensures results[i].call == job.calls[i]
      ensures (exists k :: 0 <= k < |executed| && executed[k] == (i, results[i].result))
              || results[i].result == job.refusal
    {
      if ExecutedAt(executed, i) {
        var k :| 0 <= k < |executed| && executed[k].0 == i;
        assert executed[k] == (i, results[i].result);
      }
    }
  }

  // ------------------------------------------------------------------
  // Progress
  // ------------------------------------------------------------------

  function Threads(n: nat): set<Thread> { {Main} + set i: nat | i < n :: Goroutine(i) }

  // A goroutine that is not waiting for the lock can always move: the channel
  // receive finds an element and the WaitGroup counter never goes negative.
  lemma OnlyLockBlocks(job: Job, used0: int, s: State, i: nat)
    requires Inv(job, used0, s) && i < |s.workers|
    requires !(s.workers[i].pc in {Absent, Gone, Locking})
    ensures Enabled(s, Goroutine(i))
  {
    TotalDominates(s.workers, i, HoldsSlot);
    TotalDominates(s.workers, i, Outstanding);
  }

  // Main gets into the channel exactly while fewer than four are between acquire and
  // release.
  lemma AcquireIff(job: Job, used0: int, s: State)
    requires Inv(job, used0, s) && s.main.Acquiring?
    ensures Enabled(s, Main) <==> Total(s.workers, HoldsSlot) < 4
  {
  }

  // A worker that is neither absent nor gone means that some worker can move.
  lemma SomeWorkerMoves(job: Job, used0: int, s: State, i: nat) returns (t: Thread)
    requires Inv(job, used0, s) && i < |s.workers| && !s.workers[i].pc.Absent? && !s.workers[i].pc.Gone?
    ensures t in Threads(|job.calls|) && Enabled(s, t)
  {
    if s.workers[i].pc.Locking? && s.mu.Some? {
      // Only a live worker holds the lock, and the holder is never waiting for it.
      var h := MutexHolder(job, used0, s);
      OnlyLockBlocks(job, used0, s, h);
      t := Goroutine(h);
    } else {
      if !s.workers[i].pc.Locking? {
        OnlyLockBlocks(job, used0, s, i);
      }
      t := Goroutine(i);
    }
  }

  lemma MutexHolder(job: Job, used0: int, s: State) returns (h: nat)
    requires Inv(job, used0, s) && s.mu.Some?
    ensures h < |s.workers| && InCritical(s.workers[h].pc)
  {
    h := s.mu.value;
    assert WorkerOk(job, s, h);
  }

  lemma NeverStuck(job: Job, used0: int, s: State) returns (t: Thread)
    requires Inv(job, used0, s) && !s.main.Returned?
    ensures t in Threads(|job.calls|) && Enabled(s, t)
  {
    if Enabled(s, Main) {
      t := Main;
    } else if s.main.Acquiring? {
      var i := TotalWitness(s.workers, HoldsSlot);
      t := SomeWorkerMoves(job, used0, s, i);
    } else {
      var i := TotalWitness(s.workers, Outstanding);
      t := SomeWorkerMoves(job, used0, s, i);
    }
  }

  function MainRank(n: nat, s: State): nat
    requires if s.main.Waiting? || s.main.Returned? then s.next == n else s.next < n
  {
    match s.main
    case Adding => 3 * (n - s.next) + 1
    case Acquiring => 3 * (n - s.next)
    case Spawning => 3 * (n - s.next) - 1
    case Waiting => 1
    case Returned => 0
  }

  // An upper bound on the steps that are left.
  function Measure(job: Job, s: State): nat
    requires Shape(job, s)
  {
    MainRank(|job.calls|, s) + Total(s.workers, Rank)
  }

  lemma WorkerRanks(job: Job, s: State, i: nat, out: string)
    requires Shape(job, s) && Enabled(s, Goroutine(i))
    ensures var s' := NextWorker(job, s, i, out);
            && Shape(job, s') && s'.main == s.main && s'.next == s.next
            && s'.workers == s.workers[i := s'.workers[i]] && Rank(s'.workers[i]) < Rank(s.workers[i])
  {
  }

  lemma WorkerRankDrops(job: Job, s: State, i: nat, out: string)
    requires Shape(job, s) && Enabled(s, Goroutine(i))
    ensures Shape(job, NextWorker(job, s, i, out))
    ensures Measure(job, NextWorker(job, s, i, out)) < Measure(job, s)
  {
    WorkerRanks(job, s, i, out);
    TotalUpdate(s.workers, i, NextWorker(job, s, i, out).workers[i], Rank);
  }

  lemma MainRankDrops(job: Job, s: State)
    requires Shape(job, s) && Enabled(s, Main)
    requires s.main.Spawning? ==> s.workers[s.next].pc.Absent?
    ensures Shape(job, NextMain(job, s))
    ensures Measure(job, NextMain(job, s)) < Measure(job, s)
  {
    if s.main.Spawning? {
      TotalUpdate(s.workers, s.next, s.workers[s.next].(pc := Locking), Rank);
    }
  }

  lemma MeasureDecreases(job: Job, used0: int, s: State, t: Thread, out: string)
    requires Inv(job, used0, s) && Enabled(s, t)
    ensures Shape(job, Next(job, s, t, out))
    ensures Measure(job, Next(job, s, t, out)) < Measure(job, s)
  {
    match t
    case Main =>
      if s.main.Spawning? {
        assert WorkerOk(job, s, s.next);
      }
      MainRankDrops(job, s);
    case Goroutine(i) => WorkerRankDrops(job, s, i, out);
  }

  // ------------------------------------------------------------------
  // All interleavings
  // ------------------------------------------------------------------

  // The state after a schedule: which goroutine moves, and what a tool answers
  // should that step run one. None if the schedule asks for a blocked goroutine.
  function Play(job: Job, s: State, schedule: seq<(Thread, string)>): Option<State>
    decreases |schedule|
  {
    if schedule == [] then Some(s)
    else if Shape(job, s) && Enabled(s, schedule[0].0) then
      Play(job, Next(job, s, schedule[0].0, schedule[0].1), schedule[1..])
    else None
  }

  lemma {:induction false} PlayKeepsInv(job: Job, used0: int, s: State, schedule: seq<(Thread, string)>)
    requires Inv(job, used0, s) && Play(job, s, schedule).Some?
    ensures Inv(job, used0, Play(job, s, schedule).value)
    ensures |schedule| + Measure(job, Play(job, s, schedule).value) <= Measure(job, s)
    decreases |schedule|
  {
    if schedule != [] {
      var (t, out) := schedule[0];
      StepKeepsInv(job, used0, s, t, out);
      MeasureDecreases(job, used0, s, t, out);
      PlayKeepsInv(job, used0, Next(job, s, t, out), schedule[1..]);
    }
  }

  // Whatever the schedule: at most four goroutines are between acquire and
  // release, at most one runs a tool, no goroutine but one waiting for the lock is
  // blocked, somebody can move until main returns, and main returns within
  // 12 n + 1 steps with the batch done.
  lemma {:induction false} EveryInterleaving(job: Job, used0: int, schedule: seq<(Thread, string)>, s: State)
    requires job.calls != []
    requires Play(job, Init(job, used0), schedule) == Some(s)
    ensures |s.workers| == |job.calls|
    ensures Total(s.workers, HoldsSlot) <= 4
    ensures forall i, j | 0 <= i < |s.workers| && 0 <= j < |s.workers| ::
              s.workers[i].pc.Executing? && s.workers[j].pc.Executing? ==> i == j
    ensures forall i: nat :: i < |s.workers| && !(s.workers[i].pc in {Absent, Gone, Locking}) ==>
            Enabled(s, Goroutine(i))
    ensures s.main.Returned? || exists t :: t in Threads(|job.calls|) && Enabled(s, t)
    ensures |schedule| <= 12 * |job.calls| + 1
    ensures s.main.Returned? ==>
              && (forall i :: 0 <= i < |s.results| ==> s.results[i].Some?)
              && Outcome(job, used0, s.used, Collected(s), s.executed)
  {
    var s0 := Init(job, used0);
    InitInv(job, used0);
    TotalUniform(s0.workers, Rank, 9);
    PlayKeepsInv(job, used0, s0, schedule);
    forall i: nat | i < |s.workers| && s.workers[i].pc.Executing? ensures s.mu == Some(i) {
      assert WorkerOk(job, s, i);
    }
    forall i: nat | i < |s.workers| && !(s.workers[i].pc in {Absent, Gone, Locking})
      ensures Enabled(s, Goroutine(i))
    {
      OnlyLockBlocks(job, used0, s, i);
    }
    if s.main.Returned? {
      ReturnedOutcome(job, used0, s);
    } else {
      var t := NeverStuck(job, used0, s);
    }
  }

  // ------------------------------------------------------------------
  // The executor
  // ------------------------------------------------------------------

  // What tools answer: any function of the moment and the call.
  type World = (nat, ToolCall) -> string

  ghost predicate AnswerOf(world: World, call: ToolCall, out: string) {
    exists moment: nat :: world(moment, call) == out
  }

  // Each execution's output is what a tool answered to the call of its slot.
  ghost predicate Genuine(world: World, calls: seq<ToolCall>, executed: seq<(nat, string)>) {
    forall k :: 0 <= k < |executed| ==>
      executed[k].0 < |calls| && AnswerOf(world, calls[executed[k].0], executed[k].1)
  }

  lemma GenuineStep(job: Job, s: State, t: Thread, out: string, world: World, moment: nat)
    requires Shape(job, s) && Enabled(s, t) && Genuine(world, job.calls, s.executed)
    requires t.Goroutine? ==> out == world(moment, job.calls[t.idx])
    ensures Genuine(world, job.calls, Next(job, s, t, out).executed)
  {
    if t.Goroutine? {
      assert AnswerOf(world, job.calls[t.idx], out);
    }
  }

  // boundedToolExecute; `executed` is what it really ran.
  method BoundedToolExecute(job: Job, call: ToolCall, used: int, world: World)
    returns (result: string, used': int, executed: seq<(nat, string)>)
    requires job.calls == [call]
    ensures Outcome(job, used, used', [ToolResult(call, result)], executed)
    ensures Genuine(world, job.calls, executed)
  {
    if job.max > 0 && used >= job.max {
      return job.refusal, used, [];
    }
    used' := if job.max > 0 then used + 1 else used;
    result := world(0, call);
    executed := [(0, result)];
    assert executed[0].0 == 0;
  }

  // executeToolCallsParallel. The scheduler is arbitrary: any enabled goroutine
  // may take the next step.
  method ExecuteToolCallsParallel(job: Job, used: int, world: World)
    returns (results: seq<ToolResult>, used': int, executed: seq<(nat, string)>)
    ensures Outcome(job, used, used', results, executed)
    ensures Genuine(world, job.calls, executed)
  {
    if |job.calls| == 0 {
      return [], used, [];
    }
    if |job.calls| == 1 {
      var result;
      result, used', executed := BoundedToolExecute(job, job.calls[0], used, world);
      return [ToolResult(job.calls[0], result)], used', executed;
    }
    var s := Init(job, used);
    var clock: nat := 0;
    InitInv(job, used);
    while !s.main.Returned?
      invariant Inv(job, used, s) && Genuine(world, job.calls, s.executed)
      decreases Measure(job, s)
    {
      ghost var someone := NeverStuck(job, used, s);
      var t :| t in Threads(|job.calls|) && Enabled(s, t);
      var out := if t.Goroutine? then world(clock, job.calls[t.idx]) else "";
      StepKeepsInv(job, used, s, t, out);
      MeasureDecreases(job, used, s, t, out);
      GenuineStep(job, s, t, out, world, clock);
      s := Next(job, s, t, out);
      clock := clock + 1;
    }
    ReturnedOutcome(job, used, s);
    return Collected(s), s.used, s.executed;
  }
}
