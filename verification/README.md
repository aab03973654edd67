# Verified model of the agent turn engine, the config merge, byte-bounded text, credentials and two concurrent objects

OpsIntelligence is a Go program that runs tool-using language-model agents. This
project models five parts of it in Dafny and proves what they keep over all inputs,
all replies of the model, and all interleavings.

- **The turn engine** (`internal/agent`). The tool executor is a step relation over
  goroutine program counters, the semaphore, the budget mutex, the result slots and
  the WaitGroup (`ToolExecutor`). The three drivers `Run`, `RunStream` and
  `RunAutonomous` are methods of a class (`AgentRunner`) that really call it; the
  model, the tools and the extraction of pseudo tool calls are arbitrary functions.
  What a driver appends is told as a story of events (`Transcript`), and the log, the
  requests, the budget and the loop guard (`LoopGuards`) are all read off that story;
  `TurnShapes` says which stories a turn can have, event by event.
  `AutoBudget` says how much an autonomous run can execute. `ToolNames` and `ToolSelection` model name resolution and the tool list of a request.
- **The config merge** (`YamlMerge`), with the exact condition for associativity, and
  **the dotted-path editor** on top of it, as a lens (`DottedEdit`).
- **Byte-bounded text** on UTF-8 as section 4 of RFC 3629 defines it (`Utf8`), and the
  session digest, the retry copy and the retry ladder (`StreamResilience`).
- **Credentials**: the PHC string of argon2id hashes (`Passwords`) and API keys
  (`ApiKeys`), over base64 as in sections 4 and 5 of RFC 4648 (`Base64`), decimal
  numerals (`Decimal`) and Go's string functions (`Text`).
- **Two concurrent objects**: the coalescing stream buffer with its late timers
  (`StreamBuffers`) and the cached config service with optimistic revisions
  (`ConfigService`), each as a class and as a transition system.

`dafny verify dfyconfig.toml` checks the whole project.

## Where the code and its comments differ

The model follows the code.

- The executor's comment promises parallel tools. `boundedToolExecute` holds
  `budgetMu` while the tool runs, so at most one tool runs at a time, although four
  goroutines may be between acquire and release (`ToolExecutor.EveryInterleaving`).
- `MaxToolCallsPerUserTurn` "caps tool executions per Run/RunStream"
  (`internal/agent/runner.go:125`), and the prompt says that at most so many calls may run
  for the request (1628). Memory flushes execute their calls outside any counter. A turn
  keeps the cap if and only if its flushes execute nothing, or all its calls together are
  no more (`Transcript.TurnWithinCapIff`); there are turns with any number of calls
  (`AutoBudget.TurnFlushUncounted`).
- `RunAutonomous` says its tool budget is not limited, and passes a fresh counter every
  iteration; the cap therefore holds per round. A run keeps it as a whole if and only if
  its rounds and flushes together ask for no more calls, or no flush asks for any and at
  most one round does (`Transcript.WithinCapIff`). Its rounds execute at most 500 times
  the cap, and with a model that always asks every run does
  (`AutoBudget.AutoSpendsAtMost`, `AutoBudget.AutoSpendsAll`); flushes come on top, without
  a bound (`AutoBudget.AutoFlushUncounted`).
- `Compact`, which ends a turn, evicts messages one by one and can evict a message whose
  answers it keeps. It leaves a paired memory paired if and only if the first message it
  keeps behind a leading system message is not an answer
  (`WorkingMemories.CompactPairedIff`, `WorkingMemories.CompactOrphans`).
- The session digest may pass its limit by one whole fragment: with 1 to 16 bytes left
  the limit computed for the fragment is 0, which `truncateUTF8` takes for "none"
  (`StreamResilience.OverrunIff`). Cutting a fragment leaves 15 to 18 bytes, so the next
  one usually gets there; for fragments of ASCII, of any lengths, the lengths tell
  (`StreamResilience.OverrunByLengths`), and five long messages make 18322 bytes where the
  only caller asks for 14336 (`StreamResilience.FallbackOverruns`).
- A "truncated" payload of the retry copy can be longer than the original, because of
  the marker (`StreamResilience.TrimTextGrowth`).
- Lanes are cut to eight bits twice. With a CPU count that is a multiple of 256 the
  default parallelism is 0 and hashing panics (`Passwords.DefaultsWork`).
- The parser's check for missing costs does not keep every stored hash from panicking:
  those with a multiple of 256 lanes or an empty digest do, and no others
  (`Passwords.PanicsIff`, `Passwords.RowPanicsIff`).
- `randomKeyID(0)` returns everything that was drawn (`ApiKeys.KeyIdOfNone`). Its only
  caller asks for 8 characters; likewise no caller of the digest passes a limit as small as
  in `StreamResilience.SmallLimitIgnored`.
- An empty token on an empty stream buffer starts a timer that is never cleared, and
  later tokens wait for a timer that nobody starts (`StreamBuffers.StarvesIffIdle`).
- After a write whose revision cannot be read, `UpdateWithRevision` reports an error,
  although the write stands, and leaves the cache. Of the errors exactly this one means
  that something was written (`ConfigService.WroteIffReturned`); readers are still right,
  because the cache no longer has the file's stamp (`ConfigService.ReadLinearizes`).
- The first committer wins among the calls of one service. The gateway makes a new one,
  with its own lock, for every call (`internal/gateway/authsvc.go:586-588`), and among those an
  update can be lost (`ConfigService.TwoServicesLoseUpdate`).
- The coding profile does not keep its exclusions out of requests. An excluded tool is in
  one if and only if it is registered and the request is that of a memory flush, which
  offers every registered tool, or a call of the history resolves to it, where the
  history's names are unambiguous (`ToolSelection.ExcludedIff`,
  `ToolSelection.ExcludedReturns`).
- An old configuration that does not parse is replaced by the patch alone
  (`DottedEdit.EditConfig`).
- Resolving a tool name is idempotent whatever the registry holds, even though the scan
  follows the random order of a Go map (`ToolNames.ResolveIdempotent`).

## Model

| member | source | states |
|---|---|---|
| ToolExecutor.StepKeepsInv | internal/agent/runner.go:995-1024 | every step of every goroutine keeps the invariant: semaphore and WaitGroup count the workers that hold them, the mutex has the one worker in the critical section, the counter is the start value plus the charged calls, and a stored slot holds its own call's result |
| ToolExecutor.ReturnedOutcome | internal/agent/runner.go:995-1024 | once `Wait` has returned, slot i holds call i's own result, exactly min(n, max − used) calls (all n without a cap) were really executed, none twice, and every other call holds the budget message |
| ToolExecutor.OnlyLockBlocks | internal/agent/runner.go:1006-1020 | a spawned worker that does not wait for the mutex can always move: the channel is never empty when it receives and the WaitGroup never goes below zero |
| ToolExecutor.NeverStuck | internal/agent/runner.go:995-1024 | in every reachable state before the return some goroutine can move |
| ToolExecutor.MeasureDecreases | internal/agent/runner.go:995-1024 | every step makes a measure smaller, so every schedule ends |
| ToolExecutor.EveryInterleaving | internal/agent/runner.go:995-1024 | for every schedule: at most 4 between acquire and release, at most one executing, never stuck, at most 12n+1 steps, and the batch's outcome on return |
| ToolExecutor.BoundedToolExecute | internal/agent/runner.go:937-946 | the single-call path has the same outcome as a batch of one: executed exactly if the cap admits it, with the tool's own answer, otherwise the budget message and an unchanged counter |
| ToolExecutor.ExecuteToolCallsParallel | internal/agent/runner.go:995-1024 | with an arbitrary scheduler the executor ends and has that outcome, and each executed call's result is what a tool answered to that call |
| LoopGuards.SignatureInjective | internal/agent/runner.go:972-974 | two calls with JSON inputs share a signature only if name and input are equal, although the separator may occur in both |
| LoopGuards.LoopGuard.Record | internal/agent/runner.go:958-981 | the map always holds the multiplicities of the signatures recorded so far, and a batch is counted up to the call that trips |
| LoopGuards.TripsIffRepeated | internal/agent/runner.go:971-981 | a batch passes if and only if no signature reaches three with it |
| LoopGuards.ThirdTrips | internal/agent/runner.go:958-981 | in figures: a batch passes if and only if no name and input has come up three times, and otherwise the trip has count 3 and the name of a call that has |
| LoopGuards.TripPoint | internal/agent/runner.go:971-981 | a trip is at the first call whose signature comes up the third time, and names it |
| LoopGuards.CalmIsShort | internal/agent/runner.go:958-981 | pigeonhole: an untripped history over d distinct calls has at most 2d calls |
| Transcript.PairedPointwise | internal/agent/runner.go:705-822 | the recursive and the position-by-position definition of a paired log agree: each assistant message with calls u1..uk is followed by exactly k answers with these ids in order |
| Transcript.RenderPaired | internal/agent/runner.go:705-822 | the log of any story of shaped events is paired |
| Transcript.AskedPaired | internal/agent/runner.go:705-822 | every request of such a story is built from a paired log, so never while a call is unanswered |
| Transcript.WholeTurnBudget | internal/agent/runner.go:673-822 | the rounds of a whole `Run` or `RunStream` turn execute exactly min(cap, calls asked for) calls, all of them without a cap, over all iterations and both executor paths; calls of memory flushes are not among them |
| Transcript.TurnWithinCapIff | internal/agent/runner.go:673-822 | with the calls of its flushes a turn keeps the cap if and only if these are none, or all calls together are no more than the cap |
| Transcript.EachRoundBudget | internal/agent/runner_auto.go:71-210 | the rounds of an autonomous run execute exactly the sum of what the cap grants each of them; calls of memory flushes are not among them |
| Transcript.WithinCapIff | internal/agent/runner_auto.go:71-210 | with the calls of its flushes such a run keeps the cap as a whole if and only if its rounds and flushes together ask for no more calls, or no flush asks for any and at most one round does |
| AutoBudget.AutoSpendsAtMost | internal/agent/runner_auto.go:71-210 | the rounds of an autonomous run execute at most the cap times its iterations, and at most 500 times the cap |
| AutoBudget.ScriptExists | internal/agent/runner_auto.go:71-210 | for every list of batches there are surroundings in which the model asks for them one by one, the tools answer alike, and memory is always nearly full, or never |
| AutoBudget.AutoRunExists | internal/agent/runner_auto.go:18-213 | for every list of at most 500 non-empty batches, the last the first to call finish_task, there is a run in full (opening, requests, replies, rounds, end) that asks for them |
| AutoBudget.AutoRunSpends | internal/agent/runner_auto.go:18-213 | and every run in these surroundings, in which memory is never nearly full, ends with the last batch and executes exactly what a counter per round grants |
| AutoBudget.AutoSpendsAll | internal/agent/runner_auto.go:71-210 | with a model that asks for as many calls as the cap in each of n rounds, up to 500, there is a run, and every run executes n times the cap |
| AutoBudget.AutoFlushUncounted | internal/agent/runner_auto.go:44-47 | under a cap of one, with one budgeted call, a run executes any number of calls more in the flush of its opening |
| AutoBudget.TurnFlushUncounted | internal/agent/runner.go:697-702 | under any cap a turn of Run or RunStream that is answered at once executes any number of calls |
| Transcript.CalmTurnIsShort | internal/agent/runner.go:704-822 | a turn that the guard let pass has at most two rounds per distinct (name, input) |
| AgentRunner.Runner.LogIsPaired | internal/agent/runner.go:705-822 | what a driver has appended is paired, and so is what each of its requests has on top of the older messages; with these paired the whole log and every request are |
| AgentRunner.Runner.PlayRound | internal/agent/runner.go:739-809 | a round appends the assistant message and one answer per call, in order, keeps the budget of its scope, and has the content and calls that Transcript.RoundSays reads off the reply |
| Transcript.RoundSays | internal/agent/runner.go:739-781 | in every story of a turn a round follows a reply and has its calls, with names resolved, or those found in its text if it has none; its content is the text of the reply, or what the found calls leave of it, or a stand-in if that is blank and there are calls; without any call it is the text exactly |
| Transcript.FlushSays | internal/agent/runner.go:2627-2759 | the round of a flush has exactly the calls of its reply, as the model wrote them, and its text, or a stand-in if that is blank and there are calls |
| AgentRunner.Runner.DoFlush | internal/agent/runner.go:2627-2759 | a memory flush is its prompt, its request and, unless the stream fails, the reply with one answer per call; the log stays paired and the budget untouched |
| AgentRunner.Runner.Relieve | internal/agent/runner.go:2620-2627 | there is a flush exactly when the tokens counted exceed four fifths of the budget |
| AgentRunner.Runner.Begin | internal/agent/runner.go:648-702 | a turn opens with the user's message, the plan if there is one, and a flush if need be, and with its accounts at zero |
| AgentRunner.Runner.Iterate | internal/agent/runner.go:705-822 | one iteration of Run: a request, and the turn ends in one of its ways or stands between two iterations |
| AgentRunner.Runner.IterateStream | internal/agent/runner.go:1854-1985 | the same for RunStream |
| AgentRunner.Runner.Run | internal/agent/runner.go:637-853 | for any model and tools the turn ends, with a paired log, the budget kept over the turn, results that tools answered to their calls, at most min(MaxIterations, 2d+1) iterations, nothing after the opening but iterations, and one of four ends: an answer without calls, the guard at the third repetition, a failed stream, or the iteration limit |
| AgentRunner.Runner.RunStream | internal/agent/runner.go:1785-2018 | the same for the streaming driver, which reads the stream itself |
| AgentRunner.Runner.DoneAnswers | internal/agent/runner.go:739-790 | when Run or RunStream is done, its answer is exactly the text of the last reply, which has no calls, and none are found in that text |
| TurnShapes.OpeningSays | internal/agent/runner.go:648-702 | the messages a turn opens with: the user's, the plan's if there is one, and no flush if the tokens of the log are at most four fifths of the budget, otherwise the flush prompt next and one request |
| TurnShapes.ProceedsSays | internal/agent/runner.go:704-822 | after its opening a turn of Run or RunStream flushes no more: every further request is one of the loop, and the log of the opening stays in front |
| AgentRunner.Runner.RunAutonomous | internal/agent/runner_auto.go:18-213 | at most 500 iterations, a paired log, the budget kept per round; nothing but the opening and iterations with their checkpoints, nudges and flushes; it is done exactly when a round calls finish_task |
| TurnShapes.AutoOpeningSays | internal/agent/runner_auto.go:18-70 | the messages an autonomous run opens with: the goal's if there is one, a flush exactly above four fifths of the budget, and only then the plan's, if there is a goal and the plan is not blank |
| TurnShapes.IterationSays | internal/agent/runner_auto.go:71-210 | an autonomous iteration in messages: a checkpoint every 25th time, a reply and its round, then the nudge if the model stopped without a call, nothing after finish_task, otherwise a flush exactly above four fifths of the budget |
| AgentRunner.Runner.AutoIterate | internal/agent/runner_auto.go:71-210 | one iteration of it leaves the run between two iterations, or ends it on finish_task or a failed stream |
| AgentRunner.Runner.Advance | internal/agent/runner.go:739-822 | one iteration after the reply: the turn ends in one of these ways, or its accounts are in order for the next one |
| AgentRunner.JudgeCalls | internal/agent/runner.go:788-822 | a round with calls goes on exactly if no signature reaches three, with the accounts moved by one iteration and by what was executed |
| AgentRunner.AutoPlayed | internal/agent/runner_auto.go:150-209 | a round ends an autonomous run exactly if it calls finish_task, and otherwise leaves it between two iterations |
| AgentRunner.CollectStream | internal/provider/types.go:302-346 | the loop over the events computes the reply that Provider.CollectIs describes |
| Provider.CollectIs | internal/provider/types.go:302-346 | a stream without an error gives its joined texts, its calls in order and its last finish reason; one with an error gives the first |
| AgentRunner.FindFinish | internal/agent/runner_auto.go:165-188 | true if and only if some result is of finish_task |
| WorkingMemories.WorkingMemory.Compact | internal/memory/memory.go:161-187 | the loop leaves what compaction is specified to leave, and what it leaves and what it returns are together the messages there were |
| WorkingMemories.CompactLeaves | internal/memory/memory.go:161-187 | what is left is the messages from one on, behind a system message that was or came to be the first |
| WorkingMemories.TailStays | internal/memory/memory.go:145-187 | the last six messages stay |
| WorkingMemories.HeadStays | internal/memory/memory.go:161-187 | a leading system message stays |
| WorkingMemories.CompactStops | internal/memory/memory.go:161-187 | the rest is within the budget, or nothing more may go |
| WorkingMemories.CompactNeeded | internal/memory/memory.go:161-187 | nothing goes without need: before the last eviction the memory was over a positive budget and had more than six messages behind a leading system message, and that message was not the one evicted |
| WorkingMemories.CompactPairedIff | internal/memory/memory.go:161-187 | a paired memory stays paired if and only if the first message kept behind the head is not an answer |
| WorkingMemories.CompactOrphans | internal/agent/runner.go:774-776 | the ten messages of a turn with seven calls, compacted at its end, lose the message that asked for the answers |
| ToolNames.NormalForm | internal/agent/tool_name_resolve.go:11-26 | the alias of a name is a non-empty text of [A-Za-z0-9_-] that neither begins nor ends with '_' or '-', and exactly such names are their own aliases |
| ToolNames.NormalizeIs | internal/agent/tool_name_resolve.go:11-26 | which alias: every character outside [A-Za-z0-9_-] becomes '_', then all '_' and '-' at both ends go and no more, and the word tool stands for nothing |
| ToolNames.NormalizeIdempotent | internal/agent/tool_name_resolve.go:11-26 | the alias of an alias is itself |
| ToolNames.NormalizeToolNameLikeBedrock | internal/agent/tool_name_resolve.go:11-26 | the builder loop computes that alias |
| ToolNames.ToolRegistry.Resolve | internal/agent/tool_name_resolve.go:30-44 | the scan returns a resolution of the name under any map order |
| ToolNames.ToolRegistry.NormalizeToolCallNames | internal/agent/tool_name_resolve.go:46-52 | in place, each call keeps everything but its name, which becomes a resolution of it |
| ToolNames.ResolveIdempotent | internal/agent/tool_name_resolve.go:30-44 | resolving a resolved name changes nothing |
| ToolNames.AliasRoundTrip | internal/agent/tool_name_resolve.go:30-44 | the alias of a registered name always leads back to it if and only if the alias is the name itself, or is not registered and nobody else has it |
| ToolNames.ResolveDeterministic | internal/agent/tool_name_resolve.go:30-44 | the answer is independent of the map order if and only if the name is empty, registered, or has at most one registered name with its normal form |
| ToolNames.ToolRegistry.CloneWithout | internal/agent/runner.go:87-101 | the clone holds exactly the tools not omitted |
| ToolSelection.HintsLeaveRoom | internal/agent/runner.go:1317-1363 | with hints: no duplicate names, at most MaxTools entries, at most max(3, MaxTools/3) of them hints, and every base tool that is no hint keeps its place in order behind them, up to at least MaxTools less that number |
| ToolSelection.HintPlaced | internal/agent/runner.go:1317-1363 | a registered hint among the first max(3, MaxTools/3) is on the list, and without a limit every registered hint |
| ToolSelection.MergeLocalIntelToolHints | internal/agent/runner.go:1317-1363 | the two loops and the cut compute that list |
| ToolSelection.FilterTools | internal/agent/runner.go:1365-1385 | the coding profile removes exactly its excluded tools, keeping the order |
| ToolSelection.SelectTools | internal/agent/runner.go:1283-1313 | the list is the catalog's choice (or all registered tools) with the hints ahead, the missing registered discovery tools behind, and the profile's filter |
| ToolSelection.SelectionShape | internal/agent/runner.go:1283-1313 | any such list has no duplicates, every registered discovery tool the profile allows, and nothing it excludes |
| ToolSelection.SelectionIs | internal/agent/runner.go:1283-1313 | without hints a tool is selected if and only if the profile allows it and the catalog chose it, or it is registered and there is no catalog or it is a discovery tool; outside the coding profile the choice stays in front, in order |
| ToolSelection.SelectionFrom | internal/agent/runner.go:1283-1363 | with hints whatever is selected comes from the choice, the hints or the discovery tools |
| ToolSelection.MergeToolsNeededForHistory | internal/agent/runner.go:1251-1281 | the selection stays a prefix, every registered tool of the history is there, and what is added comes only from the history |
| ToolSelection.HistoryIs | internal/agent/runner.go:1251-1281 | the calls of the history are those of all its assistant messages |
| ToolSelection.HistoryIff | internal/agent/runner.go:1251-1281 | when the history's names resolve to one tool each, a registered tool that was not chosen is on the list if and only if a call of the history resolves to it |
| ToolSelection.ExcludedReturns | internal/agent/runner.go:1225-1385 | under the coding profile, a call of the history named as any of the seven excluded tools puts that tool on the list, which the selection had excluded |
| ToolSelection.RequestTools | internal/agent/runner.go:1225-1246 | the whole pipeline: a selection as above stays in front; no duplicates, discovery and history tools present, and an excluded registered tool if and only if the history calls for it, where its names are unambiguous |
| ToolSelection.FlushTools | internal/agent/runner.go:1386-1397 | a flush request offers each registered tool once, unfiltered |
| ToolSelection.ExcludedIff | internal/agent/runner.go:1225-1397 | under the coding profile any request has an excluded tool if and only if the tool is registered and the request is a flush, or the history, with unambiguous names, calls for it |
| ToolSelection.DiscoveryIsSafe | internal/agent/runner.go:1283-1385 | the coding profile excludes no discovery tool |
| YamlMerge.MergeYAMLValues | cmd/opsintelligence/onboard_merge.go:79-89 | computes the overlay |
| YamlMerge.MergeStringMapsRecursive | cmd/opsintelligence/onboard_merge.go:91-108 | computes the overlay of two maps in whatever order the new map is ranged over |
| YamlMerge.MergeOpsIntelYAMLDocuments | cmd/opsintelligence/onboard_merge.go:47-77 | computes, in whatever order, the merge under agent, webhooks, providers, devops and gateway; its keys are the union of the keys |
| YamlMerge.KeptRoots | cmd/opsintelligence/onboard_merge.go:47-117 | under these five roots by name a value that is not blank stays where the new document is silent or blank, gives way to a value there that is neither blank nor a map, and is gone below a scalar |
| YamlMerge.ReplacedRoots | cmd/opsintelligence/onboard_merge.go:47-77 | under every other root, embeddings, channels, routing, plano and teams among them, the new document's value stands whole, and the old one where it has none |
| YamlMerge.NewValueStands | cmd/opsintelligence/onboard_merge.go:47-117 | under any root a value of the new document that is neither blank nor a map reads back |
| YamlMerge.BlockedDocIff | cmd/opsintelligence/onboard_merge.go:79-117 | the scalar above a path is one that reads at a proper prefix of it: not null at the root, not blank below |
| YamlMerge.OverlayGroups | cmd/opsintelligence/onboard_merge.go:79-108 | overlaying is associative on three values if and only if they are groupable |
| YamlMerge.MergeAssociative | cmd/opsintelligence/onboard_merge.go:47-108 | merging documents is associative if and only if at each merged root no map is replaced by a scalar that a map replaces in turn, unless the last covers the first |
| YamlMerge.NoClashGroups | cmd/opsintelligence/onboard_merge.go:79-108 | in particular three values are groupable that have no place where a map, a scalar that counts and a map follow each other |
| YamlMerge.NoClashDocs | cmd/opsintelligence/onboard_merge.go:47-108 | and documents without such a place below a merged root merge associatively |
| YamlMerge.ClashBreaks | cmd/opsintelligence/onboard_merge.go:47-108 | where a map, a scalar and a map follow each other directly at a merged root, the two orders agree there if and only if the last map covers the first |
| YamlMerge.MergeNotAssociative | cmd/opsintelligence/onboard_merge.go:47-108 | an input: a map with one entry, then true, then the empty map under a merged root give different results |
| YamlMerge.CoversIff | cmd/opsintelligence/onboard_merge.go:91-108 | overlaying c on a gives c if and only if c covers a |
| YamlMerge.MergeIdempotent | cmd/opsintelligence/onboard_merge.go:47-108 | merging the same new document again changes nothing |
| YamlMerge.LookupOverlay | cmd/opsintelligence/onboard_merge.go:91-108 | what stands at a path of two merged maps: nothing below a scalar of the new one, otherwise the merge of what stands there in each |
| YamlMerge.LookupMerge | cmd/opsintelligence/onboard_merge.go:47-117 | the same for documents, with roots that are merged and roots that are replaced |
| YamlMerge.ValueSurvives | cmd/opsintelligence/onboard_merge.go:47-117 | blank never erases: a value that is not blank, below a merged root, stays unless the new document has a non-blank value there or a scalar above it |
| YamlMerge.BlankIff | cmd/opsintelligence/onboard_merge.go:111-117 | a value is blank if and only if it is null or a text of nothing but space |
| DottedEdit.CoerceBlank | cmd/opsintelligence/main.go:797-817 | the coerced value is blank if and only if the text is empty or spells null |
| DottedEdit.BuildSingleKeyYAMLPatch | cmd/opsintelligence/main.go:781-795 | an error exactly for a path with a blank part, otherwise the nested patch |
| DottedEdit.EditConfig | cmd/opsintelligence/main.go:749-771 | the patch merged into the file, under the five roots by name, or the patch alone when there is nothing to merge with |
| DottedEdit.PutGet | cmd/opsintelligence/main.go:749-817 | under a merged root the path reads back as the value if and only if the value is not blank or there was nothing a blank must not erase |
| DottedEdit.PutFrame | cmd/opsintelligence/main.go:749-795 | every path that is neither a prefix nor an extension reads as before |
| DottedEdit.EditedRoots | cmd/opsintelligence/main.go:749-795 | both laws under the five merged roots by name: a value that is not blank reads back, and every diverging path reads as before |
| DottedEdit.GetPut | cmd/opsintelligence/main.go:749-795 | putting back what is there changes nothing |
| DottedEdit.PutTwice | cmd/opsintelligence/main.go:749-795 | two edits of a path are one, of the value that the second makes of the first |
| DottedEdit.SameEdit | cmd/opsintelligence/main.go:749-795 | two edits of a path give the same document if and only if they leave the same value there |
| DottedEdit.PutPut | cmd/opsintelligence/main.go:749-795 | the second of two edits makes the first void if and only if it is not blank, or the first leaves nothing that it would have taken |
| DottedEdit.PutReplaces | cmd/opsintelligence/onboard_merge.go:47-77 | outside the merged roots the whole root is replaced |
| Utf8.ValidIsEncoded | internal/agent/runner_localintel.go:98-107 | valid texts are exactly the encodings of scalar values (with EncodeAllValid) |
| Utf8.EncodeAllValid | internal/agent/runner_localintel.go:98-107 | every encoding of scalar values is a valid text |
| Utf8.EncodeDecode | internal/agent/runner_localintel.go:98-107 | a scalar value decodes back from its bytes |
| Utf8.DecodeEncode | internal/agent/runner_localintel.go:98-107 | a character's bytes come back from its value |
| Utf8.ValidPrefixIffBoundary | internal/agent/runner_localintel.go:98-107 | a prefix of a valid text is valid if and only if it ends at a character boundary |
| Utf8.FitLongest | internal/agent/runner_localintel.go:98-107 | the whole characters that fit are the longest such prefix and waste at most 3 bytes |
| Utf8.TruncateUTF8 | internal/agent/runner_localintel.go:98-107 | the byte-by-byte loop returns the longest valid prefix within the limit, and the text itself for a limit of 0 or less |
| Utf8.TruncateIsFit | internal/agent/runner_localintel.go:98-107 | for valid text and a positive limit that is exactly the whole characters that fit |
| Utf8.BadFrontLosesAll | internal/agent/runner_localintel.go:98-107 | with a bad byte in front, everything is lost |
| StreamResilience.WorkingMemoryDigest | internal/agent/runner_stream_resilience.go:76-111 | the loop computes the digest |
| StreamResilience.DigestIsAll | internal/agent/runner_stream_resilience.go:76-111 | when all fragments fit, the digest is all of them, the newest first, each on its line |
| StreamResilience.DigestBound | internal/agent/runner_stream_resilience.go:76-111 | at most maxBytes + 4000 bytes, and more than maxBytes if and only if a fragment that does not fit comes up with 1 to 16 bytes left |
| StreamResilience.OverrunIff | internal/agent/runner_stream_resilience.go:98-108 | the same at any point of the loop |
| StreamResilience.OverrunIsLast | internal/agent/runner_stream_resilience.go:98-108 | an overrun is one whole fragment, and the last thing written |
| StreamResilience.CutLeaves | internal/agent/runner_stream_resilience.go:98-108 | cutting a valid fragment leaves 15 to 18 bytes of the limit, exactly 15 for ASCII |
| StreamResilience.LittleRoomOverruns | internal/agent/runner_stream_resilience.go:98-108 | with that little room valid fragments of 18 bytes or more overrun, the third at the latest |
| StreamResilience.OverrunStage | internal/agent/runner_stream_resilience.go:76-111 | of any text: what fits whole is written, and then the next fragment overruns if it has at most 16 bytes left, or is cut and the question starts anew |
| StreamResilience.LittleRoomIff | internal/agent/runner_stream_resilience.go:98-108 | of any text: with at most 16 bytes left there is an overrun if and only if these do not end with a fragment |
| StreamResilience.OverrunByLengths | internal/agent/runner_stream_resilience.go:76-111 | for ASCII fragments the digest overruns if and only if, after the n that fit whole, at most 16 bytes are left for another, or more are and, after the m that fit whole into the 15 bytes behind the cut one, some are left for yet another |
| StreamResilience.FallbackOverruns | internal/agent/runner_stream_resilience.go:142 | five or more plain messages of at least 4000 ASCII bytes make a digest of 18322 bytes at the limit of 14336 that the local fallback passes |
| StreamResilience.SmallLimitIgnored | internal/agent/runner_stream_resilience.go:98-108 | a limit of 1 to 16 bytes does not bind at all |
| StreamResilience.TrimTextBound | internal/agent/runner_stream_resilience.go:47-74 | a trimmed payload is within its limit plus the marker |
| StreamResilience.TrimTextGrowth | internal/agent/runner_stream_resilience.go:47-74 | a valid payload over its limit gets longer if and only if a character of it ends within the limit and less than the marker's length from its end; for ASCII, if it is over its limit by less than the marker's length |
| StreamResilience.DeepTruncateMessagesForRetry | internal/agent/runner_stream_resilience.go:47-74 | the copy is new memory with the same messages, roles and names; calls and media are equal, results keep their ids, payloads within their limit are equal, and longer ones are a prefix of at most the limit and the marker; nothing that existed changes |
| StreamResilience.OpenPrimaryModelStream | internal/agent/runner_stream_resilience.go:178-220 | one or two attempts, the second exactly after a recoverable error and with such a copy, cut to 6000 bytes for results and 12000 for texts; the request is never changed; the local engine only after two recoverable errors |
| Decimal.PrintIsNumeral | internal/auth/passwords.go:101-107 | %d prints digits that denote the number |
| Base64.EncodeDecode | internal/auth/passwords.go:101-107 | unpadded base64, in either alphabet, decodes back to the bytes |
| Base64.EncodeInAlphabet | internal/auth/apikeys.go:26-30 | the text is in the alphabet and has 4 characters for 3 bytes, rounded up |
| Base64.DecodesIff | internal/auth/passwords.go:201-208 | a text decodes if and only if, line breaks aside, it is in the alphabet and does not leave one character over |
| Base64.FromSextetsDefined | internal/auth/passwords.go:201-208 | decoding groups of six bits fails only on a single left-over group |
| Text.SplitJoin | internal/auth/passwords.go:165-168 | splitting undoes joining when no part contains the separator |
| Text.JoinSplit | internal/auth/passwords.go:165-168 | joining undoes splitting, always |
| Passwords.HashPassword | internal/auth/passwords.go:72-108 | the step-by-step defaults give the effective parameters, and the result is the printed hash, or an error for an empty password or a failed draw, or a panic without lanes |
| Passwords.ParseArgon2id | internal/auth/passwords.go:165-217 | the loop over the costs computes the parser |
| Passwords.PhcRoundTrip | internal/auth/passwords.go:72-217 | parsing what is printed gives back memory, time, salt and digest, and the lanes modulo 256, for every salt, digest and non-zero costs |
| Passwords.MalformedIff | internal/auth/passwords.go:165-217 | six parts between dollar signs parse if and only if they are an empty one, argon2id, version 19, costs that read and are not zero, and two base64 texts |
| Passwords.HashParses | internal/auth/passwords.go:72-217 | a fresh hash reads back as the parameters, salt and key it was made with |
| Passwords.HashVerifies | internal/auth/passwords.go:118-163 | a hash verifies its own password, and another one exactly if that derives the same key |
| Passwords.RehashIffWeaker | internal/auth/passwords.go:139-151 | a fresh hash needs a rehash if and only if one of its costs is below the default; a default one never does |
| Passwords.DefaultsWork | internal/auth/passwords.go:50-108 | with the defaults hashing works if and only if the CPU count is not a positive multiple of 256 |
| Passwords.PanicsIff | internal/auth/passwords.go:118-217 | verifying against a text marked as argon2id panics if and only if it parses to no lanes in eight bits or to an empty digest |
| Passwords.RowPanicsIff | internal/auth/passwords.go:153-217 | of all printed hashes with non-zero costs exactly those with a multiple of 256 lanes or an empty digest do |
| ApiKeys.FirstLoop | internal/auth/apikeys.go:171-187 | returns the first n letters and digits of the draw in lower case, all of them for n = 0 |
| ApiKeys.SecondLoop | internal/auth/apikeys.go:194-203 | fills what the first loop left up to n characters |
| ApiKeys.RandomKeyId | internal/auth/apikeys.go:163-206 | both loops together return the first n letters and digits of the two draws, in lower case |
| ApiKeys.KeyIdShape | internal/auth/apikeys.go:163-206 | for n > 0 an id has exactly n characters of [a-z0-9], and there is one if and only if the draws succeed and have enough letters |
| ApiKeys.KeyIdIs | internal/auth/apikeys.go:163-206 | for n > 0 the id is made of 2n+2 random bytes, and of 4n more only if those have too few letters and digits |
| ApiKeys.KeyIdOfNone | internal/auth/apikeys.go:163-206 | for n = 0 everything drawn comes back, so the id is empty only if nothing drawn is a letter or digit |
| ApiKeys.TokenDecodes | internal/auth/passwords.go:226-235 | a random token decodes to the bytes drawn |
| ApiKeys.ParsesIffToken | internal/auth/apikeys.go:91-106 | a token parses to an id and a secret if and only if it is their token, the id has 8 characters without underscore, and the secret at least 20 of any kind |
| ApiKeys.GeneratedParses | internal/auth/apikeys.go:54-106 | a generated token parses back to the stored id and to the secret that was hashed, underscores included |
| ApiKeys.GeneratedRow | internal/auth/apikeys.go:54-89 | the row of a new key has the caller's user, name, scopes and time, no expiry and no revocation, and an id made of the eight characters of the token |
| ApiKeys.MaskHidesSecret | internal/auth/apikeys.go:148-158 | masks of tokens with the same id are equal, whatever the secrets |
| ApiKeys.GeneratedVerifies | internal/auth/apikeys.go:115-143 | the token of a stored key gives its row if and only if the row is not revoked and has no expiry, or 0, or one that is not over; it is expired if and only if it is not revoked and its positive expiry is over, and revoked if and only if it is revoked |
| ApiKeys.OnlySecretOpens | internal/auth/apikeys.go:115-143 | a token opens the key if and only if it names its id and its secret derives the same argon2 key |
| StreamBuffers.StreamingBuffer.Push | internal/channels/buffer.go:29-52 | the new buffer, timer, clock and chunks are those of the specification, and the target's error is passed on |
| StreamBuffers.StreamingBuffer.FlushLocked | internal/channels/buffer.go:84-95 | the same for a flush |
| StreamBuffers.StreamingBuffer.TimerCallback | internal/channels/buffer.go:43-48 | the same for a timer that has the mutex, stale or not |
| StreamBuffers.StreamingBuffer.Done | internal/channels/buffer.go:98-102 | the same for Done |
| StreamBuffers.StepKeepsInv | internal/channels/buffer.go:29-102 | every action keeps: no empty chunk, at most 1000 bytes held and no break among them, a timer set once something is held, and no running timer but the current one |
| StreamBuffers.StepKeepsLive | internal/channels/buffer.go:29-102 | an action keeps the timer in step with the buffer if and only if it is not an empty token on an empty buffer |
| StreamBuffers.EveryRun | internal/channels/buffer.go:29-102 | over every interleaving of pushes, late callbacks and Done: these bounds, and a non-empty buffer has a running timer or a pending callback |
| StreamBuffers.StarvesIffIdle | internal/channels/buffer.go:29-50 | a push can lead to a buffer that nothing will flush if and only if token and buffer are both empty |
| StreamBuffers.StarvedStays | internal/channels/buffer.go:29-102 | such a buffer is sent only by Done or by a token that ends a sentence, a paragraph or a thousand bytes |
| StreamBuffers.ChunksAreTokens | internal/channels/buffer.go:29-102 | each chunk is the text of whole consecutive tokens, of which only the last reaches a break, and the chunks' tokens and those held are the tokens pushed, in order |
| StreamBuffers.NothingLost | internal/channels/buffer.go:29-102 | the chunks followed by the buffer are exactly what was pushed; after Done all of it is sent |
| StreamBuffers.TimerSends | internal/channels/buffer.go:41-49 | from every careful run at most two steps of the timer send all that was pushed |
| ConfigService.RevisionInjective | internal/configsvc/service.go:172-178 | two versions print the same revision if and only if they have the same time and size |
| ConfigService.Service.Read | internal/configsvc/service.go:57-107 | the method, undisturbed, comes from its start to its return by the instructions of the model, with the same answer and cache, of which there is only one (with ReturnsOnce) |
| ConfigService.Service.UpdateWithRevision | internal/configsvc/service.go:116-154 | the same for an update; without a failure, unguarded or guarded by the revision the file has, it appends the version that the mutation makes of the file, returns its revision and leaves no cache |
| ConfigService.ReturnsOnce | internal/configsvc/service.go:57-154 | a call that nothing disturbs returns in one way only |
| ConfigService.UpdateSucceeds | internal/configsvc/service.go:110-154 | the instructions of an update that meets no failure, whose file loads, whose expected revision is empty or the file's, whose mutation and marshalling succeed, end with the new version appended, its revision returned and the cache gone |
| ConfigService.UpdateFails | internal/configsvc/service.go:116-154 | for each error of an undisturbed update exactly when it is returned; but for the unreadable revision of what was written nothing is written, and the cache stays |
| ConfigService.ReadSucceeds | internal/configsvc/service.go:57-107 | whatever true pair is in the cache, an undisturbed Read without failures answers with what the file holds now |
| ConfigService.ReadAnswers | internal/configsvc/service.go:57-107 | a young cache with the stamp of the file answers without loading it; one with another stamp, an old one or none does not: the answer is what the file holds, or the error of the load or of the stat, and the cache is what was read |
| ConfigService.StepKeepsInv | internal/configsvc/service.go:57-154 | every instruction of every call keeps: locks exclude, the cache holds a true pair of the version with its stamp, what a call has read under the lock is still so, and the history is a chain |
| ConfigService.LocksExclude | internal/configsvc/service.go:57-154 | over every run: while a call is between taking the lock and giving it back no other is, and while one copies the cache none has the lock |
| ConfigService.ReadLinearizes | internal/configsvc/service.go:57-107 | every successful Read returns a configuration and revision that were the file's at one instant between its start and its return |
| ConfigService.ReadsNeverGoBack | internal/configsvc/service.go:57-154 | and never an older version than the one in the file when it started |
| ConfigService.UpdatesChain | internal/configsvc/service.go:116-154 | every version is one call's mutation of exactly the version before it, of the expected revision if one was named: no update is lost |
| ConfigService.UpdateApplies | internal/configsvc/service.go:116-154 | a successful update wrote such a version and returns its revision |
| ConfigService.FirstCommitterWins | internal/configsvc/service.go:116-154 | of all calls naming the same revision at most one writes |
| ConfigService.OneWinner | internal/configsvc/service.go:116-154 | and at most one succeeds |
| ConfigService.ConflictIff | internal/configsvc/service.go:116-154 | over every run: an update that has come to its check and whose stat succeeds returns a conflict if and only if it names a revision and the file's version at that check has another one; a failed mutation or marshalling is one on that version |
| ConfigService.WroteIffReturned | internal/configsvc/service.go:116-154 | a returned update has written if and only if it succeeded or could not read the revision of what it wrote |
| ConfigService.WritesOnce | internal/configsvc/service.go:57-154 | no call writes twice, and a Read not at all |
| ConfigService.TwoServicesLoseUpdate | internal/configsvc/service.go:116-154 | a run of two services with one file, each with its own lock, cache and calls: two calls naming the revision of its only version both succeed, and the update in between is lost |
| ConfigService.MoveAdvances | internal/configsvc/service.go:57-154 | each instruction brings its call nearer to its return and changes no other call |
| ConfigService.NeverStuck | internal/configsvc/service.go:57-154 | while a call has not returned, the holder of a lock can move, or without one that call itself |

## Left out

- WorkingMemory: the drivers append to a log, and the tokens counted after it are an arbitrary function of it. Compaction is modelled on its own; the older messages a turn begins with are arbitrary, so they may be what compaction left. That the end of a turn compacts is not part of the drivers.
- Prompts: the texts of plan, goal, nudge, checkpoint and flush messages, and of the budget message where it is passed on, are parameters.
- Reflection and planning calls: the plan is a parameter of the drivers; their requests do not count among the loop's requests.
- Handler callbacks, token usage, traces, audit, hooks and RBAC inside tool execution: tools are an arbitrary function of the moment and the call.
- Extraction of pseudo tool calls from XML or markdown: an arbitrary function of the text.
- Context cancellation and timeouts of tools: a tool that does not return is not modelled.
- AgentRunner.CollectStream: cancellation shows as an error event at the point where it is noticed; an error event that carries no error, which makes the caller panic, is not modelled.
- AgentRunner.Runner.Relieve: four fifths of the budget are computed in integers, which differs from the product with 0.8 only for budgets beyond 2^50.
- Catalog: its selection is a parameter, assumed free of duplicates where the statement says so.
- MaxIterations and the counters are unbounded integers; a Go int would need more than 2^63 steps to differ.
- YAML reading and printing: the merge starts from parsed trees with string keys.
- DottedEdit.Coerce: the grammar of strconv.ParseFloat is a parameter.
- strings.ToLower: only what matters for comparison with ASCII text.
- argon2, bcrypt and the random source: arbitrary functions, of which only the length of what they return is assumed, and when argon2 panics on its arguments; its memory, which large costs can exhaust, and timing are not modelled.
- Text in credentials, tool names and YAML is a sequence of characters; only truncation, the digest, the retry copy, the stream buffer and base64 are modelled on bytes.
- The prefixes of wrapped errors are not modelled; each error is a constructor.
- ConfigService.FirstCommitterWins, ConfigService.OneWinner, ConfigService.ReadLinearizes: about the calls of one Service object; what goes wrong between two is ConfigService.TwoServicesLoseUpdate.
- config.Load expands and reads environment variables; it is a function of the text as long as they do not change.
- ConfigService.ReadLinearizes: assumes that only the service writes the file and that each write gets a time and size that no version had, and times after 1970; other writers and equal stamps are outside.
- ConfigService.NeverStuck: Go also lets a waiting writer hold back new readers; the lock here is more permissive, which adds runs and takes none away.
- Snapshots share their configuration with the cache; a caller that changes one is not modelled.
- ConfigService.Service.Read: stated for a call that nothing disturbs; the interleavings are those of the transition system that the call's instructions make up.
- StreamBuffers.StreamingBuffer.Push: a callback of the target that calls back into the buffer would block in Go and is not modelled.
- ToolNames.ResolveIdempotent, ToolNames.ResolveDeterministic: about one registry; a tool registered between two resolutions is not modelled.
- HTTP, chat and cloud clients, command wiring, services and the cron daemon: input and output without logic of this kind.
