# A verified model of ART's protocols, parsers and ledgers

ART trains language-model agents. Most of it is plumbing around a trainer; this project models the parts
that have real state, protocol or tree logic, and proves what they promise for all inputs and all runs.
`dafny verify dfyconfig.toml` checks everything.

| part | files | in one sentence |
|---|---|---|
| remote actors | `ActorProtocol`, `ActorTheorems`, `ActorProxy` | callers, dispatcher thread, child and `close` as a step system, and the proxy's methods as an object whose methods take those steps |
| prefix-tree rows | `PrefixTree`, `PrefixForest` | two flat rows parsed into a forest, with a declarative grammar, a printer and the parser's loops |
| metrics | `Metrics`, `MetricsBuilding`, `MetricsRuns`, `MetricsTotals`, `MapSums` | slash-path metrics in shared scopes, rolled up and accumulated by flushes |
| managed runtime | `RuntimeInstall`, `RuntimeRuns`, `RuntimeCaching` | a cache directory changed step by step by callers that may raise or be killed between any two steps |
| conversations | `ChunkFold`, `ChunkLaws`, `ServerSentEvents`, `Histories` | stream chunks folded into a completion, responses threaded into histories |
| schedulers and merges | `Gather`, `Batches`, `ConfigMerge` | an exception budget under any interleaving, bounded batches, two recursive merges |
| algorithms | `Boards2048`, `Game2048`, `Wrapping`, `Shards` | the two 2048 engines, greedy word wrapping, strided shards |

How the program's forms are kept: code that updates objects or loops over them is a class or a method with
loops, proved against a specification function or a step of a state machine; what the program promises is
then proved about those functions and over whole runs. What an operation cannot decide by itself (who runs
next, what a command does, which task ends first, what a player answers) is a parameter or a step, so the
theorems hold for every choice.

Where the code does less, or other, than one might expect (the model follows the code):

- `costs/step_all` shares its cumulative key with the total, so costs logged under it count twice
  (`MetricsRuns.StepAllCountsTwice`; `MetricsRuns.CostLaw` gives the exact excess).
- A cleanup or an exception handler that is killed, or fails, in the middle of `rmtree` can leave a runtime
  directory that validates and is not complete (`RuntimeRuns.CutShortRemovalValidates`); it cannot happen
  otherwise (`RuntimeRuns.FinishedRemovalsAreSafe`).
- A failing cleanup after an install takes the completed install down
  (`RuntimeRuns.FailedCleanupUndoesTheInstall`), and an install killed before its marker is readable blocks
  its hash for good (`RuntimeRuns.HalfInstallRefuses`).
- A request that repeats a message whose content is missing or null never continues its history, because
  histories are compared after normalisation (`Histories.NullContentSplits`; `Histories.LinearConversation`
  gives the exact condition).
- Yielding a batch resets the exception budget to 0: after the first batch a failure is raised, whatever
  `max_batch_exceptions` says (`Batches.Batcher.FailureAfterABatchRaises`, `Batches.NoFailureAfterABatch`). The
  last batch may hold more than `batch_size` groups, because a full batch leaves the buffer once per wait, not as
  long as there is one: it can for every batch size unless `max_concurrent_batches` is 1
  (`Batches.Batcher.LastBatchCanBeLarger`), and it cannot when that is 1 (`Batches.Batcher.Run`).
- The docstring of `_wrap_text_to_width` says that every line fits: exactly when every single word does
  (`Wrapping.EveryLineFitsIff`, `Wrapping.WideWordStaysWide`).
- A tool-call delta with a negative index makes the padding loop run forever (`ChunkFold.PaddingEnds`), and a
  finish reason is forgotten when a later chunk of the same choice has none (`ChunkLaws.LastReasonWins`).
- A trajectory metric named `exceptions` counts against the exception budget (`Gather.MetricSpendsTheBudget`);
  the budget holds exactly for results that report 0 under that name (`Gather.BudgetHoldsIff`).

## Model

| member | source | states |
|---|---|---|
| `ActorProtocol.StepKeepsInv` | src/mp_actors/move.py:182-320 | every one of the 22 steps of callers, child, dispatcher and `close` keeps the invariant of each id: where its message is, which future it is for, what its two logs say |
| `ActorTheorems.ReachableInv` | src/mp_actors/move.py:182-320 | the invariant holds in every state of every run |
| `ActorTheorems.ExactlyOnePlace` | src/mp_actors/move.py:208-254 | while the child lives, a registered id is about to be put, in the request queue, with one handler or in the response queue: in exactly one of them, and at no time in two |
| `ActorTheorems.CompletedOnce` | src/mp_actors/move.py:208-218 | over any run, a future that is done keeps its result: no later response, death or close changes it |
| `ActorTheorems.PopFindsItsOwn` | src/mp_actors/move.py:208-209 | the future that a response finds under its id, which a generator uses again and again, is the one its own request was sent for |
| `ActorTheorems.ResolvedByItsOwn` | src/mp_actors/move.py:212-218 | a future completed by the child holds what the handler produced for that very request, whatever was interleaved |
| `ActorTheorems.GeneratorRefinement` | src/mp_actors/move.py:256-275 | what a consumer sent and received through the wrapper is, in order, what the child's generator was sent and yielded, at most one exchange behind, the generator being made from the first request's arguments; it ends normally exactly when it has received the generator's own end |
| `ActorTheorems.CallersEndAsLogged` | src/mp_actors/move.py:212-275 | in every run a caller's end and what it received last determine each other: a value ends a plain call, the generator's end ends its consumer, and any other exception of the child is what the caller fails with |
| `ActorTheorems.CallersAreTold` | src/mp_actors/move.py:186-191 | in every run where a caller stands agrees with its last future: one whose future was failed by a death or a close ends with that very error, and nobody is given such an error, or refused with it, before there was a death or a close |
| `ActorTheorems.RemoteLogsOnlyGrow` | src/mp_actors/move.py:387-413 | the record of what a generator yielded is extended by its own handlers only |
| `ActorTheorems.HandlerAppends` | src/mp_actors/move.py:387-413 | a handler that ends adds its exchange to the generator of its id and to no other |
| `ActorTheorems.ShutDownForGood` | src/mp_actors/move.py:182-186 | once a flag is set and the following `_fail_pending` has held the lock, that stays so in every later state |
| `ActorTheorems.NobodyIsStranded` | src/mp_actors/move.py:182-191 | from then on nothing is registered in any later state, and every future ever made is done, about to be completed by a thread that holds it, or belongs to a caller that got an exception from `put_nowait` |
| `ActorTheorems.LateCallersAreRefused` | src/mp_actors/move.py:242-247 | a caller that enters after a shutdown gets an exception and registers nothing |
| `ActorTheorems.EnteringMeans` | src/mp_actors/move.py:242-247 | a caller that enters is refused for a death before it is for a close; with neither it gets a new future, registered under its id |
| `ActorTheorems.SentValueIsCarried` | src/mp_actors/move.py:230-271 | the value a consumer sends is in its request and in its exchange; the arguments go with the first request only |
| `ActorTheorems.QueuesKeepOrder` | src/mp_actors/move.py:374-413 | both queues are first in, first out; a death may lose the last responses |
| `ActorTheorems.DeadChildIsSilent` | src/mp_actors/move.py:197-202 | over any run after its death the child takes no request, ends no handler and answers nothing |
| `ActorTheorems.CallersGoOn` | src/mp_actors/move.py:230-285 | what a caller can do next, from where it stands: it wakes up exactly when its last future has a result or an exception |
| `ActorTheorems.TheOutsideGoesOn` | src/mp_actors/move.py:241-320 | a call can start at any time, the child can die at any time while it lives, and any of its handlers can end in any way |
| `ActorTheorems.CallsGetThrough` | src/mp_actors/move.py:230-285 | from the start a call with any argument can have any outcome, and ends with it |
| `ActorTheorems.NeverStuck` | src/mp_actors/move.py:193-218 | while somebody waits for a pending future, the runtime can take a step: no deadlock |
| `ActorTheorems.SystemStepDescends` | src/mp_actors/move.py:193-218 | every step of the runtime itself lowers a rank |
| `ActorTheorems.SystemDrains` | src/mp_actors/move.py:193-218 | without new requests the runtime takes at most rank-many steps, and at rest nobody waits for a pending future |
| `ActorProxy.Proxy.ResponseFuture` | src/mp_actors/move.py:241-247 | the section under the lock refuses or registers, as the step of the protocol does |
| `ActorProxy.Proxy.StartCall` | src/mp_actors/move.py:230-236 | a caller takes the next id |
| `ActorProxy.Proxy.PutNowait` | src/mp_actors/move.py:248-271 | putting the request, with the call's arguments the first time and without any from then on, is the protocol's step; the future stays registered |
| `ActorProxy.Proxy.Unregister` | src/mp_actors/move.py:250-253 | a failed put takes the caller's own registration back |
| `ActorProxy.Proxy.TakeResponse` | src/mp_actors/move.py:193-211 | the dispatcher takes the oldest response, and unregisters its future if there still is one |
| `ActorProxy.Proxy.CompleteTaken` | src/mp_actors/move.py:212-218 | the taken future is completed with the response, unless it is done already |
| `ActorProxy.Proxy.NoticeDeath` | src/mp_actors/move.py:197-202 | the flag is written before anything is failed |
| `ActorProxy.Proxy.FailPending` | src/mp_actors/move.py:182-191 | called by the dispatcher after a death and by `close`: the loop empties the table and fails each registered future that is pending, and no other; it is a run of protocol steps |
| `ActorProxy.Proxy.FailOne` | src/mp_actors/move.py:186-191 | one future of the list: failed if it is pending, left alone otherwise |
| `ActorProxy.Proxy.TakeRequest` | src/mp_actors/move.py:374-385 | the child starts a task for the oldest request |
| `ActorProxy.Proxy.Close` | src/mp_actors/move.py:294-300 | closing sets the flag, outside the lock |
| `ActorProxy.Proxy.HandleRequest` | src/mp_actors/move.py:387-413 | a task ends with the response to its own request, in any order among the tasks |
| `PrefixTree.ScanRuns` | src/art/megatron/prefix_tree.py:182-234 | a scan that succeeds cuts the rows into maximal runs of one group and one parent; one that fails names a position where a parent changes inside a group |
| `PrefixTree.ScanErrorIsFirst` | src/art/megatron/prefix_tree.py:190-211 | that position is the first one, and the start named with it is where the run of the group begins |
| `PrefixTree.TilesUnique` | src/art/megatron/prefix_tree.py:182-234 | there is only one way to cut two rows into maximal runs |
| `PrefixTree.InconsistentHasNoTiling` | src/art/megatron/prefix_tree.py:190-211 | where the scan raises there is no such cutting |
| `PrefixTree.CountValid` | src/art/megatron/prefix_tree.py:149-154 | the number of tokens that are not padding is the start of the padding tail whenever padding is a tail |
| `PrefixTree.InferTerminalPaddingLength` | src/art/megatron/prefix_tree.py:161-179 | the length kept ends where the runs end, less a last run that repeats an earlier pair with a negative parent |
| `PrefixTree.ValidLength` | src/art/megatron/prefix_tree.py:143-158 | the length kept, for exactly the rows whose padding is a tail |
| `PrefixTree.CutTiles` | src/art/megatron/prefix_tree.py:76-81 | the row cut at the length kept is tiled by the original runs, minus the repeated one |
| `PrefixTree.RescanSucceeds` | src/art/megatron/prefix_tree.py:81 | scanning any row that can be tiled gives that tiling: so the second scan gives the original runs, minus the last |
| `PrefixTree.FindRepeatedGroups` | src/art/megatron/prefix_tree.py:88-93 | the groups reported are those in more than one run, each with its number of runs |
| `PrefixTree.BuildSegments` | src/art/megatron/prefix_tree.py:100-134 | the loop over dictionaries builds the forest of the runs, or names a run without a parent before it; the error that a parent ends too late never occurs |
| `PrefixTree.ParsePrefixTreeRow` | src/art/megatron/prefix_tree.py:56-140 | the parser accepts exactly the inputs that some row describes and returns that row; each error it raises says truly what is wrong with the input |
| `PrefixTree.ParsesUnique` | src/art/megatron/prefix_tree.py:56-140 | no two different rows are described by the same input |
| `PrefixTree.ExplainedHasNoParse` | src/art/megatron/prefix_tree.py:63-119 | an input with any of the reported faults is described by no row |
| `PrefixForest.ParseOfPrint` | src/art/megatron/prefix_tree.py:56-179 | printing any forest, with a padding tail and at most one repeated terminal run, and parsing it gives the forest back |
| `PrefixForest.PrintOfParse` | src/art/megatron/prefix_tree.py:56-179 | printing what was parsed gives both rows back on the kept tokens; what was cut is the padding tail and at most one run repeating an earlier pair with a negative parent |
| `PrefixForest.ParsesIffPrinted` | src/art/megatron/prefix_tree.py:56-179 | the accepted inputs are exactly the padded prints of forests |
| `PrefixForest.ForestIff` | src/art/megatron/prefix_tree.py:95-134 | a forest, spelled out segment by segment: a root names itself as its parent, or is the first and names the padding, has no ancestors and begins the next family; any other segment goes on with the family and the ancestors of the one earlier segment of its parent's group |
| `PrefixForest.AcceptedIff` | src/art/megatron/prefix_tree.py:56-140 | which rows are accepted, by their runs alone: exactly when no group has two runs and each run names itself, or is the first and names the padding, or names a group with an earlier run |
| `PrefixForest.KeptIff` | src/art/megatron/prefix_tree.py:161-179 | only a last run is ever dropped, and only one that names a negative parent where an earlier run has its group and its parent |
| `PrefixForest.RootsAreNamed` | src/art/megatron/prefix_tree.py:101-107 | in a parsed row exactly the segments that name themselves, and a first one that names the padding, have no ancestors |
| `PrefixForest.ParentOf` | src/art/megatron/prefix_tree.py:109-121 | a segment that is no root has exactly one parent, which ends before it starts |
| `PrefixForest.EarlierEndsFirst` | src/art/megatron/prefix_tree.py:115-119 | every earlier segment ends before a later one starts |
| `PrefixForest.AncestorsAreThePath` | src/art/megatron/prefix_tree.py:104-121 | `ancestors` is the path from the root to the parent by the parent relation alone, in order and without repeats |
| `PrefixForest.FamilyCountsRoots` | src/art/megatron/prefix_tree.py:104-107 | families are numbered by the roots before their own |
| `PrefixForest.SameFamilyIffSameRoot` | src/art/megatron/prefix_tree.py:104-121 | two segments share a family index exactly when they share a root |
| `Metrics.ToCumulativeKey` | src/art/metrics.py:36-43 | the cumulative key stays in its section, and only keys that are cumulative or have no section are refused |
| `Metrics.FeedsAll` | src/art/metrics.py:36-43 | two keys, and no others, share the cumulative key of the total: `costs/all` and `costs/step_all` |
| `Metrics.StepKeepsHierarchy` | src/art/metrics.py:193-221 | after any operation of any builder, each scope's keys form an antichain under path prefix without cumulative keys |
| `Metrics.RollupIsSumOfChildren` | src/art/metrics.py:347-362 | each rollup over the leaves below a path is the sum of what stands at its immediate children, leaves or rollups |
| `Metrics.ParentsAreTheInnerNodes` | src/art/metrics.py:351-355 | rollups stand exactly at the proper prefixes of leaves, never at a leaf or at a cumulative key |
| `Metrics.BaseIsAccumulable` | src/art/metrics.py:203-208 | nothing that a flush starts from can make it raise |
| `Metrics.AccumulateOne` | src/art/metrics.py:203-210 | each visited key adds its value to the one cumulative key it feeds, once |
| `MetricsBuilding.MetricsBuilder.ValidateAndAdd` | src/art/metrics.py:319-338 | a value is added, or refused for the namespace or the hierarchy, and a refused one changes nothing |
| `MetricsBuilding.MetricsBuilder.AddCost` | src/art/metrics.py:98-102 | a cost joins the costs section; an empty path is refused |
| `MetricsBuilding.MetricsBuilder.AddScenarioIds` | src/art/metrics.py:154-157 | scenario ids join what waits in the scope, and change nothing else |
| `MetricsBuilding.MetricsBuilder.AllParents` | src/art/metrics.py:351-355 | the loops over the components collect exactly the proper prefixes of two components or more |
| `MetricsBuilding.MetricsBuilder.SumBelow` | src/art/metrics.py:357-362 | the sum over the leaves under a path |
| `MetricsBuilding.MetricsBuilder.ComputeRollups` | src/art/metrics.py:347-374 | a rollup for every inner path and one for the whole |
| `MetricsBuilding.MetricsBuilder.SumTopLevel` | src/art/metrics.py:364-372 | the pass over the top-level children adds up to the sum of all leaves, each once |
| `MetricsBuilding.MetricsBuilder.Accumulate` | src/art/metrics.py:203-210 | the loop adds every hierarchical key to its cumulative key and never raises |
| `MetricsBuilding.MetricsBuilder.Flush` | src/art/metrics.py:193-221 | a flush never raises on a reachable state, and is the flush of the specification |
| `MetricsBuilding.MetricsBuilder.LoadStateDict` | src/art/metrics.py:307-317 | a load replaces the totals and drops whatever was waiting |
| `MetricsRuns.FlushShowsTheTree` | src/art/metrics.py:193-221 | what a flush returns shows each leaf as logged, each rollup outside `costs/all` as the sum of its shown children, and `costs/all` as the sum of all cost leaves, or no costs when there are none |
| `MetricsRuns.RunKeepsLedger` | src/art/metrics.py:193-221 | over any run of adds and flushes by builders that share a state, counted plus waiting grows by what was accepted, where costs under `step_all` are taken twice on both sides |
| `MetricsRuns.CostLaw` | src/art/metrics.py:193-221 | counted in `costs/cum/all` plus waiting in all scopes is what was accepted plus what was flushed under `step_all`; the plain law holds exactly when that excess is 0 |
| `MetricsRuns.StepAllCountsTwice` | src/art/metrics.py:36-43 | a cost v under `step_all`, added and flushed, makes counted plus waiting 2v |
| `MetricsRuns.CostsAreConserved` | src/art/metrics.py:193-221 | callers that log no cost path starting with `step_all` lose and gain nothing, whatever the interleaving |
| `MetricsRuns.RestoreIsInvisible` | src/art/metrics.py:301-317 | saving, loading into a fresh builder and going on gives the outputs of never stopping, for every continuation, exactly when nothing was waiting at the save |
| `MetricsTotals.IdleLaw` | src/art/metrics.py:376-384 | over any run of adds and flushes: the idle seconds counted plus those that wait are those that were accepted, for the trainer and for the actor |
| `MetricsTotals.SectionLaw` | src/art/metrics.py:193-210 | the same for every name of the time and data sections, whose total is fed with `step_` before the name and without |
| `MetricsTotals.ScenarioLaw` | src/art/metrics.py:146-157 | over any run of adds and flushes the scenarios counted and those that wait are exactly those that were logged |
| `MetricsTotals.FlushCountsScenarios` | src/art/metrics.py:211-221 | a flush counts what waited in its scope, and leaves the other scopes alone |
| `MetricsTotals.AverageIsShown` | src/art/metrics.py:386-406 | a flush shows a worker's tokens so far over its seconds so far exactly when this step logged one of the two, both are known and the seconds are positive; otherwise it adds nothing under that name |
| `MetricsTotals.TotalsAreShown` | src/art/metrics.py:203-218 | every total that a flush shows is the one counted so far; the number of scenarios is that of all different ones seen |
| `MetricsTotals.FedTotalsAreShown` | src/art/metrics.py:203-210 | what is logged in a section that is counted shows its total |
| `RuntimeInstall.StepKeepsInv` | src/art/vllm_runtime.py:554-657 | every step, exception and kill keeps what is known of the holder of the lock: its stage, the parts its directory certainly has, and what it found |
| `RuntimeInstall.ExistingBranchUnreachable` | src/art/vllm_runtime.py:585-594 | no call reaches the branch in which a valid runtime has appeared since the lock was taken, and a call that returns does so with a runtime that validates |
| `RuntimeInstall.HolderGoesOn` | src/art/vllm_runtime.py:554-657 | no call is ever stuck: wherever it is, it has a step that is no exception and no kill |
| `RuntimeInstall.PickingMeans` | src/art/vllm_runtime.py:541-551 | a cleanup removes a child exactly when it is managed and not the one to keep |
| `RuntimeInstall.StageTells` | src/art/vllm_runtime.py:566-571 | a stage's name tells its hash and its suffix |
| `RuntimeInstall.HashIff` | src/art/vllm_runtime.py:493-496 | a hash is 64 lower-case hexadecimal digits |
| `RuntimeInstall.ManagedIff` | src/art/vllm_runtime.py:483-512 | a directory is managed when its marker can be read and names ART, the runtime's package, the directory's own name and this cache, whatever the versions, and its virtual environment has a config |
| `RuntimeInstall.ValidatesIff` | src/art/vllm_runtime.py:515-538 | a runtime validates when its marker is the very one that an install by this call writes, and the virtual environment's config and the server are there |
| `RuntimeRuns.CallTouchesOnlyPicked` | src/art/vllm_runtime.py:541-630 | what a call found in the cache keeps its contents unless its own cleanup picks it as a managed runtime of another hash, and what the call adds is its stage or the directory of its hash |
| `RuntimeRuns.UnmanagedIsForever` | src/art/vllm_runtime.py:483-512 | whatever is in the cache without being managed stays there unchanged, through any calls, failures and kills |
| `RuntimeRuns.HalfInstallRefuses` | src/art/vllm_runtime.py:585-625 | after a kill between the rename and a readable marker, the directory stays as it is and no call for that hash ever returns |
| `RuntimeRuns.ValidatingIsComplete` | src/art/vllm_runtime.py:515-538 | a runtime that validates is a completed install less what `rmtree` has deleted from it, so it is complete exactly when nothing was deleted since its directory was made |
| `RuntimeRuns.FinishedRemovalsAreSafe` | src/art/vllm_runtime.py:541-551 | when no `rmtree` was cut short, every runtime that validates while the lock is free is complete |
| `RuntimeRuns.CutShortRemovalValidates` | src/art/vllm_runtime.py:541-551 | a run with two calls after which a runtime validates and lacks its dependencies: a kill in the middle of a cleanup is enough |
| `RuntimeRuns.InstallCanSucceed` | src/art/vllm_runtime.py:554-625 | from a free lock and no directory for the hash, a call can stage, promote and mark a whole runtime, and add nothing else |
| `RuntimeRuns.RemovalCanFinish` | src/art/vllm_runtime.py:541-551 | a removal in progress can be finished, and takes nothing but its own directory |
| `RuntimeRuns.FailedCleanupUndoesTheInstall` | src/art/vllm_runtime.py:626-630 | when the cleanup after an install raises, the handler can remove the very runtime that was just completed and that validates |
| `RuntimeCaching.RuntimeCache.RemoveTree` | src/art/vllm_runtime.py:551 | a removal takes the whole directory, or fails on one that is stuck and leaves some of its parts, and the marker or not |
| `RuntimeCaching.RuntimeCache.CleanupOldManagedRuntimes` | src/art/vllm_runtime.py:541-551 | a cleanup succeeds exactly when none of the managed directories it has to remove is one that `rmtree` fails on, and then it has removed them and nothing else; it changes nothing when old runtimes are to be kept |
| `RuntimeCaching.RuntimeCache.FillStage` | src/art/vllm_runtime.py:571-599 | exactly when the copies, the sync and the rename work and the name is free, the stage is filled and takes the final name; otherwise only the stage was touched, and a name that is taken is refused |
| `RuntimeCaching.RuntimeCache.InstallPackage` | src/art/vllm_runtime.py:600-614 | the package goes into the promoted directory; it succeeds exactly when the command does and the server is there |
| `RuntimeCaching.RuntimeCache.MarkAndClean` | src/art/vllm_runtime.py:616-627 | the marker is written last, over a directory that has all parts, and then the other runtimes are removed; it succeeds exactly when both work |
| `RuntimeCaching.RuntimeCache.TryInstall` | src/art/vllm_runtime.py:571-627 | the whole `try` block: when it succeeds, and which directory the handler has to take down when it does not |
| `RuntimeCaching.RuntimeCache.Unwind` | src/art/vllm_runtime.py:628-630 | a failed install takes down the directory it was filling and nothing else, as far as it can |
| `RuntimeCaching.RuntimeCache.InstallManagedRuntime` | src/art/vllm_runtime.py:554-630 | an install returns exactly when everything it does works, the name is free and the cleanup works; it then leaves the cache as it was, cleaned up, with a complete and marked runtime. A failed one leaves all that was there, unless its cleanup failed; one that finds the directory taken refuses |
| `RuntimeCaching.RuntimeCache.EnsureVllmRuntime` | src/art/vllm_runtime.py:633-657 | one call is a run of the steps from one free lock to the next; it returns exactly when the cleanup works and there was a runtime that validates, or nothing under its hash and the install works; it says what is in the cache then |
| `Boards2048.SlideRowLeft` | examples/mlx_2048.py:65-84 | the loop merges equal neighbours from the front, each tile once, and counts the merged values |
| `Boards2048.FirstPairMerges` | examples/mlx_2048.py:65-88 | the pair nearest to the side that is pushed to merges first, and no tile merges twice |
| `Boards2048.RotateBoard` | examples/mlx_2048.py:87-91 | quarter turns clockwise, counted modulo 4 |
| `Boards2048.Move` | examples/mlx_2048.py:94-120 | the board after rotating, sliding and rotating back, its points, and whether it differs |
| `Boards2048.FourTurns` | examples/mlx_2048.py:87-91 | four quarter turns are the identity |
| `Boards2048.TurnBack` | examples/mlx_2048.py:104-115 | turning on by the complement undoes the first turn |
| `Boards2048.MovedLine` | examples/mlx_2048.py:94-120 | a move slides each line of its direction on its own, read from the side pushed to; `up` pushes to the last row |
| `Boards2048.MovesPush` | examples/mlx_2048.py:91-120 | where each direction of the rotating engine pushes: left to the first column, right to the last, down to the first row and up to the last |
| `Boards2048.WordsPush` | examples/2048/utils.py:111-140 | where each word pushes in place: up to the first row and down to the last, the other way round than in the rotating engine |
| `Boards2048.LinesDetermine` | examples/mlx_2048.py:94-120 | a board is known from its lines in one direction |
| `Boards2048.CondenseSequence` | examples/2048/utils.py:89-107 | the second engine's loop merges the same way on cells that may be empty |
| `Boards2048.CondenseBoard` | examples/2048/utils.py:111-140 | every line of the direction is condensed in place, each from the cells it had before; any other word changes nothing |
| `Boards2048.CondensedIsSlid` | examples/2048/utils.py:89-107 | condensing a line is sliding it |
| `Boards2048.EnginesAgree` | examples/2048/utils.py:111-140 | on every 4x4 board the in-place engine and the rotating one give the same result, `left` with `left`, `right` with `right`, and `up` of the one with `down` of the other |
| `Game2048.TilesArePowers` | examples/mlx_2048.py:47-54 | the tiles of the model are exactly the powers of two from 2 on |
| `Game2048.PowerIsTile` | examples/mlx_2048.py:65-84 | the potential of 2^k is (k-1)2^k |
| `Game2048.SlideWeighs` | examples/mlx_2048.py:65-84 | sliding a row keeps its sum and adds its points to its potential |
| `Game2048.RotationWeighs` | examples/mlx_2048.py:87-91 | turning a board keeps sum and potential |
| `Game2048.MoveWeighs` | examples/mlx_2048.py:94-120 | a move keeps the sum of the board, adds its points to the potential and leaves powers of two |
| `Game2048.SlideFixes` | examples/mlx_2048.py:65-84 | a slide changes nothing exactly when the tiles come first and no neighbours are equal |
| `Game2048.MoveFixes` | examples/mlx_2048.py:94-120 | a move changes nothing exactly when every line of its direction is settled |
| `Game2048.ChangeLeavesGap` | examples/mlx_2048.py:234-240 | a move that changes the board leaves an empty cell, so a tile can always be added after it |
| `Game2048.NoMoveIsLeft` | examples/mlx_2048.py:128-134 | no move is left exactly when the board is full without two equal orthogonal neighbours, or has no tile at all |
| `Game2048.Game.NewGame` | examples/mlx_2048.py:57-62 | a bare board and two tiles |
| `Game2048.TileComesIn` | examples/mlx_2048.py:47-54 | a 2 or a 4 comes into one empty cell and nothing else changes; a full board stays |
| `Game2048.AnyCellCanBePicked` | examples/mlx_2048.py:47-54 | every empty cell may be the one |
| `Game2048.TurnSlides` | examples/mlx_2048.py:226-246 | a round in the direction answered: nothing happens where no line of that direction can slide; otherwise every line slides, the points of all lines are scored, one move is counted and a tile comes in |
| `Game2048.Game.AddRandomTile` | examples/mlx_2048.py:47-54 | exactly one empty cell gets a 2 or a 4; False exactly on a full board |
| `Game2048.Game.AnyMove` | examples/mlx_2048.py:128-134 | whether some direction changes the board |
| `Game2048.Game.Laws` | examples/mlx_2048.py:219-243 | at every point of every game the board sums to the tiles put on it, and the score plus 4 for each spawned 4 is the potential of the board |
| `Game2048.Game.Play` | examples/mlx_2048.py:219-243 | the game loop makes exactly the moves it is given, one tile after each that changes the board and none after the others; it keeps those laws and stops early only when no move is left |
| `ConfigMerge.JoinIsLeast` | src/art/model.py:536-561 | a merge of configs that succeeds is the least config that says what both say |
| `ConfigMerge.BoundedJoins` | src/art/model.py:536-561 | it fails only where no config says what both say |
| `ConfigMerge.JoinIdempotent` | src/art/model.py:536-561 | merging a config with itself gives it back |
| `ConfigMerge.JoinCommutative` | src/art/model.py:536-561 | the order of two configs matters neither for the result nor for failing |
| `ConfigMerge.JoinAssociative` | src/art/model.py:536-561 | nor does their grouping |
| `ConfigMerge.JoinFailsAtConflicts` | src/art/model.py:536-561 | a merge fails exactly when at some common path the values differ and are not both dictionaries |
| `ConfigMerge.MergeWandbConfig` | src/art/model.py:536-561 | the recursive loop returns that merge, or the path of a real conflict |
| `ConfigMerge.HistoryOrderIsIrrelevant` | src/art/model.py:582-602 | a whole history of updates is accepted or not, and leads to the same config, whatever the order and repetition of the updates |
| `ConfigMerge.WandbConfig.Update` | src/art/model.py:582-602 | the config only grows, to the least one that says everything accepted; a refused update changes nothing |
| `ConfigMerge.DeepMergeDicts` | src/art/model.py:519-533 | the recursive loop of the other merge |
| `ConfigMerge.OverlayAt` | src/art/model.py:519-533 | what that merge has at every path: the newer value if there is one, merged with the older if both are dictionaries; the older where the newer says nothing on the way |
| `ConfigMerge.OverlayAbsorbs` | src/art/model.py:519-533 | merging the same updates again changes nothing |
| `ConfigMerge.OverlayExtendsJoin` | src/art/model.py:519-561 | where the strict merge succeeds, both merges give the same |
| `ChunkFold.MakeRoom` | src/art/openai.py:133-142 | the padding loop ends for an index that is not negative, with empty calls up to the index |
| `ChunkFold.PaddingEnds` | src/art/openai.py:133-142 | the padding loop comes to an end exactly for an index that is not negative |
| `ChunkFold.EndsIff` | src/art/openai.py:130-142 | folding a chunk ends exactly when it brings no negative index to a choice that the completion has |
| `ChunkFold.ApplyToolDelta` | src/art/openai.py:132-156 | one delta changes the call at its index only |
| `ChunkFold.ApplyChoice` | src/art/openai.py:90-165 | one chunk folded into one choice |
| `ChunkFold.ChatCompletion.Update` | src/art/openai.py:82-167 | choices are matched by position as far as both sides have them; the others keep what they have |
| `ChunkFold.ConsumeStream` | src/art/openai.py:52-61 | the completion of a stream, or none for an empty stream |
| `ChunkLaws.TextIsConcatenation` | src/art/openai.py:112-119 | content, refusal and reasoning are the concatenation of their pieces, absent when all are empty |
| `ChunkLaws.ListIsConcatenation` | src/art/openai.py:94-111 | token ids and log probabilities are the concatenation of those of the chunks |
| `ChunkLaws.FunctionCallIsConcatenation` | src/art/openai.py:120-128 | name and arguments of the old kind of function call are concatenated |
| `ChunkLaws.ToolCallsAreFolded` | src/art/openai.py:129-156 | the tool calls depend on the sequence of deltas, not on how it was cut into chunks |
| `ChunkLaws.ToolCallsByIndex` | src/art/openai.py:129-156 | there are as many calls as the greatest index asks for, and the call at an index has all arguments given for it and the last id and name that were not empty |
| `ChunkLaws.DeltasCommute` | src/art/openai.py:129-156 | deltas of different calls may arrive in either order |
| `ChunkLaws.DeltaSplits` | src/art/openai.py:129-156 | a delta may arrive in two pieces |
| `ChunkLaws.LastReasonWins` | src/art/openai.py:100 | the finish reason is that of the last chunk with the choice, `stop` if it gives none; an earlier reason is lost |
| `ChunkLaws.LastIdIsKept` | src/art/openai.py:143-146 | the id of a call is the last one given for its index that is not empty |
| `ChunkLaws.LastNameIsKept` | src/art/openai.py:147-151 | so is its name |
| `ChunkLaws.ArgumentsGiven` | src/art/openai.py:152-155 | a delta adds the arguments it gives, or none |
| `ChunkLaws.PromptIdsAreLast` | src/art/openai.py:86-93 | a choice has the prompt's token ids that were given last, up to the last chunk that has the choice |
| `ServerSentEvents.ParseToCompletion` | src/art/auto_trajectory.py:18-44 | a buffered event stream gives the fold of its payloads in order, or fails on the first that cannot be decoded, or when there is none; and exactly when a negative index is reached before that, the call never returns |
| `ServerSentEvents.PayloadsComeBack` | src/art/auto_trajectory.py:28-34 | reading back what was printed as events, with the end mark, gives the payloads |
| `ServerSentEvents.LinesJoin` | src/art/auto_trajectory.py:24 | the lines have no line end in them and joined again are the text |
| `ServerSentEvents.PayloadIff` | src/art/auto_trajectory.py:25-30 | a line carries a payload exactly when it is `data: ` and the payload with blanks around, and the payload is not empty, does not end in a blank and is not the end mark |
| `ServerSentEvents.DecodedIff` | src/art/auto_trajectory.py:32-36 | reading gives these chunks exactly when each payload decodes to its chunk and folding them ends |
| `ServerSentEvents.DecodedStops` | src/art/auto_trajectory.py:32-36 | otherwise it stops at the first payload that does not decode or brings a negative index |
| `Histories.GetMessages` | src/art/trajectories.py:97-127 | the loop gives each item as a message, field by field: a sent one with an empty text where it has no content, a reply as an assistant's message with its text, and with its tool calls exactly where it has any |
| `Histories.Chosen` | src/art/auto_trajectory.py:137-153 | the first history that the request continues, or a new one |
| `Histories.AutoTrajectoryContext.HandleResponse` | src/art/auto_trajectory.py:84-159 | the loop over the histories extends that one, and changes nothing for what is no readable chat exchange |
| `Histories.OneHistoryGrows` | src/art/auto_trajectory.py:137-159 | each handled response adds exactly one reply, at the end of one history, which keeps what it had; all other histories are unchanged |
| `Histories.FirstThatGoesOn` | src/art/auto_trajectory.py:137-153 | a history changes exactly when the request repeats all it reads as, field by field, under the same tools, and no earlier history is so repeated |
| `Histories.HistoryReadsAsConversation` | src/art/auto_trajectory.py:155-159 | afterwards that history reads as the request, message by message, and then the reply, field by field, under the request's tools |
| `Histories.NullContentSplits` | src/art/auto_trajectory.py:137-153 | a first request with a null content, repeated exactly by the next one, splits the conversation in two |
| `Histories.ToolCallsContinue` | src/art/auto_trajectory.py:137-159 | a request that repeats the question and a reply with tool calls, written out, and adds the tool's answer goes on with the same history |
| `Histories.LinearConversation` | src/art/auto_trajectory.py:137-159 | a conversation whose requests each repeat the one before, of any length, is one history exactly when the tools stay the same, every request but the last has no missing or null content and every reply comes back in the form it reads here; then that history reads as the last exchange |
| `Gather.GatherContext.CountException` | src/art/gather.py:140-180 | a failure is counted before the budget is asked |
| `Gather.GatherContext.RecordMetrics` | src/art/gather.py:183-200 | every metric of a trajectory, whatever its name, and its reward are added to the sums |
| `Gather.GatherContext.Wrap` | src/art/gather.py:159-180 | a wrapper raises exactly for a failure that is one too many |
| `Gather.GatherContext.GatherAll` | src/art/gather.py:108-137 | a gather raises exactly when one of its failures finds the budget spent, with what metrics of the counter's name added to it |
| `Gather.ReportedAdds` | src/art/gather.py:196-200 | what trajectories report under a name adds up, however they are put together |
| `Gather.CountedEvents` | src/art/gather.py:140-180 | each event adds one to the counter for a failure, of a trajectory or of a whole group, and otherwise what is reported under the counter's name |
| `Gather.RaisesBeyondBudget` | src/art/gather.py:228-235 | provided no result adds to the counter by metrics of its name: in whatever order the awaitables end, a gather raises exactly when its failures exceed the budget, as a number or as a share of the total |
| `Gather.FreeNameReportsNone` | src/art/gather.py:196-200 | trajectories without a metric named `exceptions` add nothing to the counter |
| `Gather.BudgetHoldsIff` | src/art/gather.py:196-235 | for any kind of results: every gather that mixes such results with failures, under every budget, raises exactly when its failures exceed the budget, if and only if each of these results reports 0 in all under the name `exceptions` |
| `Gather.MetricSpendsTheBudget` | src/art/gather.py:196-200 | with a metric of that name, one failure raises under a budget of one |
| `Gather.GatherContext.Handle` | src/art/gather.py:140-156 | one event of a group: a trajectory of a group awaited one by one, or a group awaited at once, under the shared counter |
| `Gather.GatherContext.GatherGroups` | src/art/gather.py:14-66 | groups whose trajectories end in any interleaving share one budget: the gather raises exactly when a failure of any group finds it spent; otherwise each group is what its own events made of it, and the counter holds all of them |
| `Gather.GroupsShareTheBudget` | src/art/gather.py:228-235 | provided no result adds to the counter: a gather of interleaved groups raises exactly when the failures of all groups together exceed the budget |
| `Gather.ShareIsOfTotal` | src/art/gather.py:228-235 | with a budget between 0 and 1 and a total: the gather raises exactly when its failures are more than that share of the total, provided no result adds to the counter |
| `Gather.NumberIsANumber` | src/art/gather.py:228-235 | with any other budget, or no total: exactly when there are failures and they are more than the budget |
| `Gather.GroupsAndTheirShare` | src/art/gather.py:228-235 | the same for the events of interleaved groups |
| `Gather.GroupIsComplete` | src/art/trajectories.py:268-298 | however the groups interleave, each one awaited one by one holds its successes in their order, and exactly as many trajectories and exceptions as were submitted to it and given |
| `Gather.WholeGroupIsItsResult` | src/art/gather.py:140-156 | a group awaited at once is its result, or is dropped when it failed |
| `Gather.GatherContext.AwaitGroup` | src/art/trajectories.py:268-298 | the coroutine of one group raises exactly when one of its failures finds the budget spent, with what was counted before; otherwise it has all trajectories in the order they ended, an exception for each other, and has counted all of them |
| `Batches.TaskMakes` | src/art/trajectories.py:268-298 | a group awaited at once is its result; one awaited member by member has its successes in order and an exception for every other member, on top of those it was given; a broken one makes none |
| `Batches.Batcher.StartTasks` | src/art/batches.py:33-36 | tasks start from the front while fewer run than are allowed |
| `Batches.Batcher.Happen` | src/art/batches.py:37-41 | one event of one running task, a group awaited at once or a member of one awaited one by one, under the shared counter: the task ends after its last event and its group joins the batch, and the loop raises exactly when the budget of this spell is spent or the task is broken |
| `Batches.HappenedConserves` | src/art/gather.py:140-156 | every outcome met belongs to one spell between two batches and to one task, with every event |
| `Batches.Batcher.Wait` | src/art/batches.py:37-41 | the events picked happen one after the other, up to the first that raises, until one task at least has ended |
| `Batches.Batcher.YieldIfFull` | src/art/batches.py:42-47 | one full batch leaves, the rest stays, and a new spell begins with the counter and the budget at 0 |
| `Batches.Batcher.YieldRest` | src/art/batches.py:48-49 | what is left in the end is one more batch; everything made has been yielded |
| `Batches.Batcher.Run` | src/art/batches.py:24-49 | the loop ends for positive parameters, in any interleaving of the events; where nothing raises, every group after the skipped ones is yielded once, in the order in which the loop takes the tasks, no more tasks run than allowed, every batch but the last is full, every outcome of every task has counted in one spell and no failure was one too many in its spell; with one batch of tasks at a time no batch is larger than asked |
| `Batches.NoFailureAfterABatch` | src/art/batches.py:42-45 | unless results add to the counter: up to the first batch the loop raises exactly when the failures are more than the budget, as a number or as a share of the batch size; after it, for any failure |
| `Batches.Batcher.LastBatchCanBeLarger` | src/art/batches.py:42-49 | for every batch size, whenever two batches of tasks or more may run at a time, some run ends in a batch of one group more than asked |
| `Batches.Batcher.FailureAfterABatchRaises` | src/art/batches.py:42-45 | whatever the sizes and the budget, a failure after a batch was yielded raises although it is the first |
| `Wrapping.WrapTextToWidth` | dev/yes-no-maybe-vision/generate_images.py:54-74 | the loop gives the greedy lines, and one empty line for no words |
| `Wrapping.GreedyWraps` | dev/yes-no-maybe-vision/generate_images.py:54-74 | the lines are the words in order, each line fits or is a single word, for any width whatever |
| `Wrapping.GreedyReaches` | dev/yes-no-maybe-vision/generate_images.py:54-74 | a greedy line reaches at least as far as any allowed line that starts no later |
| `Wrapping.EveryLineFitsIff` | dev/yes-no-maybe-vision/generate_images.py:54-74 | for a width that never shrinks when words are added, every line fits exactly when every word fits by itself; for no words, when the empty line does |
| `Wrapping.NarrowWordsFit` | dev/yes-no-maybe-vision/generate_images.py:61-68 | where every word fits by itself every line does, for any width whatever |
| `Wrapping.WideWordStaysWide` | dev/yes-no-maybe-vision/generate_images.py:61-68 | a word wider than the limit makes a line that does not fit, wherever it stands and however the words are cut into lines |
| `Wrapping.GreedyIsOptimal` | dev/yes-no-maybe-vision/generate_images.py:54-74 | for a width that never shrinks when words are added, no other cutting under the same rule has fewer lines |
| `Shards.CloseIff` | dev/trainer_rank_check.py:290-297 | two values of one position are close when they differ by no more than 0.00002 and that share of the one written last |
| `Shards.EachRequestOnce` | dev/trainer_rank_check.py:220-228 | for every number of ranks, each request goes to exactly one rank |
| `Shards.SelectedAreOwn` | dev/trainer_rank_check.py:229-271 | what is selected for a request is, in order, the records that the request made, once for each time its rank handed in, and nothing else |
| `Shards.ReconstructTensor` | dev/trainer_rank_check.py:274-304 | the scatter loop gives what was written last at each position, and fails exactly on an overlap that is not close or on a position that was missed |
| `Shards.RebuildFromPieces` | dev/trainer_rank_check.py:274-304 | pieces of a tensor that agree with it rebuild it, in any order and with any overlaps, exactly when every position is covered |
| `Shards.GlobalOutputs` | dev/trainer_rank_check.py:220-271 | dealing out, gathering, selecting and rebuilding together: for every number of ranks, heard in any order and any number of times, each request gets its tensor back exactly when its positions are covered |

## Left out

- Byte-level and outside parts: HTTP patching, JSON decoding, wandb, parquet, the OpenAI client proxies,
  progress bars, fonts and drawing, the language model that chooses moves; what they give is a parameter.
- Numerics: losses, tensors beyond one value per position, floats (metrics are reals), NaN in comparisons.
- `src/mp_actors/move.py`: pickling, signals, process groups, parent monitoring, timeouts, attributes that
  are not methods, two threads racing in the first lines of `close`, a `BaseException` in a handler, and a
  response that never leaves a live child's queue; the shutdown id is never sent.
- ActorTheorems.SystemDrains: assumes that a handler can always end, which the program cannot promise.
- ActorProxy.Proxy.FailPending: is the whole call with nobody interleaved; that other steps may come between
  its single completions is covered by the step system, not by this method.
- `parse_prefix_tree`: the loop over rows and the rank checks, which only repeat the row parser.
- Metrics.StepKeepsHierarchy: which of two clashing keys is reported first is not modelled, nor are
  `for_cost_context`, the counts in `add_data`, the timing helpers, pricing and cost extractors.
- `_route_metrics_and_collect_non_costs` and the files around the metrics state, in `src/art/model.py`: easy
  routing by key prefix around the builder that is modelled.
- MetricsBuilding.MetricsBuilder.AddCost: a path is given as its components, at least one.
- `src/art/vllm_runtime.py`: hashing (a hash is an opaque name), uv, the lock as an object of the system,
  processes other than callers of this function writing to the cache, dangling links under the final name.
  A part that was only half copied counts as missing.
- RuntimeCaching.RuntimeCache.EnsureVllmRuntime: runs without a kill, and with exceptions only where `Luck`
  puts them; kills, and exceptions anywhere, are steps of RuntimeInstall.
- ChunkFold.MakeRoom: requires an index that is not negative, because the loop never ends for one that is.
- ServerSentEvents.ParseToCompletion: only the ASCII white space is stripped; a call that would never return
  is given an error of its own.
- ChunkFold.ConsumeStream: requires chunks whose fold ends, that is, no negative index in a choice it reaches.
- `attach_vllm_token_metadata_to_choice` and `attach_moe_routing_metadata_to_choice`: not part of this model.
- Boards2048.CondenseBoard: boards of size 4 only, which is what the hard-coded padding supports.
- Game2048.Game.Play: follows a finite list of decisions; a player who keeps answering moves that change
  nothing keeps the real loop running.
- Batches.Batcher.Run: a task that ends while the consumer holds a batch is seen at the next wait.
- Gather.GatherContext.Handle: a group awaited at once comes without exceptions of its own.
- Gather.GatherContext.RecordMetrics: never raises, and neither the divisors of the progress bar nor the
  average of completion tokens are kept.
- Gather.GatherContext.GatherGroups: without the `after_each` callback; what failed groups that keep running
  do after the gather has raised is not followed.
- Shards.ReconstructTensor: positions within one record are distinct and in range, as index tensors are.
- ConfigMerge: leaves are compared by identity of their values; numbers of different types that Python holds
  equal are one leaf.
- Adapter leases, checkpoint migration, tic-tac-toe boards, launch scripts and the command line: small or
  finite parts without a property worth stating here.
