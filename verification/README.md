# Wukong: fan-in protocol, codecs and small state machines

Wukong runs a task graph on serverless executors. There is no central scheduler at run
time: executors share a Redis store of dependency counters and agree through it who runs
each task. This project models that protocol and the code around it, and proves what the
code relies on for every graph, every interleaving and every input.

## How it is built

**The protocol.** `Graphs` defines task graphs and what a task means (`Eval`), `Plans` the
static schedule: each task's out-edges, and what sizes, names and configuration decide.
`FanIn` is a transition system over per-edge phases (waiting, held in a delayed queue,
taken by a peek, handed to the proxy, counted, left out), claims, runs, the store and every
executor's cache; one step is one Redis command or one local action of one process, and a
run is any interleaving. No step asks whether a task was claimed before: `FanInSafety`
proves that it never is, and `FanInTheorems` says what that means for whole runs.

**When who does what.** `FanIn` lets any process drop a claim, pass an edge over or end at any
moment. `Conduct` adds, for a given plan, when the code does so: what is counted, checked,
queued or left to whom, that all out-edges of a big task are looked at before anything below it
is run, and that an executor gives up on its queue only when nothing else is left to do. A run
that keeps to this is lawful, and so is whatever the executors of `TaskExecutors` do. `GivingUp`
has what that means for big values that are not stored. `Completion` says when the job can
still be completed, and `Losses` has the three ways in which the code loses that; `FinalResults`
says whose results are in the store in the end. `Colocation`
bounds, for all lawful runs, who can miss an input; `Starvation` has a lawful run in which each
such input is missed, built from `LawfulRuns` (single steps), `Stages` (running a set of tasks)
and `Sweeps` (looking at all out-edges of a big task).

**Down to the code.** `RedisBits` has the mask arithmetic, `Clusters` a class with the real
counters or bitmaps and the real store, whose invariant says that they stand for a
lawful protocol state. Each of its commands first lets any number of steps of other
processes happen (`Interfere`, whose callers see only its contract), so the contracts of
`TaskExecutors.TaskExecutor` (a Lambda from its start to its end, with `process_path` and
everything it calls) and of `Proxies.RedisProxy` hold under all interference. Two predicates
carry these contracts: `View` (in `LocalViews`), what an executor knows of its own claims,
edges, results and cache, and `Onward`, that the state was reached from the old one by
protocol steps and lost nothing. `ExecutorSteps` has the bookkeeping lemmas, from one edge up
to a whole path. The loops of the executor are proved to terminate: the tasks left to run
become fewer, or they stay and the nodes to process become fewer.

**Where an assumption fails.** `RetriedBitmaps` drops reliable replies from the bitmap
counters and says for exactly which plans a task can then be claimed twice; `SplitCounters` drops
the atomicity of the proxy's INCR and GET and has plans under which no run suffers, `SplitHarms`
plans under which one does. `Schedules` has what they need about orders of tasks.

**The rest.** `Terms` (substituting data into task terms), `Frames`, `SliceTables`,
`Messages` and `MessageObjects` (the codec, the last one on mutable dicts and lists),
`Locks`, `Profiles`, `ProfileNodes`, `ProfilePlots`, `Batching` and `Dispatching`.

## What came out

- The code loses tasks in three ways, each shown by a run (`Losses`). With a task to become
  already chosen, nobody counts the become edge of the next small node with a proxy
  (`function.py` 2613-2649). The branch for a task without dependents (2037-2115) returns with
  edges still in the delayed queue. A claimant whose input is missing returns an error
  (3317-3324), and nobody else runs the task. What is lost in one of these ways is lost for good
  (`Completion.LostForGood`). Nothing else stands in the way as far as the protocol goes: a lawful
  state in which no abandoned edge leads into an unclaimed task and no claim was dropped can be
  continued to a run of every task exactly once (`Completion.CompletableExactlyWhenIntact`). Only
  the order in which an executor deals with its nodes can mean that the code is already bound to
  one of the three.
- Every final result reaches the store if no edge may wait in a delayed queue
  (`FinalResults.ResultsWithoutQueue`). With the queue, an executor stores no final task that it
  runs from there (`function.py` 3539-3592), nor a final current task if a pass over the queue
  then brings a task to become (1966-2021); all others are stored
  (`FinalResults.CompleteHasResults`), and what is not stored when its executor ends never is
  (`FinalResults.QueuedResultIsLost` has a run).
- An input is missing for two reasons. Giving up on a delayed edge counts it (3684-3707) before
  its big value is stored (3750-3768). And the become edge of a task with a proxy is counted
  straight after its message was published (2613-2640), perhaps before the proxy has stored the
  value. In a run without these two kinds of count into a task, all its inputs are always within
  reach (`FanInTheorems.InputsAlwaysInReach`). Whoever misses d's value for t has claimed t behind
  such an edge d -> t, while no task above t forces d's value into the store, and some other
  dependency of t was counted last, by the proxy or where d's value was not
  (`Colocation.OnlyIfCanMiss`). A plan without such an edge never starves a task; a plan with one
  has a lawful run that does (`Starvation.StarvesExactlyWhenStarvable`), although the fixed order of
  the code may spare it. If a needs d, and t needs d and a, with only d big, the executor of d
  runs all three, and t misses nothing. Without big tasks in the queue and small ones with a
  proxy nobody misses anything (`Losses.NoneMissesWithoutQueueAndProxy`).
- The bitmap check without counting misses the last dependency exactly when the number of
  dependencies is 1 modulo 8 and that dependency has the last bit, because the string that
  Redis returns is then one byte short. The edge is counted later, so nothing is lost.
- INCR and GET in the proxy's pipeline are meant to be atomic, says its comment. If they are
  not, a task can be claimed twice when a count falls between the two; its second run counts its
  out-edges again, and an executor that checks before it counts can then claim a dependent twice
  as well. There is no such overlap with dependencies that wait for the proxy's own message,
  since it invokes only after all its counts. No harm is done if, for every task that may be
  claimed twice, the proxy counts no edge into a dependent and the dependent needs nothing that
  the task did not need (`SplitCounters.HarmlessIsSafe`). Harm can be done if two dependencies of
  the task can be last, one of them counted by the proxy, and the proxy counts from the task
  into a dependent, or the dependent needs something else (`SplitHarms.SureHarmIsDone`).
- Retried bitmap transactions never claim a task early and lose nothing. They can claim a task
  twice exactly under plans in which some task has two dependencies of which neither has to
  wait for the count of the other (`RetriedBitmaps.TwiceExactlyWhenForked`): neither needs the
  other, or that edge may wait in the delayed queue.
- `merge_frames` returns its input when lengths and frames agree as far as both lists go, also
  when one list is longer by empty frames; `Frames.MergedBytesAndLengths` says exactly when.
- Substituting data and then executing a term differs from evaluating it in the data exactly
  when some datum is callable or contains a task.

## Model

| member | source | states |
|---|---|---|
| `FanInTheorems.ClaimedOnceNeverEarly` | AWS Lambda Task Executor/TaskExecutor/function.py:1547-1680 | In every reachable state of every interleaving, a task has been claimed at most once and run at most as often as claimed, and a claimed task has had every dependency run, exactly once |
| `FanInTheorems.CompleteRun` | AWS Lambda Task Executor/TaskExecutor/function.py:1683-2150 | A run that ends with no pending claim and no undecided out-edge has executed every task of the graph exactly once, whichever mix of peek, count, hold and give-up its edges took |
| `FanInTheorems.ValuesAreTheMeaning` | AWS Lambda Task Executor/TaskExecutor/function.py:3261-3336 | Every value in Redis, and every value in any executor's cache, is the recursive evaluation of its task, whatever the schedule |
| `FanInTheorems.InputsWithinReach` | AWS Lambda Task Executor/TaskExecutor/function.py:2887-3031 | Whoever holds a claim can read each input from Redis or its own cache unless the write of that input is still owed for this very edge or was left to the proxy; a claim that may change hands does not even need the cache |
| `Starvation.StarvesExactlyWhenStarvable` | AWS Lambda Task Executor/TaskExecutor/function.py:3643-3774 | For every plan: some lawful run has a claimed task with an input that can be read nowhere, if and only if the plan has an edge d to t that can be missed: it may be counted before d is stored (given up from the queue, or the become edge behind a message to the proxy); d can stay out of the store so long (no dependent above t forces it in: one that the proxy counts; one that may not wait and cannot be checked at once; one that only a give-up can count); and another dependency of t can be the last, counted by the proxy or where the value of d is not |
| `Colocation.OnlyIfCanMiss` | AWS Lambda Task Executor/TaskExecutor/function.py:3643-3774 | In every lawful run of every plan, a claimant that can read an input d nowhere has claimed a task t with an edge d to t that can be missed: the half that bounds all runs of the code, stated for that very edge |
| `Colocation.ReadersDoNotMiss` | AWS Lambda Task Executor/TaskExecutor/function.py:2868-2887 | If every other dependency of t needs the big task d itself and is not counted by the proxy, the edge d to t cannot be missed: all of them are pulled down where d ran |
| `Starvation.MissedOnceClaimed` | AWS Lambda Task Executor/TaskExecutor/function.py:3643-3774 | For each such edge d to t there is a lawful run that claims t while d is neither stored nor with the claimant: all that can be run without giving up is run, what is bound to the value of d where d runs and the rest elsewhere, its executor looks at all out-edges of d, deals with every edge it has, and gives up; or it counts d to t behind its message to the proxy; the other dependency is counted last |
| `Stages.RunSet` | AWS Lambda Task Executor/TaskExecutor/function.py:1683-2150 | Any set of tasks that contains what it needs can be run by a lawful run, the tasks bound to the value of d where d runs and the others elsewhere, with that value kept out of the store |
| `Sweeps.Sweep` | AWS Lambda Task Executor/TaskExecutor/function.py:2851-3031 | From there, the executor of d can look at all out-edges of d, put those that may wait into its queue, take all others by checks and run their targets, still without storing d |
| `GivingUp.LawfulQueueInv` | AWS Lambda Task Executor/TaskExecutor/function.py:2851-3031 | In every lawful state, of big tasks whose value is not stored: the value is only with who made it; an edge counted for later payment is of the queue of an executor that is still giving up, with no edge of that task waiting; an edge that may not wait was taken by a check before any dependent ran; and a task that no check can take was counted in a give-up, during which nothing below it is counted |
| `Colocation.TiedHasValue` | AWS Lambda Task Executor/TaskExecutor/function.py:2851-3165 | Whoever ran a task that is bound to d (on its lineage, reading it, or only reachable by claims that stay where such tasks ran) has the value of d as long as some dependent of d has not run |
| `FanInTheorems.InputsAlwaysInReach` | AWS Lambda Task Executor/TaskExecutor/function.py:2613-2640 | In every run of the protocol in which an edge d to t was not counted by giving up or behind a message to the proxy, whoever has claimed t and not run it finds d in the store or its own cache, and a claim that may change hands finds it in the store |
| `Completion.CompleteExactlyWhenQuiescent` | AWS Lambda Task Executor/TaskExecutor/function.py:1683-2150 | With no claim pending, every task has run exactly once if and only if no executed task has an out-edge still waiting, held, left out or with the proxy |
| `Completion.AllFinishedMeansComplete` | AWS Lambda Task Executor/TaskExecutor/function.py:1683-2150 | If each executor has no claim, no failure, no waiting edge and an empty delayed queue, the proxy has no edge and none was left out, then every task of the graph has run exactly once: local conditions that imply the global one |
| `Completion.CompletableExactlyWhenIntact` | AWS Lambda Task Executor/TaskExecutor/function.py:1683-2150 | Of the protocol without the order in which an executor deals with its nodes: from a lawful state some continuation runs every task exactly once if and only if no abandoned edge (passed over, or its executor has ended) leads into an unclaimed task and no claim was dropped (its executor failed, or has ended) |
| `Completion.LostForGood` | AWS Lambda Task Executor/TaskExecutor/function.py:3317-3324 | In every lawful run, so in every run of the code: a task behind an abandoned edge, or whose claim was dropped, is never run after that |
| `Losses.BecomingLosesTask` | AWS Lambda Task Executor/TaskExecutor/function.py:2613-2649 | For every plan in which an executor pulls down two small dependents of a big leaf, in their order becomes the task below the first, and the second has a proxy: a lawful run leaves out the become edge of the second, and that target is never run |
| `Losses.FinalTaskLosesQueue` | AWS Lambda Task Executor/TaskExecutor/function.py:2037-2115 | For every plan in which an executor with an edge in its delayed queue pulls down a small task and becomes the task without dependents below it: a lawful run ends there, and the target of the held edge is never run |
| `Losses.MissingLosesTask` | AWS Lambda Task Executor/TaskExecutor/function.py:3317-3324 | For every edge that can be missed there is a lawful run in which the claimant of its target fails, and that task is never run |
| `Losses.NoneMissesWithoutQueueAndProxy` | AWS Lambda Task Executor/TaskExecutor/function.py:2851-3031 | Under a plan without big tasks in the delayed queue and without small ones that have a proxy, no lawful run has a claimant who misses an input or fails |
| `Losses.FailsExactlyWhenStarvable` | AWS Lambda Task Executor/TaskExecutor/function.py:3317-3324 | Some lawful run has a claimant that fails for want of an input, if and only if the plan has an edge that can be missed |
| `FinalResults.ResultsWithoutQueue` | AWS Lambda Task Executor/TaskExecutor/function.py:2037-2115 | In every lawful run of a plan without edges that may be put into a delayed queue: when every task has run once and all executors have ended, every task without dependents has its value, the recursive evaluation, in the store |
| `FinalResults.CompleteHasResults` | AWS Lambda Task Executor/TaskExecutor/function.py:2037-2115 | For every plan, of each such final task either the value is in the store then, or the executor has run it below a task of its own after which it may wait, or has run another one so while this one could be its current task |
| `FinalResults.EndedHasResults` | AWS Lambda Task Executor/TaskExecutor/function.py:2037-2115 | The same of each executor that ended without a failure, in every lawful state |
| `FinalResults.QueuedResultIsLost` | AWS Lambda Task Executor/TaskExecutor/function.py:3539-3592 | For every plan in which a final task needs a big leaf and a small one, and waits for the other in the queue of the first: a lawful run without a failure runs it from there and ends its executor, and its result is never stored |
| `FinalResults.WithheldForGood` | AWS Lambda Task Executor/TaskExecutor/function.py:2037-2060 | In every lawful run: what is neither stored nor sent when its executor has ended is never stored |
| `Conduct.LawfulLawInv` | AWS Lambda Task Executor/TaskExecutor/function.py:1683-2150 | In every lawful state: held, delegated and left-out edges are those the plan allows, nothing is sent or claimed for the proxy otherwise, and an executor that has ended either failed or has no claim, no waiting edge, nothing unpaid, and its final results stored as far as its queue did not interfere |
| `FanInSafety.StepKeepsDiscipline` | AWS Lambda Task Executor/TaskExecutor/function.py:1547-1680 | Each of the twenty-one steps keeps: a task's claims number one exactly when its last edge has been counted or taken by a peek, a peeked edge is the last one, and pending claims are unique, claimed and not yet run |
| `FanInSafety.StepKeepsValuesRight` | AWS Lambda Task Executor/TaskExecutor/function.py:3261-3392 | Each step keeps every value in the store, in caches, in delayed queues, in messages to the proxy and among the writes still owed equal to the meaning of its task |
| `FanInSafety.StepKeepsReach` | AWS Lambda Task Executor/TaskExecutor/function.py:2368-2449 | Each step, eviction included, keeps: a producer still caches its value while a dependent has not run, counted values of unclaimed tasks are stored or owed, and claimed tasks have their inputs within reach |
| `FanInSafety.EvictableIsUnneeded` | AWS Lambda Task Executor/TaskExecutor/function.py:2368-2449 | When every dependent of a cached value ran at this executor or has a value in Redis, no pending claim and no task still to run needs that value |
| `FanInSafety.ReachableInv` | AWS Lambda Task Executor/TaskExecutor/function.py:1547-1680 | All of the above invariants hold in every state that any interleaving reaches |
| `LocalViews.OthersRunUndisturbed` | AWS Lambda Task Executor/TaskExecutor/function.py:1547-1680 | Any number of steps of other processes leaves an executor's own claims, undecided edges, delayed queue, executed tasks and cache exactly as they were, and only ever adds to the store and to what has run |
| `LocalViews.OwnCount` | AWS Lambda Task Executor/TaskExecutor/function.py:1578-1623 | Counting an own edge changes only that edge, and claims the target exactly when the count sees every dependency |
| `LocalViews.OwnPeek` | AWS Lambda Task Executor/TaskExecutor/function.py:1624-1680 | A successful check without counting takes the edge and claims its target, which this executor had not claimed before |
| `RedisBits.CreateMask` | AWS Lambda Task Executor/TaskExecutor/function.py:1210-1248 | The loops build the number whose bits, read most significant first, are n ones (zeros at the omitted positions) padded with zeros to whole bytes |
| `RedisBits.CountCheckExact` | AWS Lambda Task Executor/TaskExecutor/function.py:1326-1343 | For every n: a Redis string that holds exactly the set bits, and is only as long as the highest needs, equals the full mask if and only if all n bits are set |
| `RedisBits.PeekCheckExact` | AWS Lambda Task Executor/TaskExecutor/function.py:1434-1459 | For every n and every edge whose own bit is unset: the check without counting is true if and only if all other bits are set and it is not the case that n mod 8 = 1 and the own offset is n-1 |
| `RedisBits.EqualsFullMask` | AWS Lambda Task Executor/TaskExecutor/function.py:1328-1343 | The comparison in the code, on the number read from the bytes, decides the counting check |
| `RedisBits.EqualsMaskWithoutOwn` | AWS Lambda Task Executor/TaskExecutor/function.py:1436-1459 | The two comparisons in the code decide the check without counting; an absent key is not ready |
| `RedisBits.SetBitRepresents` | AWS Lambda Task Executor/TaskExecutor/function.py:1290-1343 | SETBIT adds exactly its own offset to the set a string stands for, and keeps the string as short as its highest bit allows |
| `RedisBits.OffsetsFaithful` | Static Scheduler/wukong/scheduler.py:2262-2280 | Positions in the dependency list, distinct and below n, make "all bits set" and "all dependencies counted" the same, also for subsets |
| `Clusters.CounterExact` | AWS Lambda Task Executor/TaskExecutor/function.py:1616-1680 | Comparing an integer counter with n, or with n-1 before counting, is comparing the set of counted dependencies with all, or with all but one |
| `Clusters.BitmapCounts` | AWS Lambda Task Executor/TaskExecutor/function.py:1290-1343 | On a task's bitmap, SETBIT records the dependency and the check after it is true exactly when the last dependency was just recorded |
| `Clusters.BitmapPeeks` | AWS Lambda Task Executor/TaskExecutor/function.py:1406-1459 | The check without counting on a task's bitmap: exact, but for the one case in which the missing dependency's bit stands alone in the last byte |
| `Clusters.CountAnswerExact` | AWS Lambda Task Executor/TaskExecutor/function.py:1251-1680 | In either encoding, a counting check answers yes exactly when the protocol says that this count completes the task |
| `Clusters.PeekAnswerExact` | AWS Lambda Task Executor/TaskExecutor/function.py:1251-1680 | In the integer encoding the check without counting is exact; in the bitmap encoding it is right when it says yes and misses one stated case |
| `Clusters.Cluster.constructor` | Static Scheduler/wukong/scheduler.py:2375-2402 | Counters that start at zero, no bitmap keys and an empty store stand for the protocol's initial state, with the leaves claimed |
| `Clusters.Cluster.ReadAnswer` | AWS Lambda Task Executor/TaskExecutor/function.py:1406-1459 | One GET and the comparisons answer yes exactly when all other dependencies are counted, but for the missed bitmap case |
| `Clusters.Cluster.CountUp` | AWS Lambda Task Executor/TaskExecutor/function.py:1578-1623 | INCR, or SETBIT with GET, changes one counter or one bitmap and answers yes exactly when it completes the task |
| `Clusters.Cluster.CheckWithoutCounting` | AWS Lambda Task Executor/TaskExecutor/function.py:1624-1680 | With any interference before it, the answer is the exact one for the state of that moment (bitmaps: but for the missed case); a yes means that this executor now has the one claim of the target and the edge is taken; a no changes nothing of its own |
| `Clusters.Cluster.CheckAndCount` | AWS Lambda Task Executor/TaskExecutor/function.py:1547-1680 | With any interference before it, the edge is counted; the answer is yes exactly when now every dependency is counted, and then this executor has the claim; a no leaves the value stored or recorded as owed |
| `Clusters.Cluster.CountTaken` | AWS Lambda Task Executor/TaskExecutor/function.py:2613-2647 | The increment after a successful peek always sees a full counter and settles the edge without a new claim |
| `Clusters.Cluster.Get` | AWS Lambda Task Executor/TaskExecutor/function.py:3261-3336 | A value read from Redis is the meaning of its task, and is cached; there is an answer exactly when the value is stored |
| `Clusters.Cluster.Set` | AWS Lambda Task Executor/TaskExecutor/function.py:2664-2681 | After SET the own result is stored, and the executor's own affairs are unchanged |
| `Clusters.Cluster.Exists` | AWS Lambda Task Executor/TaskExecutor/function.py:2419-2430 | A task is found by EXISTS exactly when its value is in the store |
| `Clusters.Cluster.SetIfMissing` | AWS Lambda Task Executor/TaskExecutor/function.py:3750-3768 | After the late write of an edge counted early, the big value is in the store, whoever stored it |
| `Clusters.Cluster.Run` | AWS Lambda Task Executor/TaskExecutor/function.py:3355-3392 | Applying the task's function to the cached inputs yields the meaning of the task; the claim is used up and the out-edges begin to wait |
| `Clusters.Cluster.Invoke` | AWS Lambda Task Executor/TaskExecutor/function.py:2452-2520 | A claim from a counting check leaves this executor for another, which starts from the data sent along |
| `ExecutorSteps.CountingStep` | AWS Lambda Task Executor/TaskExecutor/function.py:2721-2789 | Counting one more out-edge keeps the account: each target whose count completed it is either the one task to become or on the invoke list once, the others in neither |
| `ExecutorSteps.QueueHead` | AWS Lambda Task Executor/TaskExecutor/function.py:3482-3539 | Moving the head of the delayed queue to its end keeps the queue equal to the set of held edges; dropping it removes exactly that edge |
| `ExecutorSteps.ObligedAfterOutEdges` | AWS Lambda Task Executor/TaskExecutor/function.py:1838-1956 | After a node is processed, the edges that still wait are exactly those of the nodes still to process, and the only claim is the task to become |
| `ExecutorSteps.ObligedAfterQueue` | AWS Lambda Task Executor/TaskExecutor/function.py:1838-1956 | A pass over the delayed queue keeps that account, adding the nodes that it ran |
| `LocalViews.OwnExecute` | AWS Lambda Task Executor/TaskExecutor/function.py:3168-3450 | Running a claimed task uses up the claim, starts its out-edges, adds it to the executor's own results and removes it from what is left to run |
| `TaskExecutors.TaskExecutor.constructor` | AWS Lambda Task Executor/TaskExecutor/function.py:1683-1750 | An executor starts with the values sent along, an empty delayed queue and no node to process |
| `TaskExecutors.TaskExecutor.ProcessTask` | AWS Lambda Task Executor/TaskExecutor/function.py:3168-3450 | The result is the meaning of the task, the claim is used up, and one task fewer is left to run; it fails only if an input of a claimed task was neither stored nor cached, and then the claim is dropped |
| `TaskExecutors.TaskExecutor.RunAll` | AWS Lambda Task Executor/TaskExecutor/function.py:3008-3165 | Every task in the list is run once; those with dependents become nodes to process, the others have their value stored. If an input is missing the claim is dropped, and where the source goes on with the other tasks every one of them has been run or dropped in the end |
| `TaskExecutors.TaskExecutor.CountSmall` | AWS Lambda Task Executor/TaskExecutor/function.py:2652-2789 | The value is stored before any count, every out-edge is counted, and each target so claimed is either the task to become or on the invoke list, once; where one is needed, the first target in the order of the out-edges is the task to become, and nothing is invoked unless there is one |
| `TaskExecutors.TaskExecutor.LeaveToProxy` | AWS Lambda Task Executor/TaskExecutor/function.py:2577-2649 | With a proxy, the invoke edges are handed over uncounted and the become edge is counted, behind the message and perhaps before the value is stored, when a task to become is needed, and else left out |
| `TaskExecutors.TaskExecutor.ProcessSmall` | AWS Lambda Task Executor/TaskExecutor/function.py:2530-2789 | Both branches: every out-edge is counted and claimed or handed to the proxy, the value is stored unless the proxy is to store it, and whenever a task is invoked directly another one before it is to become, if one is needed |
| `TaskExecutors.TaskExecutor.TakeIfLast` | AWS Lambda Task Executor/TaskExecutor/function.py:2868-2900 | A delayed or waiting edge is taken, and then counted, if the check says that it is the last; if not, the check did say no at some moment of the call, and nothing of the executor changes |
| `TaskExecutors.TaskExecutor.OfferBig` | AWS Lambda Task Executor/TaskExecutor/function.py:2851-3031 | One out-edge of a big task is claimed, queued or counted: not claimed at once only if a check said no, then queued exactly if it may use the queue, and counted only with the value stored |
| `TaskExecutors.TaskExecutor.SweepBig` | AWS Lambda Task Executor/TaskExecutor/function.py:2792-3031 | Over all out-edges: the tasks pulled down are exactly those claimed, the parked edges exactly those that may use the queue and to which a check said no, and if any other is left the big value is stored |
| `TaskExecutors.TaskExecutor.ProcessBig` | AWS Lambda Task Executor/TaskExecutor/function.py:2792-3165 | After that, every task pulled down has run here and either is a node to process or has its value stored |
| `TaskExecutors.TaskExecutor.SplitQueue` | AWS Lambda Task Executor/TaskExecutor/function.py:3482-3539 | One pass splits the delayed queue, as a multiset, into the ready and the re-enqueued edges; the targets of the ready ones are claimed once each, exactly the others stay held, and to each of these a check said no during the pass |
| `TaskExecutors.TaskExecutor.ProcessEnqueuedTasks` | AWS Lambda Task Executor/TaskExecutor/function.py:3455-3603 | After the pass the ready targets have run and are nodes to process, each below a task of this executor after which it may wait; the queue holds the rest, to each of which a check said no, and any execution leaves fewer tasks to run |
| `TaskExecutors.TaskExecutor.CountQueue` | AWS Lambda Task Executor/TaskExecutor/function.py:3684-3707 | Every held edge is counted once; the edges whose count completed a task are returned as ready, the others have their value stored or owed |
| `TaskExecutors.TaskExecutor.WriteOwed` | AWS Lambda Task Executor/TaskExecutor/function.py:3749-3768 | All values of the edges that stayed unready are in the store afterwards |
| `TaskExecutors.TaskExecutor.GiveUp` | AWS Lambda Task Executor/TaskExecutor/function.py:3643-3774 | After a give-up the queue is empty, each held edge was counted once, and it is either claimed and run here or its big value is in the store, also when a run failed |
| `TaskExecutors.TaskExecutor.ProcessEnqueuedTasksLooped` | AWS Lambda Task Executor/TaskExecutor/function.py:3605-3774 | It terminates after at most 20 passes; returned edges are, as a multiset, those of the queue; on return the queue is empty or something ran; it gives up only after 20 passes in which a check said no to every edge, and then every edge not run has its value in the store |
| `TaskExecutors.TaskExecutor.DataFor` | AWS Lambda Task Executor/TaskExecutor/function.py:2454-2482 | The data for an invocation are inputs of the invoked task, equal to the cached values; with the header their total size is below the limit, and no other cached input would fit as well |
| `TaskExecutors.TaskExecutor.InvokeOne` | AWS Lambda Task Executor/TaskExecutor/function.py:2452-2521 | The claim of the task leaves this executor for one new Lambda, whose cache starts with exactly these data |
| `TaskExecutors.TaskExecutor.InvokeAll` | AWS Lambda Task Executor/TaskExecutor/function.py:2452-2521 | Each task on the invoke list is handed to one new executor, and no other claim changes |
| `TaskExecutors.TaskExecutor.EvictUnneeded` | AWS Lambda Task Executor/TaskExecutor/function.py:2365-2449 | Only values whose dependents all ran here or have a value in Redis are dropped, and all whose dependents ran here are |
| `TaskExecutors.TaskExecutor.NoDependentWaits` | AWS Lambda Task Executor/TaskExecutor/function.py:2413-2435 | A value may go if and only if each dependent ran here or exists in Redis when the answer is given |
| `TaskExecutors.TaskExecutor.OutEdgesOfSmall` | AWS Lambda Task Executor/TaskExecutor/function.py:2153-2525 | For a small result: peek for the task to become, count, evict and invoke, with all out-edges accounted for, and no value cached any more of which all dependents ran here |
| `TaskExecutors.TaskExecutor.ProcessOutEdges` | AWS Lambda Task Executor/TaskExecutor/function.py:2153-2525 | After process_out_edges no out-edge of the node waits (one may have been left out with a proxy); the nodes returned are the pulled-down tasks with dependents, and the results of the others are stored; at most one task is to become; no value is cached any more of which all dependents ran here |
| `TaskExecutors.TaskExecutor.ProcessNode` | AWS Lambda Task Executor/TaskExecutor/function.py:1838-1956 | A task to become that was chosen before is kept; the account of claims and edges is kept; fewer tasks are left to run, or as many and fewer nodes; all final results are stored but those of tasks run from the queue; with the queue in use, a check has said no to every edge left in it; a final node alone brings no task to become |
| `TaskExecutors.TaskExecutor.ProcessNodes` | AWS Lambda Task Executor/TaskExecutor/function.py:1838-1978 | The loop terminates with no node left, and with at most one claim, that of the task to become; all final results are stored but those of tasks run from the queue, and if there were only final nodes a task to become comes from there |
| `TaskExecutors.TaskExecutor.RunCurrent` | AWS Lambda Task Executor/TaskExecutor/function.py:1756-1830 | The current task is run, and its out-edges are the only new ones to wait |
| `TaskExecutors.TaskExecutor.StoreIfMissing` | AWS Lambda Task Executor/TaskExecutor/function.py:2124-2133 | The result of the current task is in the store afterwards, and nothing of this executor changes |
| `TaskExecutors.TaskExecutor.DrainQueue` | AWS Lambda Task Executor/TaskExecutor/function.py:2022-2143 | On return the delayed queue is empty or there are new nodes to process, after fewer tasks are left to run; the tasks newly run are those that came from the queue |
| `TaskExecutors.TaskExecutor.FinishRound` | AWS Lambda Task Executor/TaskExecutor/function.py:2022-2150 | After a round without a task to become: the result of a current task is stored if it is final or not big; and unless it is final, the delayed queue is then empty or there are new nodes and fewer tasks to run |
| `TaskExecutors.TaskExecutor.ProcessPath` | AWS Lambda Task Executor/TaskExecutor/function.py:1683-2150 | process_path terminates; on a normal return no claim is left, no edge waits, every value owed is written, the delayed queue is empty unless the last current task was a final one, and the result of every final task run here is stored, except of a task run from the queue, or of a current task after which, with the queue of effect, another one became the current one; it fails only when an input was missing and a claim was dropped for that |
| `TaskExecutors.TaskExecutor.Handle` | AWS Lambda Task Executor/TaskExecutor/function.py:1683-2150 | A Lambda from its start to its end is lawful: it ends with no claim and no edge but those in its queue, these only if its last current task was one without dependents, whose result is stored, or else after a failure; its final results are stored with the same exceptions, and without the delayed queue each of them is in the store, with the value that its task means |
| `Proxies.RedisProxy.StoreValue` | KV Store Proxy/proxy.py:152-165 | SET of the value that came with the message stores the meaning of the task |
| `Proxies.RedisProxy.CountDelegated` | KV Store Proxy/proxy.py:179-213 | INCR with GET settles one delegated edge, and a yes gives the proxy the one claim of the target |
| `Proxies.RedisProxy.InvokeReady` | KV Store Proxy/proxy.py:226-253 | A claim of the proxy leaves it for another Lambda, which starts from the value if it fits and from nothing otherwise |
| `Proxies.RedisProxy.ProcessTask` | KV Store Proxy/proxy.py:126-253 | For every message that was sent, also one without invoke edges: the value is stored, every invoke edge of the message is counted exactly once, and every claim so made is handed out: the proxy ends with the claims it began with |
| `Proxies.OthersRunKeeps` | KV Store Proxy/proxy.py:126-254 | While the proxy waits, executors leave delegated edges, and the values sent with them, as they are |
| `Proxies.SentIsRight` | KV Store Proxy/proxy.py:126-159 | The value that came with a message is the meaning of its task |
| `SplitCounters.HarmlessIsSafe` | KV Store Proxy/proxy.py:179-253 | With the INCR and GET of the edges that the proxy counts set apart, executors counting on what INCR returns or checking first, and the proxy invoking only after all counts of a message: no run claims a task early or loses one, if for every task that can be claimed twice the proxy counts no edge into a dependent, and a dependent needs nothing but what the task itself needed, directly or not |
| `SplitCounters.WaitingIsSafe` | KV Store Proxy/proxy.py:179-253 | If for each edge that the proxy counts into a task with more dependencies some other dependency is invoked only after that very message, no task is claimed twice and no run does harm |
| `SplitCounters.StepKeepsInv` | AWS Lambda Task Executor/TaskExecutor/function.py:1588-1680 | Under such plans every step keeps: a counter is the number of INCRs, tasks that cannot be claimed twice are claimed once at most, claimed tasks had every dependency run, a full counter has a claim or a pending GET, and a task invoked because of one message alone has run only after that message is over |
| `SplitHarms.SureHarmIsDone` | KV Store Proxy/proxy.py:179-213 | Some run does claim a task early or lose one, even if every task waits until all out-edges of its dependencies are counted: under every plan with a task t of which two dependencies can be the last (none is above another dependency), one of them counted by the proxy, and with a dependent u of t that the proxy counts from t or that needs a task which t does not need |
| `SplitHarms.MakeDouble` | KV Store Proxy/proxy.py:187-197 | Such a t is claimed twice: the count of the other dependency falls between INCR and GET of the proxy, and both see the full counter |
| `SplitHarms.LoseIt` | KV Store Proxy/proxy.py:179-213 | After t has run twice, both messages count t to u before either asks for the counter, which has passed its full value by then: u is never claimed |
| `SplitHarms.EarlyHarm` | KV Store Proxy/proxy.py:179-213 | After t has run twice, the second count fills the counter of u in place of a dependency that has not run, and u is claimed early |
| `RetriedBitmaps.NeverEarly` | AWS Lambda Task Executor/TaskExecutor/function.py:1290-1343 | With replies lost and transactions tried again, a claimed task still has had every dependency executed |
| `RetriedBitmaps.NeverLost` | AWS Lambda Task Executor/TaskExecutor/function.py:1307-1319 | And a task whose dependencies all ran, with no edge waiting to be acknowledged, has been claimed |
| `RetriedBitmaps.CompleteAtLeastOnce` | AWS Lambda Task Executor/TaskExecutor/function.py:1290-1343 | And a run that ends with nothing left to do has executed every task at least once |
| `RetriedBitmaps.TwiceExactlyWhenForked` | AWS Lambda Task Executor/TaskExecutor/function.py:1307-1319 | When counts are retried inside the call and what an execution has claimed is run after all its counts but those of edges that may wait in the queue: lost replies can make some task be claimed twice if and only if some task has two dependencies of which neither has to wait for the count of the other (it does not need it, or that edge may wait in the queue) |
| `RetriedBitmaps.OnceWithoutFork` | AWS Lambda Task Executor/TaskExecutor/function.py:1307-1319 | Without such a task, every task is claimed once at most, in every such run |
| `RetriedBitmaps.LastsClaimTwice` | AWS Lambda Task Executor/TaskExecutor/function.py:1307-1319 | A lowest task of that kind is claimed twice in some run in which all above it is counted and acknowledged before what needs it is run: one reply is lost, another count completes the bitmap, the first is tried again |
| `RetriedBitmaps.StepKeepsInv` | AWS Lambda Task Executor/TaskExecutor/function.py:2896-2900 | Each step, lost replies and peeks included, keeps: marks come from executions, an executed dependency is marked or still to be acknowledged or the task is claimed, and full bitmaps have a claim or a pending reply |
| `Terms.PackThenExecute` | AWS Lambda Task Executor/TaskExecutor/function.py:3807-3880 | For every nested term, substituting the data and then executing is evaluating the term in that environment, if no datum is evaluated again or called |
| `Terms.PackReplaces` | AWS Lambda Task Executor/TaskExecutor/function.py:3848-3880 | Along every way through items of lists and tuples, elements of sets and values of dicts: a known key has become its datum, any other leaf and every dict key is as before, and a collection is of the same kind, with as many items |
| `Terms.PackedComesFrom` | AWS Lambda Task Executor/TaskExecutor/function.py:3848-3880 | Conversely, whatever is at some place of the result replaces what was at that place, or lies inside the datum of a known key |
| `Terms.CalledOnData` | AWS Lambda Task Executor/TaskExecutor/function.py:3807-3880 | A task of a callable and known keys is executed, after the substitution, as one call on their data in that order |
| `Terms.SoundExactlyWhenInert` | AWS Lambda Task Executor/TaskExecutor/function.py:3807-3880 | That law holds for all terms and all meanings of the callables if and only if every datum is inert (no task in it, also inside lists) and none is callable |
| `Terms.PackKeepsTasks` | AWS Lambda Task Executor/TaskExecutor/function.py:3848-3880 | Substitution of such data makes no task and unmakes none |
| `Terms.NotInertChanges` | AWS Lambda Task Executor/TaskExecutor/function.py:3807-3822 | A datum with a task inside is changed by evaluation under some meaning of the callables |
| `Frames.FrameSplitSize` | AWS Lambda Task Executor/TaskExecutor/serialization.py:34-64 | Frames over n bytes become pieces, the others stay: the pieces are at most n bytes each, follow the order of the frames and hold the same bytes |
| `Frames.SplitFrame` | AWS Lambda Task Executor/TaskExecutor/serialization.py:34-64 | One long frame becomes consecutive pieces, each of n bytes but the last, which is not empty |
| `Frames.SplitWhole` | AWS Lambda Task Executor/TaskExecutor/serialization.py:34-64 | Splitting keeps the concatenation of all frames, every piece is at most n bytes, and frames stay frames |
| `Frames.PopFrame` | AWS Lambda Task Executor/TaskExecutor/serialization.py:755-769 | Taking l bytes off the stack of frames takes exactly the next l bytes and never pops an empty stack |
| `Frames.MergeFrames` | AWS Lambda Task Executor/TaskExecutor/serialization.py:733-770 | The stack loop terminates and yields the bytes of all frames cut at the given lengths, or the frames themselves when these fit already |
| `Frames.MergedBytesAndLengths` | AWS Lambda Task Executor/TaskExecutor/serialization.py:733-770 | Merging keeps the bytes for all frames whose total matches, and gives exactly the asked lengths if and only if not every pair of frame and length agrees while the lists differ in size |
| `Frames.MergeUndoesSplit` | AWS Lambda Task Executor/TaskExecutor/serialization.py:34-64 | For all frames, empty ones included, and every n, merging with the original lengths undoes splitting |
| `SliceTables.SerializeObjectWithDict` | AWS Lambda Task Executor/TaskExecutor/serialization.py:157-185 | At every depth the table's slices tile the frame list, each entry is in the table or has a slice, and each slice holds the coded entry; in particular an entry that needs a serializer has one slot with what that returns, and a plain one is inline and has none |
| `SliceTables.EntriesPlaced` | AWS Lambda Task Executor/TaskExecutor/serialization.py:157-185 | An entry is inline, as it is, if and only if nothing inside it at any depth needs a serializer or is a dict with entries; otherwise exactly one slot has its header and its frames |
| `SliceTables.SimpleExactly` | AWS Lambda Task Executor/TaskExecutor/serialization.py:144-155 | The check accepts a value if and only if no part of it, at any depth, needs a serializer or is a dict with entries |
| `SliceTables.DeserializeObjectWithDict` | AWS Lambda Task Executor/TaskExecutor/serialization.py:188-202 | Applied to any coded dict tree it returns that tree, given an invertible leaf serializer |
| `SliceTables.TilesCover` | AWS Lambda Task Executor/TaskExecutor/serialization.py:171-184 | Every frame lies in exactly one slice of its table |
| `Messages.PackPayloads` | AWS Lambda Task Executor/TaskExecutor/serialization.py:540-580 | Keys are the paths of the payloads, each once, with its own number of frames, and the frames are the consecutive blocks in key order |
| `Messages.Loads` | AWS Lambda Task Executor/TaskExecutor/serialization.py:595-649 | Whatever the order of the keys, every payload returns to its path from its own block of frames and nothing else changes: the result is the sent message, up to list and tuple |
| `Messages.PutInWrites` | AWS Lambda Task Executor/TaskExecutor/serialization.py:632-646 | put_in writes the value at the path, through tuples that it rebuilds, and changes no other slot |
| `Messages.PutBack` | AWS Lambda Task Executor/TaskExecutor/serialization.py:610-649 | Reinserting one payload into the message with some payloads kept gives the message with that one kept too |
| `Messages.WriteBack` | AWS Lambda Task Executor/TaskExecutor/serialization.py:610-649 | Writing a payload where it was removed restores exactly that slot |
| `Messages.TakeOut` | AWS Lambda Task Executor/TaskExecutor/serialization.py:293-322 | Removing a payload (a key deleted, an index set to None) changes exactly that slot |
| `Messages.KeepAll` | AWS Lambda Task Executor/TaskExecutor/serialization.py:293-322 | Keeping every payload is the original message |
| `Messages.MarksAre` | AWS Lambda Task Executor/TaskExecutor/serialization.py:266-290 | The payloads are exactly the objects to serialize that dicts and lists lead to, at any depth |
| `Messages.NoMarkLeft` | AWS Lambda Task Executor/TaskExecutor/serialization.py:293-322 | None of them is left in the message that is packed |
| `Messages.WireAlike` | AWS Lambda Task Executor/TaskExecutor/serialization.py:540-580 | Two messages are the same on the wire if and only if they differ in nothing but which sequences are lists and which tuples |
| `MessageObjects.ExtractMarks` | AWS Lambda Task Executor/TaskExecutor/serialization.py:266-290 | All payloads reachable through dicts and lists are recorded, each under its path, and nothing else |
| `MessageObjects.ContainerCopy` | AWS Lambda Task Executor/TaskExecutor/serialization.py:655-661 | The copy holds the same message in containers that are all new and shared with nobody |
| `MessageObjects.RemoveAt` | AWS Lambda Task Executor/TaskExecutor/serialization.py:293-322 | Deleting at a path in the copy removes that payload and keeps the rest |
| `MessageObjects.ExtractSerialize` | AWS Lambda Task Executor/TaskExecutor/serialization.py:293-322 | The payloads by path, and the message without them; the caller's containers are never written, as the absent modifies clause shows |
| `MessageObjects.SendAndLoad` | AWS Lambda Task Executor/TaskExecutor/serialization.py:524-649 | From the sender's containers through extraction, packing, the wire and reinsertion, for every message and any order of payloads: the message arrives, up to list and tuple, and the sender's containers hold what they held |
| `Locks.WaitersAreSafe` | Static Scheduler/wukong/lock.py:39-77 | In every run: a call that goes on pops its own event, and a free lock that calls wait for has the wake-up of the first of them scheduled or delivered |
| `Locks.StepKeepsInv` | Static Scheduler/wukong/lock.py:39-77 | Every call, release, callback and resumption keeps: a queue holds each suspended call's event once, only its head is woken, and no wake-up is lost, also when newcomers take the lock first |
| `Locks.EveryWaiterCanBeServed` | Static Scheduler/wukong/lock.py:39-77 | From every such state, releases, callbacks and resumptions alone serve every waiting call of a name |
| `Locks.HeadCanGoOn` | Static Scheduler/wukong/lock.py:39-77 | A free lock with waiting calls can be granted to the head of the queue |
| `Locks.GrantLasts` | Static Scheduler/wukong/lock.py:39-77 | From a grant on, whatever calls, wake-ups and releases of others follow: until the id that was granted releases the lock, that id can release it and no other can |
| `Locks.HoldsUntilRelease` | Static Scheduler/wukong/lock.py:39-77 | In every run a lock stays with its holder until the holder releases it |
| `Locks.CallerHoldsOrWaits` | Static Scheduler/wukong/lock.py:39-66 | Calling or going on makes the caller the holder of a free lock, and otherwise the last in the queue of that lock; no other lock changes |
| `Locks.LockExtension.TakeOrWait` | Static Scheduler/wukong/lock.py:39-66 | The lock is granted to the caller exactly when its name has no holder; otherwise a new event for just this call joins the end of the queue; other locks stay as they are |
| `Locks.LockExtension.Acquire` | Static Scheduler/wukong/lock.py:39-66 | A new call is granted exactly when the name is free, and then the id of the call is recorded as the holder; otherwise a new event that waits for this name and id joins the end of the queue |
| `Locks.LockExtension.Resume` | Static Scheduler/wukong/lock.py:39-66 | A woken call pops the head of its queue, which is its own event, and becomes the holder or waits again, for the same name and id, at the end of the queue |
| `Locks.LockExtension.Release` | Static Scheduler/wukong/lock.py:67-77 | Only the holder can release: the name becomes free and the head's wake-up is scheduled, or the empty queue is dropped; any other id is an error that changes nothing |
| `Locks.ReleaseFrees` | Static Scheduler/wukong/lock.py:67-77 | The release of the holder frees that lock, keeps who waits for it and in which order, and changes no other lock |
| `Profiles.ProfileIsShape` | Static Scheduler/wukong/profile.py:79-128 | The tree built by adding the samples one by one is the tree defined top-down from the series: counts are sizes, children are the series below each first frame, descriptions those of the first sample |
| `Profiles.AddToShape` | Static Scheduler/wukong/profile.py:79-128 | Adding one stack to the tree of a series gives the tree of the longer series |
| `Profiles.CountsAreSamples` | Static Scheduler/wukong/profile.py:79-128 | The count at every path is the number of sampled stacks that run through it |
| `Profiles.VisibleIs` | Static Scheduler/wukong/profile.py:79-128 | The counted frames are the longest inner end of the stack without a caller in the file to stop at |
| `Profiles.MergeIsConcat` | Static Scheduler/wukong/profile.py:131-150 | Merging any number of profiles of one node is the profile of all their samples in order, descriptions included |
| `Profiles.MergeOfProfiles` | Static Scheduler/wukong/profile.py:131-159 | Merging the profiles of any number of series, none included, is the profile of all series one after the other |
| `Profiles.MixedExactly` | Static Scheduler/wukong/profile.py:131-136 | The error is raised if and only if two of the identifiers differ |
| `ProfileNodes.FindOrMake` | Static Scheduler/wukong/profile.py:110-121 | The child for a frame is found or made, and no other child changes |
| `ProfileNodes.AddAlong` | Static Scheduler/wukong/profile.py:79-128 | Counting a stack in place into nested mutable nodes gives the tree with that stack added |
| `ProfileNodes.Process` | Static Scheduler/wukong/profile.py:79-128 | process on mutable nodes adds the visible end of the stack, and nothing if the innermost frame is to be omitted |
| `ProfilePlots.ShapeFits` | Static Scheduler/wukong/profile.py:197-233 | In a profile, the children of every node together count no more than the node |
| `ProfilePlots.Plot.Traverse` | Static Scheduler/wukong/profile.py:197-233 | The boxes lie within the given interval, those of one height are disjoint, each lies within its parent's and has the width of its count, and every counted child of a box has one |
| `ProfilePlots.Plot.PlotData` | Static Scheduler/wukong/profile.py:197-243 | The whole profile of any series is laid out like that between 0 and 1 |
| `Batching.BatchesAreSpaced` | Static Scheduler/wukong/batched.py:76-111 | In every timed run, background batches start at least the interval apart |
| `Batching.StepKeepsInv` | Static Scheduler/wukong/batched.py:76-144 | Every step, time included, keeps: all accepted messages are written, being written or buffered, in order, and a buffer that is not empty has a set waker or a deadline |
| `Batching.BufferDrains` | Static Scheduler/wukong/batched.py:76-111 | From every such state the passing of time alone, without a close and with no failing write, brings out exactly what was sent, in order |
| `Batching.ClosedMeansWritten` | Static Scheduler/wukong/batched.py:128-144 | After close, with no failed write, the batches together are exactly the messages sent before its final flush, in order |
| `Batching.CloseCompletes` | Static Scheduler/wukong/batched.py:128-144 | Once called, close can always run to its end, and what was sent by then has been written |
| `Batching.FailureStops` | Static Scheduler/wukong/batched.py:102-126 | In every run: after a failed write the loop is stopped for good, no background batch starts, and at most what close flushes is written; if the comm was found closed, no message is accepted either, and nothing is written |
| `Batching.BatchedSend.Send` | Static Scheduler/wukong/batched.py:113-126 | A message is appended unless the comm is closed, and the waker is set exactly when no deadline is pending |
| `Batching.BatchedSend.Wake` | Static Scheduler/wukong/batched.py:76-96 | From the end of its wait to its next yield the loop begins to write all that is buffered, if there is anything and no deadline is ahead, and sets the next deadline; otherwise it changes no message, and stops exactly if asked to |
| `Batching.BatchedSend.WriteDone` | Static Scheduler/wukong/batched.py:93-111 | A finished write is recorded and the loop goes on or stops as asked; after a failed one, of either kind, the loop is stopped and nothing is recorded |
| `Batching.BatchedSend.Close` | Static Scheduler/wukong/batched.py:128-134 | close asks the loop to stop and wakes it |
| `Batching.BatchedSend.Flush` | Static Scheduler/wukong/batched.py:134-144 | After the loop has stopped, what is left in the buffer becomes the last batch, unless the comm is closed already |
| `Batching.BatchedSend.FlushDone` | Static Scheduler/wukong/batched.py:134-144 | A last write that succeeds is recorded; one that finds the comm closed is passed over, and any other exception is raised by close |
| `Dispatching.ChunksFitInvokers` | Static Scheduler/wukong/batched_lambda_invoker.py:173-199 | For every length L >= 1 and k invokers, chunks of ceil(L/(k+1)) number between 1 and k+1, so that every pipe index is in range |
| `Dispatching.ChunksWhole` | Static Scheduler/wukong/batched_lambda_invoker.py:173-178 | Cutting into chunks loses, doubles and reorders nothing |
| `Dispatching.ChunkSizes` | Static Scheduler/wukong/batched_lambda_invoker.py:173-178 | No chunk is empty or too long, and all but the last are full |
| `Dispatching.InvokeInvokers` | Static Scheduler/wukong/batched_lambda_invoker.py:203-239 | The invoker Lambdas carry 50 payloads each, but the last, which carries 1 to 50, and together the chunk, in order |
| `Dispatching.InvokeChunk` | Static Scheduler/wukong/batched_lambda_invoker.py:202-262 | Each payload of a chunk is invoked directly once, or carried once by an invoker Lambda, all of which are full but the last |
| `Dispatching.BatchedLambdaInvoker.SendChunks` | Static Scheduler/wukong/batched_lambda_invoker.py:185-199 | Pipe i gets chunk i+1 and nothing else, and the other pipes get nothing |
| `Dispatching.BatchedLambdaInvoker.Dispatch` | Static Scheduler/wukong/batched_lambda_invoker.py:170-262 | One batch is cut into at most k+1 chunks of ceil(L/(k+1)), the last perhaps shorter, that together are the payload; the first is invoked by the scheduler itself, directly or by invokers as the threshold says, chunk i+1 goes to pipe i, and the total grows by the size of the first |
| `Dispatching.InvokerProcess` | Static Scheduler/wukong/batched_lambda_invoker.py:341-383 | An invoker process carries exactly the payloads of the message from its pipe |
| `Dispatching.RunBatch` | Static Scheduler/wukong/batched_lambda_invoker.py:170-262 | One batch from the payload to the calls, composed of the dispatch and the loops of all invoker processes: every payload of the batch and every one still waiting in a pipe is carried by exactly one call, and without a backlog the calls carry the payload in its order |
| `Dispatching.InvokerLoop` | Static Scheduler/wukong/batched_lambda_invoker.py:341-383 | A process carries exactly what is queued in its pipe, message by message |
| `Dispatching.CarriedWhole` | Static Scheduler/wukong/batched_lambda_invoker.py:185-199 | For every number of pipes, chunks and any backlog: the first chunk and what waits in the pipes after a dispatch are, as a multiset, the batch and what waited before |

## Left out

- Proxies.RedisProxy.CountDelegated: takes INCR with GET as one step, as the comment in the source intends; `SplitCounters` and `SplitHarms` separate the two.
- Proxies.RedisProxy.ProcessTask: asks for integer counters; the proxy counts with INCR whichever encoding the executors use, so that bitmaps and a proxy together are not a configuration the model covers.
- Clusters.Cluster.CountUp: takes INCR as applied once; a retried INCR whose reply was lost counts twice. Retried bitmap transactions are in `RetriedBitmaps`.
- Clusters.Cluster.CheckAndCount: what a yes means is stated for reliable replies.
- TaskExecutors.TaskExecutor.ProcessTask: has one loop that fetches and checks; the source fetches all inputs before it checks any. The early return for a task already in `previous_results` is shown to be unreachable (the result was never cached before) and has no branch.
- TaskExecutors.TaskExecutor.ProcessSmall: a become edge that was taken by a peek is never counted here, as in the source, and stays taken; nothing else needs that count.
- TaskExecutors.TaskExecutor.ProcessEnqueuedTasks: a final task run from the delayed queue is neither stored nor published, as in the source; `FinalResults` has the run in which that result is lost.
- TaskExecutors.TaskExecutor.ProcessNodes: when a pass over the delayed queue, made while a final task is the current one, yields a task to become, that final task's value is neither stored nor published, as in the source (1966-2021).
- TaskExecutors.TaskExecutor.ProcessPath: one executor for each invocation; the module-level `task_queue` and `executed_tasks` of a Lambda that is used again are not modelled.
- TaskExecutors.TaskExecutor.Handle: the end of a Lambda that is never invoked again is its last step; lawful runs ask of the final task before an end with edges in the queue only that an executor can come to it as its current task, not that it was the last.
- TaskExecutors.TaskExecutor.ProcessOutEdges: values are never None; a task whose result is None makes process_out_edges raise (function.py 2227-2230), so that its out-edges are never counted.
- Clusters.Cluster.Interfere: its body does nothing; callers rely on its contract only, which allows every interleaving.
- Terms.PackThenExecute: sets stand for set and frozenset, and TypeErrors for unhashable data are not modelled; what counts as a task is dask's `istask`.
- Frames.FrameSplitSize: frames are bytes, so that a memoryview's item size is 1.
- Frames.MergeFrames: asks for lengths that add up to the bytes, which the source asserts.
- SliceTables.SerializeObjectWithDict: the leaf serializer is a parameter, and the class of the object is not modelled.
- Messages.Loads: works on values; that `put_in` updates lists and dicts of the unpacked message in place is not captured. Packing a message into bytes only turns lists into tuples here.
- MessageObjects.ExtractSerialize: containers are trees of dicts and lists, possibly shared between branches for reading.
- Locks.LockExtension.Acquire: waits without a timeout; a waiter that times out pops whatever event is at the head. No order of service is claimed: newcomers may take a free lock first.
- Batching.BatchedSend.Flush: the comm is closed only by close, or is found closed by a write; a missing comm and abort are not modelled.
- Dispatching.BatchedLambdaInvoker.Dispatch: the ceiling is exact, where the source divides floats; payloads too long for one call, sent through Redis, count as sent.
- ProfileNodes.Process: collects the frames from the inside out and then counts them from the outside in, which are the recursion's updates in the recursion's order.
- Which tasks are big, use the proxy or may meet another big task, the size of a value and which path nodes an executor knows are parameters; the name and size tests behind them are not modelled.
- Leaf re-execution and the polling loop of a reused Lambda (function.py 257-381): driven by wall time.
- Tasks that raise: the model's tasks are total functions.
- Redis connections, retries with pauses, Fargate lookup, metrics, tracing, logging and the messages to the scheduler.
- Pickle, msgpack bytes, compression and numpy codecs: abstract invertible functions.
- `dumps` as a whole: its local name `compression` hides the module (serialization.py 560), and headers of collections from `serialize` have no branch in `deserialize`.
- Connection pool limits, `pack_frames`, address parsing, path-node accessors, configuration and process management: they would add easy members.
- SplitCounters.HarmlessIsSafe: is about integer counters, which the proxy uses; a task executed twice is assumed to count its out-edges again, which executors and the proxy do. It is not an equivalence for the code: of the orders that executors and the proxy follow it uses only that the invocations of a message come after its counts, and counts a plan as harmful, for instance, if only an edge counted from above the proxied task could overlap. `SplitHarms` has the plans for which the order of counts cannot help.
- RetriedBitmaps.TwiceExactlyWhenForked: any two tasks may be run by different executors; two that are pulled down below one big task are counted one after the other by one executor, and cannot overlap. There is no proxy, which counts with INCR.
- Starvation.StarvesExactlyWhenStarvable: is exact for lawful runs. The law does not fix in which order an executor deals with its nodes, lets it hand on a claim before it has dealt with the other edges of the node that made it, and never forces it to become a task instead; so a plan can count as starvable although the order in the code spares it, for instance r to y, y to d, d to t and r to t with only d big, where the code counts r to t before it becomes y. That a plan is not starvable does hold for the code (`Colocation.OnlyIfCanMiss`). An invocation may leave any cached input out of the data sent along, since what fits depends on the sizes of values, which the plan does not have; whether a late write comes before the claimant reads is left to the run.
- Starvation.MissedOnceClaimed: see the line before; so do Losses.MissingLosesTask and Losses.FailsExactlyWhenStarvable in their halves that build a run.
- Completion.CompletableExactlyWhenIntact: its continuation may deal with the nodes of an executor in any order; the code deals with them first in, first out, so it can be bound to leave a become edge out, or to end with edges in the queue, some steps before it does (`Losses.BecomingLosesTask`, `Losses.FinalTaskLosesQueue`). What is lost for good is lost in the code too (`Completion.LostForGood`).
- FinalResults.QueuedResultIsLost: is about one shape of plans, and there is no equivalence; that nothing is lost without the queue is `FinalResults.ResultsWithoutQueue`.
- Losses.FailsExactlyWhenStarvable: as above. For the other two causes there are shapes of plans and no equivalence.
- How the scheduler splits the graph into paths: its result is the `Plan` of module `Plans`.
