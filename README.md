# AsyncWorkHub in Dafny

A model of the scheduling core of MGS.AsyncWorkHub, with proofs about it.

- **`AsyncWorkHub`** holds a FIFO queue of waiting works and an ordered list of working works. On every cruiser tick it does two things:
  - It moves works from the head of the queue into the working list until the list holds `Concurrency` works. A work that is already done when it is dequeued is finalized straight away and never started.
  - It scans the working list. A work that has finished is either restarted in place, when it failed and the retry resolver grants a retry, or removed and finalized.
- **`AsyncWorkStatusHub`** puts a handler in front of each enqueued work, keyed by the work's key. A poll notifies every live handler once, then retires the handlers whose work is done.
- **`WorkHubFactory`** turns plain settings into a retry resolver, the two cachers and the hubs.

## Modelling choices

- **Works are values.** A `Work` is a value with an identity and a key. What a work reports at a given moment (`IsDone`, `Error`) comes from an `Observer` passed to each tick or poll.
- **Effects are ghost logs.** The hub records them in `started` (`ExecuteAsync`), `aborted` (`AbortAsync`) and `finalized` (`OnWorkIsDone`). The status hub records each handler's `NotifyStatus` in `notified`.
- **The retry resolver.** It is an object whose answer is left open. The model keeps two ghost records of it:
  - `ledger`: the set of works it still holds history for;
  - `answers`: every question it was asked, with the answer it gave.

  `CruiserTick` proves that a tick asks the resolver exactly once about each done, failed work in the working list, in list order (`HubTick.Asked`). It also proves that the tick restarts exactly the works the resolver said yes to (`HubTick.Granted`).
- **Specification functions.** `HubTick.Admit` and `HubTick.Check` describe the two phases of a tick:
  - `AsyncWorkHub.CruiserTick` is proved to leave the queue, the working list and the logs exactly as those functions say.
  - The lemmas in `HubTick` prove what the phases promise: FIFO order, the concurrency bound, that no work is lost or duplicated, that only pending works start. `AsyncWorkHub.RestartOrRetire` proves that a retried work keeps its place in the working list.
- **Retry history.** A tick gives retry history only to works it restarts. A work finalized during the tick keeps no history unless another copy of it is still in the working list.
  - `LedgerClean` says that history is held only for works in the working list.
  - A hub built by the factory starts out clean, every tick keeps it clean, and `Clear(true, _)` makes it clean again.
  - A hub constructed directly around a resolver that already holds history does not start clean, and the source allows that.
- **The status hub's poll.** `NotifyStatus` is proved against `StatusHub.Retire`, the table without the handlers whose work is done. Every handler that was live at the start of the poll is notified exactly once.
- **`HubScenarios`** replays the repository's concurrency, clear and status-hub tests on the model, and shows the constructors' defaults. One example: four long works on a hub of concurrency 3 leave one waiting and three working after a tick.

## Model

| member | source | states |
|---|---|---|
| Resolvers.RetryResolver.constructor | Assets/Runtime/WorkHubFactory.cs:122 | a new resolver has the given retry count and tolerable types, holds no history and has answered nothing |
| Resolvers.RetryResolver.Retrieable | Assets/Runtime/AsyncWorkHub/IRetryResolver.cs:20-25 | the question and its answer are logged; a granted retry leaves the work in the resolver's history; only that work's history can change |
| Resolvers.RetryResolver.Clear | Assets/Runtime/AsyncWorkHub/IRetryResolver.cs:27-31 | the history of exactly that work is dropped |
| Resolvers.RetryResolver.ClearAll | Assets/Runtime/AsyncWorkHub/IRetryResolver.cs:33-36 | the history of every work is dropped |
| HubTick.Admit | Assets/Runtime/AsyncWorkHub/Implement/AsyncWorkHub.cs:105-117 | the admission loop: while the queue is not empty and the list is below the concurrency, dequeue the head; finalize it if done, otherwise start it and append it |
| HubTick.Visit | Assets/Runtime/AsyncWorkHub/Implement/AsyncWorkHub.cs:122-135 | one position of the scan: a running work stays; a done work that failed and is granted a retry stays and is restarted; any other done work is finalized |
| HubTick.Check | Assets/Runtime/AsyncWorkHub/Implement/AsyncWorkHub.cs:120-136 | the scan of the whole working list, position after position, with `granted[i]` the resolver's answer at position i |
| HubTick.Ask | Assets/Runtime/AsyncWorkHub/Implement/AsyncWorkHub.cs:125 | the resolver is asked about a work only when it is done and failed |
| HubTick.Asked | Assets/Runtime/AsyncWorkHub/Implement/AsyncWorkHub.cs:120-136 | the questions a whole scan puts to the resolver with their answers, in list order |
| HubTick.Granted | Assets/Runtime/AsyncWorkHub/Implement/AsyncWorkHub.cs:125-129 | the works a log of answers says yes to, in order |
| HubTick.CheckExtend | Assets/Runtime/AsyncWorkHub/Implement/AsyncWorkHub.cs:120-136 | the scan of one more working position extends the scan of the prefix, and its questions, by that position's outcome |
| HubTick.PendingAppend | Assets/Runtime/AsyncWorkHub/Implement/AsyncWorkHub.cs:105-117 | the works still running in a concatenation are those of each part, in order |
| HubTick.FinishedAppend | Assets/Runtime/AsyncWorkHub/Implement/AsyncWorkHub.cs:105-117 | the finished works of a concatenation are those of each part, in order |
| HubTick.FiltersPartition | Assets/Runtime/AsyncWorkHub/Implement/AsyncWorkHub.cs:108-116 | every dequeued work is either started or finalized, never both and never neither |
| HubTick.PendingSelects | Assets/Runtime/AsyncWorkHub/Implement/AsyncWorkHub.cs:108-116 | only works that are not done are taken into the working list |
| HubTick.FinishedSelects | Assets/Runtime/AsyncWorkHub/Implement/AsyncWorkHub.cs:108-112 | only works that are done are finalized at admission |
| HubTick.FiltersNoneDone | Assets/Runtime/AsyncWorkHub/Implement/AsyncWorkHub.cs:108-116 | when no work is done, all of them are started and none finalized |
| HubTick.AdmitTakesQueueHead | Assets/Runtime/AsyncWorkHub/Implement/AsyncWorkHub.cs:105-107 | admission dequeues a prefix of the queue; the rest stays waiting in its order (FIFO) |
| HubTick.AdmitSortsTaken | Assets/Runtime/AsyncWorkHub/Implement/AsyncWorkHub.cs:105-117 | the dequeued works that are running are appended to the working list in queue order and started; those done are finalized |
| HubTick.AdmitRespectsConcurrency | Assets/Runtime/AsyncWorkHub/Implement/AsyncWorkHub.cs:105 | admission never fills the working list past the concurrency; a full list admits nothing |
| HubTick.AdmitSaturates | Assets/Runtime/AsyncWorkHub/Implement/AsyncWorkHub.cs:105 | after admission the queue is empty or the working list is full |
| HubTick.AdmitConserves | Assets/Runtime/AsyncWorkHub/Implement/AsyncWorkHub.cs:105-117 | admission loses and duplicates no work: waiting, working and finalized works together are the works before |
| HubTick.AdmitOnlyPending | Assets/Runtime/AsyncWorkHub/Implement/AsyncWorkHub.cs:108-116 | the old working list is a prefix of the new one, every admitted work is still running, and every finalized one is done |
| HubTick.CheckPartitions | Assets/Runtime/AsyncWorkHub/Implement/AsyncWorkHub.cs:120-136 | the scan splits the working list into kept and finalized works; retried works stay among the kept |
| HubTick.CheckDecides | Assets/Runtime/AsyncWorkHub/Implement/AsyncWorkHub.cs:123-134 | both directions per position: a running work stays; a done, failed work granted a retry is restarted and stays; any other done work is finalized; conversely what is finalized is done, what is restarted is done and failed, and what stays is running or restarted; without any grant nothing is restarted |
| HubTick.CheckRetriesAnswered | Assets/Runtime/AsyncWorkHub/Implement/AsyncWorkHub.cs:125-129 | the scan restarts exactly the works the resolver's answers say yes to, in order, and asks only about done works that failed |
| HubTick.CheckKeepsPending | Assets/Runtime/AsyncWorkHub/Implement/AsyncWorkHub.cs:120-123 | every running work stays in the working list, in order |
| HubTick.CheckWithoutRetry | Assets/Runtime/AsyncWorkHub/Implement/AsyncWorkHub.cs:123-134 | with no retries the scan keeps exactly the running works and finalizes exactly the done ones, in order |
| HubTick.TickBoundedAndConserving | Assets/Runtime/AsyncWorkHub/Implement/AsyncWorkHub.cs:102-137 | a tick keeps the working list within the concurrency and accounts for every work as waiting, working or finalized |
| WorkHub.AsyncWorkHub.constructor | Assets/Runtime/AsyncWorkHub/Implement/AsyncWorkHub.cs:58-63 | a new hub has the given interval, concurrency and resolver, and no works; left out, they default to 250 ms, 3 and no resolver |
| WorkHub.AsyncWorkHub.Waitings | Assets/Runtime/AsyncWorkHub/Implement/AsyncWorkHub.cs:30 | the number of waiting works, zero exactly when the queue is empty |
| WorkHub.AsyncWorkHub.Workings | Assets/Runtime/AsyncWorkHub/Implement/AsyncWorkHub.cs:35 | the number of working works, zero exactly when the working list is empty |
| WorkHub.AsyncWorkHub.Enqueue | Assets/Runtime/AsyncWorkHub/Implement/AsyncWorkHub.cs:71-75 | the work joins the tail of the queue and is returned |
| WorkHub.AsyncWorkHub.Clear | Assets/Runtime/AsyncWorkHub/Implement/AsyncWorkHub.cs:82-97 | clearing workings aborts each working work in order, empties the list and drops all retry history; clearing waitings empties the queue; the resolver is asked nothing, so `Clear(false, false)` changes nothing |
| WorkHub.AsyncWorkHub.CruiserTick | Assets/Runtime/AsyncWorkHub/Implement/AsyncWorkHub.cs:102-137 | a tick is admission then scan as the specification functions say; the resolver is asked exactly the scan's questions and the restarted works are exactly its yeses; no retry without a resolver; keeps the concurrency bound and the work count; history is gained only by restarted works, a finalized work keeps none unless still working, and a clean ledger stays clean |
| WorkHub.TickLedger | Assets/Runtime/AsyncWorkHub/Implement/AsyncWorkHub.cs:108-134 | retry history over a tick: admission drops the history of works it finalizes, the scan adds it only for restarted works, so a finalized work keeps none unless it is still working |
| WorkHub.TickLogs | Assets/Runtime/AsyncWorkHub/Implement/AsyncWorkHub.cs:102-137 | over admission then scan, the started and finalized logs grow as `Admit` then `Check` say, the resolver is asked exactly the questions `Asked` lists, and the works restarted by the scan are exactly the yeses in that new part of its log |
| WorkHub.TickCounts | Assets/Runtime/AsyncWorkHub/Implement/AsyncWorkHub.cs:102-137 | a working list within the concurrency before a tick is within it after, and the waiting, working and newly finalized works together number the waiting and working works before |
| WorkHub.TickHistory | Assets/Runtime/AsyncWorkHub/Implement/AsyncWorkHub.cs:108-134 | after a tick the ledger holds only the old history and the restarted works; a work finalized in the tick keeps history only while it is still working; a ledger holding history only for working works keeps that property |
| WorkHub.VisitStep | Assets/Runtime/AsyncWorkHub/Implement/AsyncWorkHub.cs:122-135 | one visit in the scan (keep, restart or finalize the work at the current position, and record the resolver's answer) extends the scan state from `Check` and `Asked` over a prefix to the same over one more position |
| WorkHub.VisitFrom | Assets/Runtime/AsyncWorkHub/Implement/AsyncWorkHub.cs:122-135 | the same step for any sweep so far: the list, the index, the logs, the ledger bounds and the resolver's log move on as `Visit` and `Ask` say |
| WorkHub.AsyncWorkHub.AdmitWaitings | Assets/Runtime/AsyncWorkHub/Implement/AsyncWorkHub.cs:104-117 | the admission loop ends as `Admit` says, with the queue empty or the list full, drops the history of each finalized work and asks the resolver nothing |
| WorkHub.AsyncWorkHub.AdmitOne | Assets/Runtime/AsyncWorkHub/Implement/AsyncWorkHub.cs:107-116 | one dequeue keeps the admission invariant and shortens the queue |
| WorkHub.AsyncWorkHub.CheckWorkings | Assets/Runtime/AsyncWorkHub/Implement/AsyncWorkHub.cs:119-136 | the scan loop ends as `Check` says and puts exactly the questions `Asked` lists to the resolver; without a resolver nothing is retried; retry history only grows by retried works |
| WorkHub.AsyncWorkHub.ScanOne | Assets/Runtime/AsyncWorkHub/Implement/AsyncWorkHub.cs:122-135 | one scan step extends the scan and the resolver's log by one position and keeps the index on the next unvisited work |
| WorkHub.AsyncWorkHub.RestartOrRetire | Assets/Runtime/AsyncWorkHub/Implement/AsyncWorkHub.cs:125-134 | a done work is restarted in place only if it failed and the resolver, asked about it once, says yes (then it holds history); otherwise it is removed, its history dropped, and it is finalized |
| WorkHub.AsyncWorkHub.OnWorkIsDone | Assets/Runtime/AsyncWorkHub/Implement/AsyncWorkHub.cs:143-146 | the work is finalized and its retry history dropped |
| WorkHub.AsyncWorkHub.CheckRetrieable | Assets/Runtime/AsyncWorkHub/Implement/AsyncWorkHub.cs:153-160 | no retry and no question without a resolver; otherwise the result is the answer the resolver logs for this work |
| WorkHub.AsyncWorkHub.ClearRetryHistory | Assets/Runtime/AsyncWorkHub/Implement/AsyncWorkHub.cs:166-169 | the work's retry history is dropped (nothing happens without a resolver) |
| WorkHub.AsyncWorkHub.ExecuteAsync | Assets/Runtime/AsyncWorkHub/Implement/AsyncWorkHub.cs:115 | the work is started once more |
| WorkHub.AsyncWorkHub.AbortAsync | Assets/Runtime/AsyncWorkHub/Implement/AsyncWorkHub.cs:88 | the work is aborted once more |
| StatusHub.AsyncWorkHandler.constructor | Assets/Runtime/AsyncWorkStatusHub/Implement/AsyncWorkStatusHub.cs:112 | a new handler wraps the given work |
| StatusHub.Retire | Assets/Runtime/AsyncWorkStatusHub/Implement/AsyncWorkStatusHub.cs:69-84 | what a poll leaves filed: the handlers whose work is not done, under the same keys |
| StatusHub.DoneKeys | Assets/Runtime/AsyncWorkStatusHub/Implement/AsyncWorkStatusHub.cs:70-80 | the keys the notify loop leaves in `temps`: those whose work is done, in key order |
| StatusHub.HandlersAt | Assets/Runtime/AsyncWorkStatusHub/Implement/AsyncWorkStatusHub.cs:70-74 | the handlers the notify loop notifies, in key order |
| StatusHub.DoneKeysExtend | Assets/Runtime/AsyncWorkStatusHub/Implement/AsyncWorkStatusHub.cs:70-80 | one more key in the pass extends the kept keys and the notified handlers by that key's outcome |
| StatusHub.DoneKeysMembers | Assets/Runtime/AsyncWorkStatusHub/Implement/AsyncWorkStatusHub.cs:75-79 | the keys left in `temps` after the pass are exactly those whose work is done |
| StatusHub.DoneKeysRetire | Assets/Runtime/AsyncWorkStatusHub/Implement/AsyncWorkStatusHub.cs:69-84 | removing the done keys leaves exactly the handlers whose work is not done |
| StatusHub.HandlersOnce | Assets/Runtime/AsyncWorkStatusHub/Implement/AsyncWorkStatusHub.cs:69-74 | a pass over distinct keys notifies distinct handlers, exactly the live ones filed under those keys |
| StatusHub.RetiredGone | Assets/Runtime/AsyncWorkStatusHub/Implement/AsyncWorkStatusHub.cs:81-84 | a handler whose work is done is no longer filed after the poll |
| StatusHub.PollOutcome | Assets/Runtime/AsyncWorkStatusHub/Implement/AsyncWorkStatusHub.cs:62-86 | a poll over all keys retires exactly the done handlers, keeps handlers filed under their work's key, and notifies each live handler once |
| StatusHub.AsyncWorkStatusHub.constructor | Assets/Runtime/AsyncWorkStatusHub/Implement/AsyncWorkStatusHub.cs:43-46 | a new status hub has the given cachers and a fresh inner hub with the given settings, and no handlers; left out, they default to no cachers, 250 ms, 3 and no resolver |
| StatusHub.AsyncWorkStatusHub.GetHandler | Assets/Runtime/AsyncWorkStatusHub/Implement/AsyncWorkStatusHub.cs:105-115 | the handler already filed under the work's key is returned unchanged; otherwise a new handler for the work is filed and returned |
| StatusHub.AsyncWorkStatusHub.Enqueue | Assets/Runtime/AsyncWorkStatusHub/Implement/AsyncWorkStatusHub.cs:53-57 | the handler returned is the one filed under the key of the work the cache layer hands back |
| StatusHub.AsyncWorkStatusHub.NotifyHandler | Assets/Runtime/AsyncWorkStatusHub/Implement/AsyncWorkStatusHub.cs:74 | the handler is notified once more |
| StatusHub.AsyncWorkStatusHub.NotifyStatus | Assets/Runtime/AsyncWorkStatusHub/Implement/AsyncWorkStatusHub.cs:62-86 | a poll notifies every live handler exactly once, retires exactly the handlers whose work is done, and leaves `temps` empty |
| StatusHub.AsyncWorkStatusHub.NotifyAndRetire | Assets/Runtime/AsyncWorkStatusHub/Implement/AsyncWorkStatusHub.cs:69-85 | the non-empty path: every key is visited once and the done keys are removed |
| StatusHub.AsyncWorkStatusHub.NotifyPass | Assets/Runtime/AsyncWorkStatusHub/Implement/AsyncWorkStatusHub.cs:70-80 | the loop notifies the handlers in key order and leaves in `temps` exactly the keys whose work is done |
| StatusHub.AsyncWorkStatusHub.RemoveTemps | Assets/Runtime/AsyncWorkStatusHub/Implement/AsyncWorkStatusHub.cs:81-84 | the handlers under the keys in `temps` are removed and no others |
| StatusHub.AsyncWorkStatusHub.NotifyOne | Assets/Runtime/AsyncWorkStatusHub/Implement/AsyncWorkStatusHub.cs:72-79 | one step notifies the next handler and drops its key from `temps` iff its work is still running |
| StatusHub.AsyncWorkStatusHub.KeysOf | Assets/Runtime/AsyncWorkStatusHub/Implement/AsyncWorkStatusHub.cs:69 | the keys of the table, each once |
| StatusHub.AsyncWorkStatusHub.Clear | Assets/Runtime/AsyncWorkStatusHub/Implement/AsyncWorkStatusHub.cs:93-97 | the inner hub is cleared as requested, the resolver is asked nothing, and every handler is dropped |
| WorkHubFactory.CreateResolver | Assets/Runtime/WorkHubFactory.cs:110-123 | no resolver iff the retry count is not positive; no tolerables given means web and timeout exceptions |
| WorkHubFactory.CreateCacher | Assets/Runtime/WorkHubFactory.cs:130-139 | no cacher iff the capacity is not positive; otherwise a plain cacher of that capacity |
| WorkHubFactory.CreateTimeoutCacher | Assets/Runtime/WorkHubFactory.cs:147-156 | no cacher iff the capacity is not positive; otherwise a timeout cacher with that capacity and timeout |
| WorkHubFactory.CreateCacheHub | Assets/Runtime/WorkHubFactory.cs:50-58 | results get the timeout cacher and works the plain one, both disabled by a non-positive capacity; the resolver is the one `CreateResolver` gives, none iff the retry count is not positive |
| WorkHubFactory.NewResolver | Assets/Runtime/WorkHubFactory.cs:110-123 | a resolver object exists iff settings do, carrying them, with no history and no answers |
| WorkHubFactory.CreateHub | Assets/Runtime/WorkHubFactory.cs:33-38 | an empty hub with the given interval and concurrency and the resolver `CreateResolver` derives; its ledger starts clean |
| WorkHubFactory.CreateStatusHub | Assets/Runtime/WorkHubFactory.cs:70-80 | a status hub with no handlers and an empty inner hub with a clean ledger, wired with the same cachers and resolver as `CreateCacheHub` |
| HubScenarios.TickOverRunningWorks | Assets/Tests/WorkTests/AsyncWorkHubTest.cs:46-60 | on an empty hub where nothing finishes, a tick moves a queue prefix of at most `Concurrency` works into the working list and keeps them all |
| HubScenarios.ConcurrencyTest | Assets/Tests/WorkTests/AsyncWorkHubTest.cs:46-60 | four long works on a hub of concurrency 3: one waits and three work after a tick |
| HubScenarios.DefaultSettings | Assets/Runtime/AsyncWorkHub/Implement/AsyncWorkHub.cs:58 | hubs built with no arguments run 3 works at a time every 250 ms, with no resolver and no cachers |
| HubScenarios.ClearTest | Assets/Tests/WorkTests/AsyncWorkHubTest.cs:62-77 | after `Clear(true, true)` nothing waits and nothing works |
| HubScenarios.HandlerLifecycle | Assets/Tests/WorkTests/AsyncWorkStatusHubTest.cs:47-88 | a handler stays filed while its work runs and is gone after the first poll that sees it done |

## Left out

- **The cruiser thread (`AsyncCruiser`).** Its timer, start/stop and sleep intervals are left out: the model runs one `CruiserTick` per call, and `interval` is only stored.
- **Concurrency between threads.** The cruiser thread and callers enqueueing from other threads are left out. Everything within one tick or poll reads the work statuses as one snapshot (`Observer`).
  - As a result, the model cannot capture a work that finishes between its handler's `NotifyStatus` and the `IsDone` check that follows.
- **`AsyncWorkCacheHub`.** Its caching `Enqueue` and `Clear` are not part of this model. `AsyncWorkStatusHub.CacheEnqueue` stands for its `Enqueue`: it may hand back any work and change the queue arbitrarily. The status hub's guarantees hold whatever it does.
- **`CreateMonoHub` and `AsyncWorkMonoHub`.** These are the Unity-frame variant. They are not part of this model.
- **Cacher internals.** Eviction, capacity accounting and timeouts are not modelled. A cacher is only its settings.
- **The retry policy.** How `RetryResolver.Retrieable` counts retries and matches exception types against its tolerables (type matching at run time) is not modelled. The model keeps only that a granted retry leaves history behind and that `Clear` removes it.
- **Handler internals.** Progress, speed and result values are not modelled, and neither are the callbacks a handler fires in its own `NotifyStatus`. The model records only that the handler was notified.
- **`EnqueueWorkTest`.** The repository's test that waits for one work to finish and checks its result is not replayed. A work's result and error values are not modelled.
- **The generic cast in `GetHandler`.** The model returns the filed handler itself. It does not model the cast to `IAsyncWorkHandler<T>`, which yields null when the type arguments differ.
- **The `Concurrency` and `Resolver` setters.** The source exposes them as settable properties. The model keeps them as assignable fields (`concurrency`, `resolver`) but has no setter method. Every contract reads their values at the time of the call, and no hub method assigns them.
- **Integer width.** Counts and settings are unbounded integers. The source's 32-bit `int` cannot overflow for collections of realistic size.
- **Interface mismatch.** The hub interface `IAsyncWorkHub` declares members that differ from the implementation. Where they disagree, the model follows `AsyncWorkHub`.
- **A handler's `NotifyStatus` throwing.** `AsyncWorkStatusHub.NotifyStatus` requires `temps` to be empty, and every poll leaves it empty.
  - In the source, an exception from a handler (AsyncWorkStatusHub.cs:74) skips `temps.Clear()` at line 85. The next poll then appends every key again, and some handlers are notified twice.
  - The model has no exceptions, so it does not capture that path.
- **A work with a null `Key`.** The source throws on it when the table is looked up (AsyncWorkStatusHub.cs:107). Keys here are strings and never null, so that path is not modelled.
- **Redundant history clears.** The source clears a finished work's retry history twice: once directly and once inside `OnWorkIsDone`. The model does the same; the second clear changes nothing.
