# tomominer task queue, runners and helpers in Dafny

This project models the coordination core of tomominer, a package for
aligning, averaging and classifying subtomograms. Work is split into
`Task` records. Clients (`Runner`) submit them to a central
`QueueServer`, workers (`QueueWorker`) fetch and run them, and results
come back per project. The model covers:

- the queue server's scheduling state machine: the todo priority queue
  ordered by `(start_time, task_id)`, the tracked-task map, the
  `max_time_queue` of last-try deadlines, one FIFO done queue per
  project, and the `max_time_monitor` sweep;
- the `Task` record: construction with its `max_time` check and
  defaults, `fail` and `succ`;
- the client `Runner`: project lifetime, `make_task`, and the retry
  budget bookkeeping of `run_batch` and `run_single`;
- the worker: `run`'s decision, the dotted method-name resolution of
  `_dispatch`, and how the wait for the child process ends;
- the RPC server: `_dispatch`'s name checks, the OK/ERR reply envelope
  of `RPCHandler.handle`, and the active-connection counter;
- `LRUCache` and the `lru_memoize` wrapper;
- `arma::ind2sub`, column-major linear index to subscripts;
- `config_options` defaults, `parse_config` (after the JSON is loaded)
  and `parse_data`;
- the chunking and result placement of the align and average runners,
  and the fallback and best-template selection of the align worker.

Each queue server operation is modelled as one atomic state transition.
The monitor sweep and every RPC operation but `get_task` run wholly under
the server's lock. `get_task` first takes an entry from `todo_queue`, a
thread-safe queue, outside the lock
(tomominer/parallel/queue_server.py:280), and only then takes the lock
(line 282); the model joins the two steps. `QueueSpec` defines each transition as a pure
function over a `State` value. `QueueServer.Server` is a class with the
four structures as fields. Each of its methods is proved to leave
exactly the state that the matching `QueueSpec` function gives, and the
lemmas in `QueueSpec` prove the promised properties about those
functions. `LRUCache`, `config_options`, the runners and the worker
follow the same pattern: a class or a method with loops where the source
updates state in place, specified by a function whose properties are
proved as lemmas.

Time is an integer `now` argument. Task and project identifiers
(uuid4 strings) are natural numbers minted by `Tasks.IdSource`, which
never hands out the same one twice. Anything decided outside the
modelled code is a parameter:
- what a worker's child process delivers;
- what the alignment search returns;
- the order in which `run_batch` yields results;
- what a called method computes.

## Model

| member | source | states |
|---|---|---|
| Tasks.NewTask | tomominer/parallel/task.py:15-78 | raises exactly when `max_time` is neither a bool nor an `int` from 0 to `sys.maxint` (a `long` fails `isinstance(max_time, int)`); otherwise mints a never-issued id, stores project, method, args and kwargs unchanged, and starts with tries 0, error False, result None |
| Tasks.Task.Fail | tomominer/parallel/task.py:80-86 | sets error and stores the message as the result; every other field is unchanged |
| Tasks.Task.Succ | tomominer/parallel/task.py:88-94 | clears error and stores the value as the result; every other field is unchanged |
| Tasks.SuccAfterFail | tomominer/parallel/task.py:80-94 | a failure followed by a success is the same as the success alone, and neither changes the id or the try count |
| Tasks.Seconds | tomominer/parallel/task.py:27-28 | the seconds a valid `max_time` stands for: the int itself, 1 for True, 0 for False |
| Tasks.IdSource.constructor | tomominer/parallel/task.py:33 | no id issued yet |
| Tasks.IdSource.Mint | tomominer/parallel/task.py:33 | returns an id never returned before and records it as issued |
| QueueSpec.Push | tomominer/parallel/queue_server.py:111 | `PriorityQueue.put`: the queue gains exactly the new entry and stays ordered by `(time, id)` |
| QueueSpec.HeadIsLeast | tomominer/parallel/queue_server.py:111 | the head of an ordered queue is no later than any entry, so popping yields the least `(time, id)` |
| QueueSpec.PushHeadBack | tomominer/parallel/queue_server.py:298-303 | popping the head and putting it back gives the same queue |
| QueueSpec.InitialInv | tomominer/parallel/queue_server.py:104-135 | the empty server satisfies the invariant: both queues ordered, each tracked task filed under its own id with a valid `max_time`, each done queue holding only its project's tasks |
| QueueSpec.GetTaskStep | tomominer/parallel/queue_server.py:284-303 | one turn of `get_task`'s loop: a stale head is dropped and the search goes on; a live head not yet due is put back with delay `start - now + 1`; a live due head is dispatched |
| QueueSpec.GetTaskClosedForm | tomominer/parallel/queue_server.py:267-339 | `get_task` discards exactly the stale entries before the first live one; then it blocks with an empty queue if there is none, waits if that entry is not yet due, and dispatches it otherwise |
| QueueSpec.GetTaskRetry | tomominer/parallel/queue_server.py:298-303 | a not-yet-due task gets a delay greater than 1, tries unchanged; only stale entries leave the queue and nothing else changes |
| QueueSpec.GetTaskDispatched | tomominer/parallel/queue_server.py:293-335 | a sent task is the first live entry and is due; the entries up to it leave the queue and the task goes out with one more try |
| QueueSpec.GetTaskBlocked | tomominer/parallel/queue_server.py:284-296 | nothing is sent only when no entry is live, and then the queue ends empty |
| QueueSpec.DispatchEffect | tomominer/parallel/queue_server.py:319-332 | on dispatch tries rises by exactly one and the task stays tracked; with tries left a todo entry at `now + max_time` is added, otherwise that deadline goes on the max-time queue; the other queue and the done queues are unchanged |
| QueueSpec.AdmitInv | tomominer/parallel/queue_server.py:209-226 | admitting a task with a valid `max_time` preserves the invariant |
| QueueSpec.PutTasksInv | tomominer/parallel/queue_server.py:193-206 | `put_tasks` preserves the invariant, whether it completes or raises part way |
| QueueSpec.DispatchInv | tomominer/parallel/queue_server.py:319-332 | dispatch preserves the invariant |
| QueueSpec.GetTaskInv | tomominer/parallel/queue_server.py:267-339 | `get_task` preserves the invariant |
| QueueSpec.PutResultInv | tomominer/parallel/queue_server.py:341-404 | `put_result` preserves the invariant |
| QueueSpec.SweepInv | tomominer/parallel/queue_server.py:28-66 | the monitor sweep preserves the invariant |
| QueueSpec.PutTasksStopsAtInvalid | tomominer/parallel/queue_server.py:193-206 | `put_tasks` raises at the first task with an invalid `max_time`, and the tasks before it stay inserted |
| QueueSpec.PutTasksAllValid | tomominer/parallel/queue_server.py:193-206 | with every `max_time` valid, `put_tasks` completes; the tracked ids become the old ones plus the submitted ones, each submitted id maps to the last task submitted with it, every other tracked task is unchanged, and the todo queue gains exactly one entry `(now, id)` per task; done queues and the max-time queue are unchanged |
| QueueSpec.PutTasksKeepsTracked | tomominer/parallel/queue_server.py:193-206 | submitting never untracks a task |
| QueueSpec.GetStateIsLiveness | tomominer/parallel/queue_server.py:245-264 | `get_state` is true exactly when `get_task` would not skip the task's entries as stale |
| QueueSpec.CancelMakesStale | tomominer/parallel/queue_server.py:229-242 | `cancel_task` returns whether the id was tracked; afterwards the task's entries are stale and results for it are ignored |
| QueueSpec.PutResultCompletes | tomominer/parallel/queue_server.py:386-404 | a success, or an error with no tries left, appends the task with that error and result to its own project's done queue and untracks it; other projects and both queues are unchanged, and a later report for the id changes nothing |
| QueueSpec.PutResultRetries | tomominer/parallel/queue_server.py:378-385 | an error with tries left only adds a todo entry `(now, id)` and keeps the task tracked |
| QueueSpec.PutResultIgnored | tomominer/parallel/queue_server.py:366-376 | a result for an unknown task or a deleted project changes nothing |
| QueueSpec.GetResultsDrains | tomominer/parallel/queue_server.py:407-426 | returns the project's done queue in FIFO order, all its own tasks, and leaves it empty; an unknown project gets [] and the state is unchanged |
| QueueSpec.DelProjectEffect | tomominer/parallel/queue_server.py:157-172 | returns True exactly when the project existed; afterwards its results are gone, reports for its tasks are ignored and `get_state` is false |
| QueueSpec.NewProjectEmpty | tomominer/parallel/queue_server.py:141-154 | a new project has an empty done queue that `del_project` then finds; the invariant holds |
| QueueSpec.SweepQueue | tomominer/parallel/queue_server.py:37-64 | the sweep consumes exactly the passed deadlines at the head of the max-time queue, and every deadline left is in the future |
| QueueSpec.SweepEffect | tomominer/parallel/queue_server.py:47-61 | the sweep only appends copies failed with "Task exceeded max_time" to existing done queues and untracks those tasks; the todo queue and every task still tracked are unchanged |
| QueueSpec.SweepFailsDue | tomominer/parallel/queue_server.py:37-64 | over the passed deadlines at the head of the max-time queue, every task still tracked whose project is present is failed with "Task exceeded max_time", appended to its project's done queue in deadline order and untracked; no other task is untracked and no done queue is added or removed |
| QueueServer.Server.constructor | tomominer/parallel/queue_server.py:104-135 | all four structures empty |
| QueueServer.Server.NewProject | tomominer/parallel/queue_server.py:141-154 | leaves the state `QueueSpec.NewProject` gives |
| QueueServer.Server.DelProject | tomominer/parallel/queue_server.py:157-172 | leaves the state and answer `QueueSpec.DelProject` gives |
| QueueServer.Server.PutTasks | tomominer/parallel/queue_server.py:193-206 | its loop leaves the state and outcome `QueueSpec.PutTasks` gives |
| QueueServer.Server.PutTask | tomominer/parallel/queue_server.py:209-226 | leaves the state and outcome `QueueSpec.PutTask` gives |
| QueueServer.Server.CancelTask | tomominer/parallel/queue_server.py:229-242 | leaves the state and answer `QueueSpec.CancelTask` gives |
| QueueServer.Server.GetState | tomominer/parallel/queue_server.py:245-264 | true exactly when the project has a done queue and the task is tracked |
| QueueServer.Server.Dispatch | tomominer/parallel/queue_server.py:319-335 | leaves the state `QueueSpec.Dispatch` gives |
| QueueServer.Server.GetTask | tomominer/parallel/queue_server.py:267-339 | its pop loop leaves the state and reply `QueueSpec.GetTask` gives |
| QueueServer.Server.PutResult | tomominer/parallel/queue_server.py:341-404 | leaves the state `QueueSpec.PutResult` gives |
| QueueServer.Server.GetResults | tomominer/parallel/queue_server.py:407-426 | its drain loop returns the tasks and leaves the state `QueueSpec.GetResults` gives |
| QueueServer.Server.SweepMaxTime | tomominer/parallel/queue_server.py:28-66 | its pop loop leaves the state `QueueSpec.Sweep` gives |
| Runner.Runner.constructor | tomominer/parallel/runner.py:15-28 | mints a fresh project id and opens that project on the server |
| Runner.Runner.MakeTask | tomominer/parallel/runner.py:38-40 | a task bound to the runner's project, raising exactly when `max_time` is invalid |
| Runner.Runner.Close | tomominer/parallel/runner.py:30-36 | deletes the runner's own project |
| Runner.ProcessYieldsOnce | tomominer/parallel/runner.py:105-135 | a pass yields only awaited ids, each at most once; it never adds an id to the budget map; when it does not raise, every yielded id has left the map; it resubmits exactly the errored results it yields, in order |
| Runner.ProcessYieldsAwaited | tomominer/parallel/runner.py:110-135 | every yielded result was in the results list, was awaited, and is no longer awaited afterwards |
| Runner.ProcessKeepsOthers | tomominer/parallel/runner.py:110-135 | an awaited id that is not yielded keeps its budget |
| Runner.ProcessResubmitsErrors | tomominer/parallel/runner.py:119-131 | the resubmitted ids are the ids of the errored results yielded, in order |
| Runner.ProcessYieldsResubmittedError | tomominer/parallel/runner.py:119-135 | as written, an error with budget left is both resubmitted and yielded, and the retry's own result is then skipped |
| Runner.ProcessIntendedYieldsSuccesses | tomominer/parallel/runner.py:119-135 | under the intended pass only successes of awaited tasks are yielded, each once, and each then leaves the map; budgets only go down; only awaited ids are resubmitted |
| Runner.WithMaxTime | tomominer/parallel/runner.py:98-99 | every task's `max_time` is replaced by `run_batch`'s argument; nothing else changes |
| Runner.InitTables | tomominer/parallel/runner.py:98-102 | `task_dict` and `state` both have exactly the tasks' ids as keys; each budget is `max_retry`, and each task in `task_dict` is filed under its own id with the overwritten `max_time` |
| Runner.BatchRun.constructor | tomominer/parallel/runner.py:92-103 | submits every task, with its `max_time` overwritten, in one `put_tasks` call; every id gets a budget of `max_retry` |
| Runner.BatchRun.Poll | tomominer/parallel/runner.py:105-138 | drains the project's done queue, then runs the pass over what it got |
| Runner.BatchRun.Pass | tomominer/parallel/runner.py:110-135 | yields, resubmits and updates the budgets as `Process` says; the resubmissions are `put_task` calls in order |
| Runner.ScanFirstDecisive | tomominer/parallel/runner.py:66-75 | a `run_single` scan ends on the first result with the task's id that is a success, or an error with no tries left; it keeps polling exactly when there is none |
| Runner.ScanSwallowsError | tomominer/parallel/runner.py:48-76 | as written, with `max_retry` of at least 3, an error result for the task is ignored and the call keeps polling |
| Runner.ScanIntendedNoSwallow | tomominer/parallel/runner.py:66-75 | under the intended scan, the call keeps polling only when no result has the task's id, and resubmits only with tries left |
| Runner.SingleRun.constructor | tomominer/parallel/runner.py:48-53 | with `max_retry` below 1 raises without submitting; otherwise submits the task once with `put_task`, and tries becomes 2 |
| Runner.SingleRun.Poll | tomominer/parallel/runner.py:55-76 | one inner-loop turn drains the done queue and scans it; the task is never submitted again |
| Py.JoinSplit | tomominer/parallel/queue_worker.py:62 | splitting a method name on '.' loses nothing: joining the pieces gives the name back |
| QueueWorker.ResolveConcat | tomominer/parallel/queue_worker.py:62-72 | resolving a dotted path resolves its first part, then the rest from where that led |
| QueueWorker.ResolvePlainName | tomominer/parallel/queue_worker.py:62-72 | a name without dots is one attribute lookup on the instance |
| QueueWorker.WaitFirstDecisive | tomominer/parallel/queue_worker.py:94-128 | the wait goes on exactly while every poll is empty, the child is alive, the server still tracks the task and `max_time` has not passed; otherwise the first poll that says so decides |
| QueueWorker.DecideEffect | tomominer/parallel/queue_worker.py:94-128 | a returned value becomes the result with error unchanged; every other ending fails the task; a dead child means "Worker process crashed"; in the empty-poll checks, the crash check comes first, then the untracked kill, then the `max_time` kill; only error and result change |
| QueueWorker.Wait | tomominer/parallel/queue_worker.py:94-124 | the polling loop ends as `WaitOutcome` says |
| QueueWorker.DispatchOutcome | tomominer/parallel/queue_worker.py:49-130 | the first missing segment fails the task with "method not found", and a target that is not callable fails it with "method not callable"; neither runs anything, and only error and result change |
| QueueWorker.WaitPreservesIdentity | tomominer/parallel/queue_worker.py:94-128 | the wait changes only the error flag and the result |
| QueueWorker.Dispatch | tomominer/parallel/queue_worker.py:49-130 | `_dispatch`'s resolution loop and wait end as `DispatchOutcome` says |
| QueueWorker.UnderscoreMethodRuns | tomominer/parallel/queue_worker.py:59-60 | as written, a '_' method the instance has is still run, and its value is reported with error still True |
| QueueWorker.DispatchIntendedRejectsPrivate | tomominer/parallel/queue_worker.py:59-60 | under the intended rule a '_' method is failed and nothing is looked up or run; other names behave as before |
| QueueWorker.Worker.constructor | tomominer/parallel/queue_worker.py:22-32 | keeps the server and the registered instance |
| QueueWorker.Worker.RunStep | tomominer/parallel/queue_worker.py:34-46 | one turn of `run`: a delay is slept, capped at 30 seconds, and nothing is reported; a finished task's id, error and result go back through `put_result` |
| QueueWorker.SleepBounds | tomominer/parallel/queue_worker.py:42-43 | on the model's whole-second clock a worker sleeps at least 2 and at most 30 seconds |
| RPCServer.Unpack | tomominer/parallel/rpc_server.py:103-106 | `method, args, kwargs = data` succeeds only on a value of length 3; a 3-element list unpacks into its items |
| RPCServer.Dispatch | tomominer/parallel/rpc_server.py:93-129 | a request that does not unpack gets an ERR reply; 'shutdown' is caught before any other check and, as written, gets the NameError |
| RPCServer.DispatchOk | tomominer/parallel/rpc_server.py:93-129 | OK exactly when the request unpacks into a name that is not 'shutdown' and not private, which names a callable attribute of the instance, and the call returns; the reply carries the call's value |
| RPCServer.PrivateRefused | tomominer/parallel/rpc_server.py:116-117 | a name starting with '_' is refused, whatever the instance holds |
| RPCServer.ShutdownRaises | tomominer/parallel/rpc_server.py:107-110 | as written, 'shutdown' gets an ERR reply with the NameError and stops nothing |
| RPCServer.ShutdownExits | tomominer/parallel/rpc_server.py:107-110 | under the intended rule, exactly a well-formed 'shutdown' request exits, and every other request is answered as before |
| RPCServer.ServeOnePerRequest | tomominer/parallel/rpc_server.py:30-42 | one reply per request, in order, up to the end of the stream or the first frame that does not unpickle; the connection is abandoned exactly when such a frame exists |
| RPCServer.Server.constructor | tomominer/parallel/rpc_server.py:60-67 | with no instance the server serves itself; no active connections |
| RPCServer.Server.RegisterInstance | tomominer/parallel/rpc_server.py:77-84 | replaces the instance |
| RPCServer.Server.IncrementActiveConnections | tomominer/parallel/rpc_server.py:69-71 | the count goes up by one |
| RPCServer.Server.DecrementActiveConnections | tomominer/parallel/rpc_server.py:73-75 | the count goes down by one |
| RPCServer.Server.Handle | tomominer/parallel/rpc_server.py:21-44 | answers the stream as `Serve` says; the count is back where it was unless an unpickling error escaped the loop |
| Cache.LookupRemove | tomominer/common/cache.py:51 | after `pop(k)` the key is absent and every other key maps to what it did |
| Cache.LookupAppend | tomominer/common/cache.py:53 | reinserting a new key at the end adds exactly that mapping |
| Cache.RemoveKeepsDistinct | tomominer/common/cache.py:62-64 | popping keeps keys distinct and removes the key |
| Cache.SizesAppend | tomominer/common/cache.py:67-68 | the size total grows by exactly the new value's size |
| Cache.SizesRemove | tomominer/common/cache.py:62-64 | popping an existing key lowers the total by its value's size; popping a missing key changes nothing |
| Cache.EvictedSpec | tomominer/common/cache.py:71-74 | eviction drops the fewest least-recently-used entries that bring the cache strictly under both limits; it fails exactly when a limit is 0 or less |
| Cache.PutSpec | tomominer/common/cache.py:56-74 | after `__setitem__` the count is below `max_count` and the size below `max_size`; the survivors are the most recently used entries in their old order, and each has its updated value; it raises only when a limit is 0 or less |
| Cache.PutDropsOversized | tomominer/common/cache.py:67-74 | a value whose own size reaches `max_size` is evicted by its own insertion, and the cache ends empty |
| Cache.TouchKeepsContents | tomominer/common/cache.py:45-54 | a read changes only the order: same mapping, the key read is now most recent, same size total |
| Cache.LRUCache.constructor | tomominer/common/cache.py:17-43 | an empty cache; an unset limit is unbounded |
| Cache.LRUCache.Get | tomominer/common/cache.py:45-54 | a missing key raises and changes nothing; otherwise it returns the stored value and moves the key to the most recent end, size unchanged |
| Cache.LRUCache.Set | tomominer/common/cache.py:56-74 | leaves the dictionary `Put` gives, with the size total kept equal to the sum of sizes |
| Cache.LRUCache.EvictAll | tomominer/common/cache.py:71-74 | its loop drops exactly the entries `Evicted` counts, from the least-recently-used end |
| Cache.LRUCache.Contains | tomominer/common/cache.py:76-77 | membership, without reordering |
| Cache.KeyOf | tomominer/common/cache.py:97 | the positional arguments, followed by one `(name, value)` pair per keyword argument, in order |
| Cache.KeywordPositionalCollide | tomominer/common/cache.py:97 | a positional `(name, value)` tuple and the keyword argument `name=value` give the same key |
| Cache.Memo.constructor | tomominer/common/cache.py:109-111 | counters start at 0 over an empty cache |
| Cache.Memo.Call | tomominer/common/cache.py:96-108 | a hit counts a hit, returns the cached value and refreshes it; a miss calls the function once, counts a miss and stores the result; any value returned is the function's own for that key, and the cache holds only such values |
| ArmaExtend.Word | tomominer/core/src/arma_extend.cpp:19 | the value stored into an unsigned 64-bit element: unchanged when already in range |
| ArmaExtend.TDivSpec | tomominer/core/src/arma_extend.cpp:18 | `ldiv`: the quotient truncates toward zero and the remainder has the dividend's sign; for a non-negative dividend they are Euclidean |
| ArmaExtend.StridePositive | tomominer/core/src/arma_extend.cpp:12-14 | with every extent but the last nonzero, every stride is positive, so `ldiv` never divides by zero |
| ArmaExtend.DigitsReconstruct | tomominer/core/src/arma_extend.cpp:16-21 | the subscripts, weighted by their strides, add up to the index |
| ArmaExtend.DigitsBounded | tomominer/core/src/arma_extend.cpp:16-21 | every subscript below the highest is under its extent in absolute value; for a non-negative index all are non-negative and under their extents |
| ArmaExtend.Ind2SubCorrect | tomominer/core/src/arma_extend.cpp:5-24 | for idx ≥ 0, idx = Σ sub(j)·shape(0)·…·shape(j-1); each sub(j) < shape(j) for j < d-1; the last subscript is under its extent exactly when idx is below the product of all extents |
| ArmaExtend.StrideTable | tomominer/core/src/arma_extend.cpp:12-14 | m(d-1) = 1, and m(d-k-1) = shape(0)·…·shape(k-1) |
| ArmaExtend.Ind2Sub | tomominer/core/src/arma_extend.cpp:5-24 | the returned subscripts are the truncated quotients that `Subs` specifies, stored as 64-bit words |
| ClassifyConfig.Get | tomominer/classify/classify_config.py:90-137 | `d[key] if key in d`: on a dict, the entry when the key is present and nothing otherwise |
| ClassifyConfig.IntOf | tomominer/classify/classify_config.py:90-91 | `int()` keeps an int as it is and truncates a float toward zero: the result is within one of the float, on the same side of zero and no further from zero |
| ClassifyConfig.FloatOf | tomominer/classify/classify_config.py:132 | `float()` keeps a float and converts an int exactly |
| ClassifyConfig.Encode | tomominer/classify/classify_config.py:135 | `str()` of a unicode string succeeds exactly when every character is ASCII, and then gives the text unchanged |
| ClassifyConfig.Str | tomominer/classify/classify_config.py:135 | `str()` of a string is its ASCII encoding, and `str()` of any other value succeeds |
| ClassifyConfig.StrIntRoundTrip | tomominer/classify/classify_config.py:90-91 | the text `str()` gives for an int reads back with `int()` as the same int and with `float()` as the same number |
| ClassifyConfig.FloatOfDecimal | tomominer/classify/classify_config.py:132 | `float("a.b")` for digit strings a and b, not both empty, is a plus b divided by ten to the length of b |
| ClassifyConfig.DigitsInValue | tomominer/classify/classify_config.py:90-91 | the digit reader accepts a prefix exactly when it is all decimal digits, and then gives its decimal value |
| ClassifyConfig.NegativeFloatRead | tomominer/classify/classify_config.py:132 | `float()` of a minus sign followed by text that does not end in whitespace is the negation of what the text reads as after a sign, and fails exactly when that fails |
| ClassifyConfig.TemplatesStopAtNonAscii | tomominer/classify/classify_config.py:133-135 | a given_templates entry whose first path is not ASCII is not appended, and the loop stops with `str()`'s exception |
| ClassifyConfig.TemplatesOfPairs | tomominer/classify/classify_config.py:133-135 | a list of entries of at least two elements, each accepted by `str()`, appends one pair per entry, in order, holding `str()` of the first two elements, without raising |
| ClassifyConfig.ConfigureEmpty | tomominer/classify/classify_config.py:90-137 | a document with none of the recognised keys changes nothing |
| ClassifyConfig.ConfigureTopLevelInts | tomominer/classify/classify_config.py:90-91 | 'iterations', 'log_level' and 'L' change only when present; an `int()` failure on 'iterations' raises before anything changes |
| ClassifyConfig.ClusterKeepsTopLevel | tomominer/classify/classify_config.py:93-127 | the cluster section never touches iterations, log_level or L |
| ClassifyConfig.DimensionReductionKeepsTopLevel | tomominer/classify/classify_config.py:100-109 | the dimension_reduction section never touches the top-level fields |
| ClassifyConfig.ClusterMethodKeepsTopLevel | tomominer/classify/classify_config.py:111-127 | the method choice never touches the top-level fields |
| ClassifyConfig.TemplateKeepsTopLevel | tomominer/classify/classify_config.py:129-135 | the template section never touches the top-level fields |
| ClassifyConfig.ClusterMethodChoice | tomominer/classify/classify_config.py:93-127 | a cluster section sets do_clustering; 'kmeans' wins over 'hierarchical'; a section with neither raises and leaves the method unchanged |
| ClassifyConfig.ClusterKmeansUnindexable | tomominer/classify/classify_config.py:111-114 | a cluster string or list containing 'kmeans' records the method 'kmeans' and then raises, because it cannot be indexed by a string |
| ClassifyConfig.ClusterFieldsCopied | tomominer/classify/classify_config.py:93-119 | for a cluster dict whose subsections are dicts, min_size, the four dimension_reduction settings and kmeans' k and iterations each take the document's value when present and keep their value otherwise |
| ClassifyConfig.DimensionReductionCopies | tomominer/classify/classify_config.py:100-109 | the dimension_reduction subsection changes exactly its four settings, each to the document's value when present |
| ClassifyConfig.KmeansCopies | tomominer/classify/classify_config.py:111-119 | the method choice copies kmeans' k and iterations when present and leaves min_size and the dimension_reduction settings alone |
| ClassifyConfig.DimensionReductionKeeps | tomominer/classify/classify_config.py:100-109 | the dimension_reduction subsection does not raise and does not touch do_clustering or the method |
| ClassifyConfig.TemplateAppends | tomominer/classify/classify_config.py:129-135 | given_templates entries are appended, as `str()` pairs, after the ones already held, and the section raises exactly when an entry cannot be read or converted |
| ClassifyConfig.ConfigOptions.constructor | tomominer/classify/classify_config.py:16-75 | every field at its default: iterations 10, do_clustering False, no method, L 36, no given templates, and the rest |
| ClassifyConfig.ConfigOptions.ParseConfig | tomominer/classify/classify_config.py:90-137 | the fields and the outcome are those of `Configure` |
| ClassifyConfig.ConfigOptions.ParseTopLevelInts | tomominer/classify/classify_config.py:90-91 | the fields and the outcome are those of `TopLevelInts` |
| ClassifyConfig.ConfigOptions.ParseCluster | tomominer/classify/classify_config.py:93-127 | the fields and the outcome are those of `Cluster` |
| ClassifyConfig.ConfigOptions.ParseDimensionReduction | tomominer/classify/classify_config.py:100-109 | the fields and the outcome are those of `DimensionReduction` |
| ClassifyConfig.ConfigOptions.ParseDimReductionSizes | tomominer/classify/classify_config.py:102-105 | the fields and the outcome are those of `DimReductionSizes` |
| ClassifyConfig.ConfigOptions.ParseDimReductionRuns | tomominer/classify/classify_config.py:106-109 | the fields and the outcome are those of `DimReductionRuns` |
| ClassifyConfig.ConfigOptions.ParseClusterMethod | tomominer/classify/classify_config.py:111-127 | the fields and the outcome are those of `ClusterMethod` |
| ClassifyConfig.ConfigOptions.ParseTemplate | tomominer/classify/classify_config.py:129-135 | the fields and the outcome are those of `Template` |
| ClassifyConfig.ConfigOptions.ParseGivenTemplates | tomominer/classify/classify_config.py:133-135 | the append loop leaves the fields and outcome of `GivenTemplates` |
| ClassifyConfig.ConfigOptions.AppendTemplates | tomominer/classify/classify_config.py:134-135 | the `for i in range(n)` loop appends exactly the pairs `TemplatesFrom` lists, in order, stops at the first failing item with its error, and changes no other field |
| ClassifyConfig.Path | tomominer/classify/classify_config.py:163-175 | a string path always resolves |
| ClassifyConfig.Vector3 | tomominer/classify/classify_config.py:178-190 | an accepted angle or loc has length 3 and three components; a length other than 3 is the bare `raise`; a list of three values `float()` accepts gives exactly their floats, in order |
| ClassifyConfig.ParseRecordRules | tomominer/classify/classify_config.py:158-191 | a record without 'subtomogram' or 'mask' raises; an angle or loc whose length is not 3 raises; an accepted record has three-component vectors, zeros when absent, and resolved paths that are ASCII, as `str()` requires |
| ClassifyConfig.ParseAllSucceeds | tomominer/classify/classify_config.py:157-192 | the parse succeeds exactly when every record does, with one tuple per record in input order |
| ClassifyConfig.ParseAllFirstError | tomominer/classify/classify_config.py:157-192 | a failed parse reports the error of the first invalid record |
| ClassifyConfig.ParseAllStep | tomominer/classify/classify_config.py:158-191 | one loop turn: an invalid record ends the parse with its error, a valid one joins the parsed prefix |
| ClassifyConfig.ParseData | tomominer/classify/classify_config.py:140-192 | the loop returns what `ParseAll` specifies |
| Batches.ChunksFlatten | tomominer/average/runners.py:45-47 | the chunks, concatenated, are the data: nothing lost, duplicated or reordered |
| Batches.ChunksCount | tomominer/average/runners.py:45-47 | there are ⌈N/size⌉ chunks: none for empty data, enough to hold it, and one fewer would not |
| Batches.ChunksSizes | tomominer/align/runners.py:66-67 | each chunk is non-empty and at most `size` long, and all but the last are exactly `size` |
| Batches.ChunkStep | tomominer/align/runners.py:66-67 | `data[i:i+size]` is the first chunk of `data[i:]`, and the rest follows it |
| Batches.ChunkStart | tomominer/align/runners.py:66 | before the first turn of `range(0, N, size)`, nothing is taken |
| Batches.ChunkAdvance | tomominer/align/runners.py:66-67 | one loop turn takes the next chunk, in order |
| Batches.FlattenAppend | tomominer/align/runners.py:77 | flattening distributes over concatenation |
| Batches.FlattenMapChunks | tomominer/align/runners.py:73-77 | per-element work done chunk by chunk and flattened comes back in data order |
| Batches.MapChunks | tomominer/align/runners.py:73-77 | applies the function to every element of every chunk, keeping the shape |
| AlignRunners.AddTask | tomominer/align/runners.py:33-35 | appends one new task, keeps the earlier ones, and records its id against its position |
| AlignRunners.SubmitRow | tomominer/align/runners.py:32-35 | the inner loop for one `d1`: one `align.align` task per `j` of data2, tracked to `(i, j)`, after every earlier row and without repeating a pair |
| AlignRunners.SubmitAllVsAll | tomominer/align/runners.py:27-35 | makes one `align.align` task per `(i, j)`, each tracked to its own pair; every pair is covered, no pair twice, so there are `len(data1)·len(data2)` tasks |
| AlignRunners.CollectAllVsAll | tomominer/align/runners.py:37-39 | whatever order results arrive in, every cell `[i][j]` receives its own pair's result and no other |
| AlignRunners.AllVsAll | tomominer/align/runners.py:9-40 | a `len(data1)`×`len(data2)` grid whose cell `[i][j]` is the alignment of `data1[i]` with `data2[j]` |
| AlignRunners.OneVsAllChunkSize | tomominer/align/runners.py:64 | `max(5, N/1000)` is at least 5 and at least N/1000 |
| AlignRunners.OneVsAllPerElement | tomominer/align/runners.py:73-78 | when the worker answers a chunk element by element, the output is the per-element answer over the data, in data order |
| AlignRunners.Iota | tomominer/align/runners.py:66 | `enumerate`'s indices 0..n-1 |
| AlignRunners.SubmitOneVsAll | tomominer/align/runners.py:57-71 | one `align.batch_align` task per chunk, in chunk order, tracked by chunk index |
| AlignRunners.CollectOneVsAll | tomominer/align/runners.py:73-77 | results placed by chunk index, then flattened in chunk order, whatever order they arrive in |
| AlignRunners.OneVsAll | tomominer/align/runners.py:43-78 | returns the chunks' answers concatenated in chunk order |
| AlignRunners.StrLessTrichotomy | tomominer/align/runners.py:107 | string order is a strict total order |
| AlignRunners.PairLeTotal | tomominer/align/runners.py:107 | tuple `<=` is total, reflexive and antisymmetric, so each unordered pair of distinct entries gets exactly one task |
| AlignRunners.Neg | tomominer/align/runners.py:118 | elementwise negation |
| AlignRunners.NegNeg | tomominer/align/runners.py:117-118 | negating twice gives the vector back |
| AlignRunners.PairwiseShape | tomominer/align/runners.py:100-120 | corr is symmetric with a unit diagonal; a transform is present exactly for pairs of distinct entries, and `transform[j][i]` negates `transform[i][j]` |
| AlignRunners.SubmitPairRow | tomominer/align/runners.py:106-111 | the inner loop for one `d1`: a task for each `j` with `d1 < d2`, skipping `d2 <= d1`, tracked to `(i, j)`, after every earlier row and without repeating a pair |
| AlignRunners.SubmitPairwise | tomominer/align/runners.py:98-111 | a task exactly for pairs with `d1 < d2`, each tracked to its `(i, j)`, no pair twice: the submitted positions form exactly that set of pairs and there are as many tasks as pairs |
| AlignRunners.DistinctSetSize | tomominer/align/runners.py:105-111 | positions submitted without repeats are as many as the set of pairs they cover |
| AlignRunners.InitCells | tomominer/align/runners.py:100-101 | the identity matrix and a grid of None: nothing filed yet |
| AlignRunners.PairCellsStep | tomominer/align/runners.py:115-120 | filing a result writes both orientations of its pair |
| AlignRunners.FiledStep | tomominer/align/runners.py:113 | collecting one more task files its pair |
| AlignRunners.FiledPrefix | tomominer/align/runners.py:113 | every pair collected so far is filed |
| AlignRunners.FiledCovers | tomominer/align/runners.py:113 | once every task of the batch is collected, every pair is filed |
| AlignRunners.FilePair | tomominer/align/runners.py:115-120 | sets both cells of corr to the score, `(loc, ang)` at `[i][j]` and `(-loc, -ang)` at `[j][i]` |
| AlignRunners.CollectPairwise | tomominer/align/runners.py:113-120 | every submitted pair is filed, whatever order results arrive in |
| AlignRunners.Pairwise | tomominer/align/runners.py:81-121 | every entry of corr and transform is that of `PairCorr` and `PairTransform` |
| AlignRunners.SubmitToTemplates | tomominer/align/runners.py:141-146 | one `align.align_to_templates` task per volume, in order |
| AlignRunners.AlignVolsToTemplates | tomominer/align/runners.py:124-151 | one `(args, result)` pair per volume, in the order `run_batch` yields them |
| AlignWorker.AlignFallback | tomominer/align/worker_funcs.py:27-36 | once the four volumes are loaded, `align` returns the first candidate when the search returns a non-empty list, and `(0.0, zeros, zeros)` when it raises or returns nothing |
| AlignWorker.BatchAlign | tomominer/align/worker_funcs.py:86-120 | exactly one result per `(vol, mask)` pair, in input order, each by `align`'s fallback rule |
| AlignWorker.AlignToTemplates | tomominer/align/worker_funcs.py:122-151 | `(None, None)` exactly when no template scores above 0; otherwise the first template in iteration order with the maximal score, with its alignment; the template is passed as the reference |
| AverageRunners.AverageChunkSize | tomominer/average/runners.py:33-39 | `max(N/256, 50)` is at least 50 and at least N/256 |
| AverageRunners.AverageMaxTime | tomominer/average/runners.py:41 | `max((chunk/100 + 1)·120, 600)` is at least 600, a multiple of 120, and at least two minutes per started hundred |
| AverageRunners.AverageMaxTimeFits | tomominer/average/runners.py:33-41 | for any list Python can hold, the computed `max_time` is at most `sys.maxint`, so `make_task` accepts it as an `int` |
| AverageRunners.AverageTaskCount | tomominer/average/runners.py:33-47 | however large the data, there are at most 262 map tasks |
| AverageRunners.ChunkSizeBound | tomominer/average/runners.py:39 | the rounding in N/256 loses less than one chunk's worth of 256 volumes |
| AverageRunners.MakeMapTask | tomominer/average/runners.py:45-47 | a map task with the chunk, shape and directory as arguments and the computed `max_time` |
| AverageRunners.SubmitMaps | tomominer/average/runners.py:45-47 | one map task per chunk, in chunk order |
| AverageRunners.MapMaxTimeOverwritten | tomominer/average/runners.py:41-56 | as written, for 1,280,000 volumes the computed 6120 s is replaced by 3600 s on every map task |
| AverageRunners.MapMaxTimeKept | tomominer/average/runners.py:41-56 | passing the computed `max_time` on to `run_batch` leaves each task's limit as computed |
| AverageRunners.CollectMaps | tomominer/average/runners.py:56-57 | each submitted task's result, in the order `run_batch` yields them |
| AverageRunners.VolumeAverage | tomominer/average/runners.py:23-66 | the fft or plain map/reduce pair by `use_fft`; one map per chunk, submitted with `run_batch`'s `max_time`; the reduce gets the map results in yield order and the total N |

## Left out

- Sockets, pickling, the RPC client's reconnect loop and reply framing are network I/O. A connection is a sequence of frames, and an RPC call is a direct method call on the server object.
- Threads and locks are not modelled. Each queue server operation and each monitor sweep is one atomic step, and the monitor thread's start and wait are left out.
- The blocking `todo_queue.get(timeout)` is left out. An empty todo queue makes `get_task` answer `Blocked`.
- `time.time()` is an integer `now`. `get_task`'s float delay `start - now + 1.0` becomes the integer `start - now + 1`.
- `uuid.uuid4()` is the fresh-id allocator `Tasks.IdSource`.
- The worker's child process, its `Queue`, `terminate` and `time.sleep` are inputs. Each poll says what was delivered, whether the child is alive, whether the server still tracks the task, and the elapsed time.
- Runner.BatchRun.Poll: the `while len(state)` loop and the generator are modelled one iteration per call, so workers may act between calls. Termination of the whole loop is not claimed.
- Runner.SingleRun.Poll: `run_single`'s inner loop is modelled one iteration per call, and the sleep between polls is left out.
- `time.sleep` in `run_batch` and `run_single` is left out.
- The align and average runners treat `run_batch` as the results of the submitted tasks in some permutation, given by a schedule, plus a function that stands for the worker's answer. Retries inside `run_batch` are not replayed there.
- Results are not unpickled into numpy arrays. Volumes and masks are named by their keys, and scores and vectors are reals.
- `combined_search`, `get_mrc` and every numeric kernel are parameters.
- Logging, `stats`, `dump`, the `print` in `parse_config`, and the debug messages of `lru_memoize` are left out.
- The cleanup of the average runners (`os.remove` of the map outputs) is file I/O and is left out.
- `parse_config`'s file open and JSON load are left out. The model starts from the loaded object.
- The `os.path.isfile` assertions and `os.path.abspath` in `parse_data` are file system calls. `abspath` is a parameter, and existence is taken as given.
- `parse_data` does not model the text of `repr(record)` in its exception message.
- ArmaExtend.Ind2Sub: `idx` is an `int` given by the caller. Wrap-around of the unsigned 64-bit product of extents in the stride table is not modelled: strides are unbounded naturals.
- AlignRunners.OneVsAll: the number of chunks is not bounded. Only the chunk size and the result order are stated.
- The `burst` task option is stored but never read by the modelled code. The `burst=1` of `one_vs_all_alignment` is therefore not modelled.
- Cache.KeyOf: a memo key flattens keyword arguments into `(name, value)` lists. Python's `sorted` order over the keyword arguments is taken as the order given.
- Cache.Memo: one cache per wrapped function. The shared default `LRUCache()` of `lru_memoize` is not modelled.
- The `sys.getsizeof` default `size_fn` is a parameter.
- Python's dict iteration order is an input: `align_to_templates` takes its templates as an ordered list.
- Float formatting is not modelled. A `max_time` message shows the integer seconds.
- The unused `real_space_rotation_align` is left out.
- QueueWorker.SleepBounds: the source's delay is the float `start_time - now() + 1.0`, which is only known to exceed one second; the lower bound of 2 holds on the model's whole-second clock.
- ClassifyConfig.IntOf: Python 2 `int()` of a `unicode` string also accepts non-ASCII digits and whitespace; the model reads ASCII digits and C whitespace only.
- ClassifyConfig.FloatOf: the `inf`, `infinity` and `nan` spellings that `float()` accepts raise in the model, because `real` has no such values; non-ASCII digits and whitespace are not read; a float is an exact real, without binary rounding.
- ClassifyConfig.Str: the text `str()` gives for a float, a list or a dict is the `render` parameter; Python's float formatting is not modelled.
- ClassifyConfig.Vector3: iterating a dict yields its keys in hash order, which is not modelled; the model raises for a three-key dict instead of converting its keys with `float()`.
- RPCServer.Unpack: unpacking a dict with exactly three keys yields its keys in hash order, which is not modelled; the model answers that request with an error instead.
- RPCServer.Server.constructor: the source replaces any falsy `instance` (`not instance`, tomominer/parallel/rpc_server.py:61) with the server itself; the model replaces only a missing one, so an instance object that is falsy but present is kept.
- AverageRunners.VolumeAverage: the reduce task's `run_single` is taken to return its result; the exception `run_single` raises when the reduce fails (tomominer/parallel/runner.py:71-72) is not followed into the average runner.
- Runner.WithMaxTime: `run_batch` assigns `max_time` to the caller's own Task objects (tomominer/parallel/runner.py:98-99); the model returns updated copies, so the change is not visible through the caller's list.
- AlignWorker.Align: the four `get_mrc` loads (tomominer/align/worker_funcs.py:22-25) run outside the `try`, so a missing or unreadable file makes `align` raise; file loading is not modelled, and the fallback is stated only for a failing search.

## Findings

| source | as written | input that shows it | evidently intended | confidence | as-written member | corrected member |
|---|---|---|---|---|---|---|
| tomominer/parallel/runner.py:119-135 | an error result with budget left is resubmitted, and is also removed from `state` and yielded; the retry's own result is then skipped as unknown | budget 2, results `[error t, success t]` yield only the error | resubmit the error and keep waiting for the retry; yield only final results | not executed | Runner.ProcessYieldsResubmittedError | Runner.ProcessIntendedYieldsSuccesses |
| tomominer/parallel/runner.py:66-75 | with `max_retry` of 3 or more, an error result is neither raised nor resubmitted, and the inner loop polls forever | `max_retry` 3, tries 2, one error result for the task | resubmit while tries remain, raise when they are used up | not executed | Runner.ScanSwallowsError | Runner.ScanIntendedNoSwallow |
| tomominer/parallel/queue_worker.py:59-60 | a method starting with '_' is failed, but resolution and execution go on, and the method is run | method "_x" on an instance with a callable `_x` | fail the task and return at once | not executed | QueueWorker.UnderscoreMethodRuns | QueueWorker.DispatchIntendedRejectsPrivate |
| tomominer/parallel/rpc_server.py:107-110 | the 'shutdown' branch calls an undefined `log`, so it raises NameError and the client gets ERR | request `('shutdown', (), {})` | log and exit the server | not executed | RPCServer.ShutdownRaises | RPCServer.ShutdownExits |
| tomominer/average/runners.py:41-56 | the computed `max_time` is never passed to `run_batch`, which overwrites every task's limit with its default 3600 (tomominer/parallel/runner.py:99) | N = 1,280,000 gives chunks of 5000 and a computed limit of 6120 s, but 3600 s is submitted | `run_batch(tasks, max_time=max_time)` | not executed | AverageRunners.MapMaxTimeOverwritten | AverageRunners.MapMaxTimeKept |

The model's operations follow the code as written. Each corrected
definition sits beside the as-written one, with its intended property
proved.
