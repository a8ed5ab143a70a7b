# tmysql4 in Dafny

A model of the asynchronous MySQL binding tmysql4 for a scripting host.
It covers two parts:

- the query engine `Database` (gm_tmysql4/src/database.cpp):
  - a fixed pool of client connections opened by `Initialize`;
  - a task queue run by worker steps;
  - the per-task decision tree of `DoExecute`, with ping, reconnect and one retry;
  - the completion list the host drains;
  - the shutdown sequence `Shutdown` / `RunShutdownWork` / `Release`;
- the host binding (gm_tmysql4/src/gm_tmysql.cpp):
  - the registry of databases by name, with create-or-fetch `initialize`;
  - handles that `disconnect` nulls, after which every call on them is a no-op;
  - the `query`, `poll`, `dbescape` and `setcharset` entry points;
  - the dispatch walk over completed queries;
  - the callback's argument shape;
  - the typing and keying of result cells;
  - the drain loop of `DisconnectDB`.

Files and modules:

| file | module | contents |
|---|---|---|
| common.dfy | `Common` | queries, result sets, column types, flag test, identity lists |
| execution.dfy | `Execution` | the outcome of one task as a pure decision table over the client calls' results; the first-failure search |
| database.dfy | `Engine` | pool and task transition functions with their invariants; class `Database` |
| rows.dfy | `Rows` | cell typing, row tables, `PopulateTableFromQuery` |
| dispatch.dfy | `Dispatch` | `HandleQueryCallback`, the dispatch walk, and what the host does as an event list |
| binding.dfy | `Binding` | handles, class `Host` (the registry and the entry points), the drain of `DisconnectDB` |

Design:

- The client library, the scripting host and the threads are replaced by inputs. Their inputs are:
  - `ExecOutcomes`: the codes of the query, ping, reconnect and retry calls;
  - `ConnectAttempt` and `CallResult`: connect and charset outcomes;
  - `Reaction`: whether a callback reference names a function and whether calling it raises;
  - a script of the `query` calls callbacks make while a database is being disconnected.
- The class state is viewed through two values, `PoolState` and `TaskState`.
- Every operation is proved either to leave these views alone or to move them by a transition function, such as `AfterExecute`, `RunPool`, `RunFirst`, `Drain`, `Step` or `Disconnected`.
  - `RunPool` is one `AfterExecute` per task run.
- The invariants `PoolInv` and `TaskInv` are proved of those functions. `Binding.Ready` carries both into `disconnect`.
  - `PoolInv`: no handle is live twice, and nothing is closed twice.
  - `TaskInv`: every task is, exactly once, queued, completed, or taken by the host.
- What the host does is recorded as a list of `Event`s: references released, callbacks called with their arguments, results freed, queries deleted.
- "Each query deleted exactly once" is stated on that event list.

## Model

| member | source | states |
|---|---|---|
| Common.HasFlag | gm_tmysql4/src/database.cpp:178 | `flags & flag != 0` for a single-bit mask: that bit of the two's-complement flags is set |
| Common.NewQuery | gm_tmysql4/src/database.cpp:108 | a query as constructed: status unset, no error, no result, last id 0 |
| Execution.Executed | gm_tmysql4/src/database.cpp:135-182 | the task after its run keeps its identity, text, flags and references |
| Execution.ExecutedTable | gm_tmysql4/src/database.cpp:135-182 | success exactly when the first query or, after a reconnect, the single retry returned 0; it carries the stored result, and the insert id only with QUERY_FLAG_LASTID; failure exactly when the first query failed and the connection was alive, could not be reopened, or the retry failed; failure carries no result and the first attempt's error text, or the literal reconnect error; a negative code leaves the query as constructed |
| Execution.RetryFailureKeepsFirstError | gm_tmysql4/src/database.cpp:147-156 | a failed retry reports failure with the error text captured after the first attempt |
| Execution.StatusAlwaysSet | gm_tmysql4/src/database.cpp:138-182 | with non-negative codes every task leaves with success or failure |
| Execution.ExecutedAll | gm_tmysql4/src/database.cpp:63-67 | running a list of tasks keeps their number and identities in order |
| Execution.ExecutedAllAt | gm_tmysql4/src/database.cpp:63-67 | the i-th task run is the i-th task queued, on the i-th outcome |
| Execution.FirstWhere | gm_tmysql4/src/database.cpp:17-24 | the index of the first element that fails, or the length: all before it pass and it fails |
| Engine.SwitchedSets | gm_tmysql4/src/database.cpp:94-103 | exactly the switched connections change, each to the new character set |
| Engine.InitializeKeepsPool | gm_tmysql4/src/database.cpp:17-27 | the opened connections are distinct, fresh handles |
| Engine.ExecuteKeepsPool | gm_tmysql4/src/database.cpp:128-187 | a task keeps the pool valid and its size conserved: a dead connection is closed once and its slot gets a new handle |
| Engine.EscapeKeepsPool | gm_tmysql4/src/database.cpp:81-90 | the connection `Escape` leases leaves the idle list and is never closed |
| Engine.ReleaseKeepsPool | gm_tmysql4/src/database.cpp:69-79 | `Release` closes each idle connection exactly once |
| Engine.ExecuteKeepsSize | gm_tmysql4/src/database.cpp:128-187 | a task keeps the number of idle connections and those `Escape` holds, and only adds to what is closed and to the handles used |
| Engine.RunPool | gm_tmysql4/src/database.cpp:63-67 | running tasks one after another keeps the number of idle connections and those `Escape` holds; closed handles and handles used only grow |
| Engine.RunPoolStep | gm_tmysql4/src/database.cpp:63-67 | one more task run is one more `AfterExecute`, on the next outcome |
| Engine.RunPoolKeepsPool | gm_tmysql4/src/database.cpp:63-67 | any number of tasks run keep the pool valid |
| Engine.RunPoolConcat | gm_tmysql4/src/database.cpp:63-67 | running `a` tasks and then `b` more is running `a + b` tasks |
| Engine.DrainedPoolReleased | gm_tmysql4/src/database.cpp:51-79 | a drain's runs followed by `Release` leave a valid pool with nothing idle. The connections `Escape` holds are untouched. Nothing closed before is forgotten |
| Engine.RunPrefixAll | gm_tmysql4/src/database.cpp:63-67 | running tasks one by one until none is left is running them all |
| Engine.EnqueueFreshId | gm_tmysql4/src/database.cpp:106-111 | a new task gets an identity never handed out before |
| Engine.EnqueueKeepsTasks | gm_tmysql4/src/database.cpp:106-116 | queueing a task keeps every task in exactly one place |
| Engine.RunFirstKeepsTasks | gm_tmysql4/src/database.cpp:128-187 | a worker step moves one task from the queue to the completion list and keeps the accounting |
| Engine.RunAllKeepsTasks | gm_tmysql4/src/database.cpp:63-67 | running every queued task keeps the accounting |
| Engine.DrainKeepsTasks | gm_tmysql4/src/database.cpp:118-121 | handing the completion list to the host keeps the accounting |
| Engine.ExactlyOnce | gm_tmysql4/src/database.cpp:106-126 | every queued task is, at any moment, in exactly one of the queue, the completion list and the host's hands; a task never queued is in none |
| Engine.QuiescentTookAll | gm_tmysql4/src/database.cpp:118-126 | once queue and completion list are empty, the host has taken every task exactly once |
| Engine.Database.constructor | gm_tmysql4/src/database.cpp:3-7 | a new engine has no connections, no tasks and no workers |
| Engine.Database.InitHandle | gm_tmysql4/src/database.cpp:19 | `mysql_init` yields a handle never seen before |
| Engine.Database.CloseHandle | gm_tmysql4/src/database.cpp:75 | `mysql_close` records the handle as closed |
| Engine.Database.GetAvailableConnection | gm_tmysql4/src/database.cpp:130 | leases the last idle connection |
| Engine.Database.ReturnConnection | gm_tmysql4/src/database.cpp:186 | puts the connection back at the end of the idle list |
| Engine.Database.OpenConnections | gm_tmysql4/src/database.cpp:17-27 | opens connections in order up to the first refusal: true exactly when none is refused; the idle list gains the handles opened before the refusal, fresh and in order; a refusal returns that connect's error, and its handle is used up |
| Engine.Database.Initialize | gm_tmysql4/src/database.cpp:13-39 | succeeds exactly when every connect succeeds; then the pool holds `poolSize` fresh handles in opening order, the workers are started and the phase is Running; at the first refusal it returns that connect's error, keeps the handles opened before it and starts no worker |
| Engine.Database.Escape | gm_tmysql4/src/database.cpp:81-90 | leases the last idle connection for good |
| Engine.Database.SetCharacterSet | gm_tmysql4/src/database.cpp:92-104 | switches idle connections in pool order; true exactly when none rejects; otherwise the first rejection's error, with earlier connections switched and later ones untouched |
| Engine.Database.QueueQuery | gm_tmysql4/src/database.cpp:106-116 | appends a new task, with status unset and a fresh identity, to the queue |
| Engine.Database.PushCompleted | gm_tmysql4/src/database.cpp:123-126 | appends a query to the completion list |
| Engine.Database.GetCompletedQueries | gm_tmysql4/src/database.cpp:118-121 | hands back everything pushed, in push order, and leaves the list empty |
| Engine.Database.DoExecute | gm_tmysql4/src/database.cpp:128-187 | pushes the task, as the decision table decides it, exactly once, and returns exactly one connection: the leased one, or the replacement for a dead one |
| Engine.Database.RunOne | gm_tmysql4/src/database.cpp:115 | the oldest queued task runs on the next outcome |
| Engine.Database.RunPending | gm_tmysql4/src/database.cpp:63-67 | runs every queued task in posting order and reports how many; the pool moves by `RunPool` over those tasks, on the same outcomes |
| Engine.Database.RunNext | gm_tmysql4/src/database.cpp:63-67 | one more queued task runs, and the queue and the pool are those after that many tasks |
| Engine.Database.WorkerStep | gm_tmysql4/src/database.cpp:29-36 | a worker runs the oldest task exactly when one is queued, a worker runs and a connection is idle; otherwise nothing changes |
| Engine.Database.Shutdown | gm_tmysql4/src/database.cpp:51-61 | joins the workers, which first finish every queued task; afterwards no worker runs; the pool moves by `RunPool` over the tasks run |
| Engine.Database.RunShutdownWork | gm_tmysql4/src/database.cpp:63-67 | runs on the caller whatever was queued and reports the count; the pool moves by `RunPool` over those tasks |
| Engine.Database.Release | gm_tmysql4/src/database.cpp:69-79 | with no work left, closes every idle connection once and empties the list; tasks are untouched |
| Rows.CellOf | gm_tmysql4/src/gm_tmysql.cpp:326-339 | NULL becomes nil; a non-null cell keeps its text and is a number exactly for DECIMAL, NEWDECIMAL, FLOAT, DOUBLE, TINY, SHORT, INT24, BIT and LONG |
| Rows.LongLongIsText | gm_tmysql4/src/gm_tmysql.cpp:328-336 | a LONGLONG cell reaches the host as text |
| Rows.LastWith | gm_tmysql4/src/gm_tmysql.cpp:341-344 | the last field stored under a key, and no later field uses the key |
| Rows.LastWriteWins | gm_tmysql4/src/gm_tmysql.cpp:317-345 | a key is present exactly when the last field stored under it was not NULL, and then holds that field's cell; a key no field uses is absent |
| Rows.PositionalRow | gm_tmysql4/src/gm_tmysql.cpp:323-344 | without QUERY_FLAG_ASSOC the keys are the positions 1..n, and position i + 1 holds field i's cell exactly when it is not NULL |
| Rows.AssocRow | gm_tmysql4/src/gm_tmysql.cpp:321-342 | with QUERY_FLAG_ASSOC the keys are field names, and a name's last field decides it |
| Rows.ResultTable | gm_tmysql4/src/gm_tmysql.cpp:295-354 | no result gives an empty table; otherwise the rows are keyed exactly 1..row count |
| Rows.RowTable | gm_tmysql4/src/gm_tmysql.cpp:317-345 | the row table after its first `n` fields were stored in order, keyed by field name or by position; a NULL cell removes what an earlier field stored under the same key |
| Rows.StoreRow | gm_tmysql4/src/gm_tmysql.cpp:317-345 | visits every field of the row and stores its row table |
| Rows.PopulateTableFromQuery | gm_tmysql4/src/gm_tmysql.cpp:295-354 | builds the row table of every fetched row, keyed by a running row number from 1 |
| Dispatch.CallbackArgs | gm_tmysql4/src/gm_tmysql.cpp:270-286 | four arguments with a context reference, else three: the context, the result table, the status (true only for success), then the insert id on success or the error text |
| Dispatch.CallbackShape | gm_tmysql4/src/gm_tmysql.cpp:258-293 | the callback reference is always released first, and the context too when set or when the callback is not a function; the call event occurs exactly once when the callback is a function and not at all otherwise; every other event is a release; an error escapes exactly when the call raised outside shutdown |
| Dispatch.CallbackOutcome | gm_tmysql4/src/gm_tmysql.cpp:258-293 | the events of one callback and whether an error escapes it |
| Dispatch.HandleQueryCallback | gm_tmysql4/src/gm_tmysql.cpp:258-293 | performs the events `CallbackOutcome` describes |
| Dispatch.CallbackDeletesNothing | gm_tmysql4/src/gm_tmysql.cpp:258-293 | a callback neither frees nor deletes |
| Dispatch.QueryDeletions | gm_tmysql4/src/gm_tmysql.cpp:245-254 | a query gets past its callback exactly when it is deleted, once, as its last event |
| Dispatch.QueryFrees | gm_tmysql4/src/gm_tmysql.cpp:250-251 | a query past its callback has its result freed exactly when it has one |
| Dispatch.QueryCalls | gm_tmysql4/src/gm_tmysql.cpp:247-248 | the callback runs exactly when the reference is set and names a function; an error escapes exactly when that call raised outside shutdown |
| Dispatch.LastDeleted | gm_tmysql4/src/gm_tmysql.cpp:243-255 | a walk that got through its list deletes, after what the walk of all but the last query deleted, the last query |
| Dispatch.DeletesEachOnce | gm_tmysql4/src/gm_tmysql.cpp:239-256 | when nothing is rethrown, the walk deletes every query of the detached list exactly once, in link order |
| Dispatch.ShutdownNeverThrows | gm_tmysql4/src/gm_tmysql.cpp:288-292 | while the module shuts down no callback error escapes the walk |
| Dispatch.ThrowStopsWalk | gm_tmysql4/src/gm_tmysql.cpp:239-256 | an escaping error happens only outside shutdown; the queries before the raising one were deleted, it and the rest were not |
| Dispatch.StoppedStaysStopped | gm_tmysql4/src/gm_tmysql.cpp:243-255 | after the walk stopped, later queries change nothing |
| Dispatch.QueryOutcome | gm_tmysql4/src/gm_tmysql.cpp:245-254 | one query's callback, then the free of its result and its delete unless an error escaped |
| Dispatch.DispatchList | gm_tmysql4/src/gm_tmysql.cpp:243-255 | the walk of a detached list in link order, stopping at an escaping error |
| Dispatch.DispatchQuery | gm_tmysql4/src/gm_tmysql.cpp:245-254 | one query's callback, free and delete, as `QueryOutcome` says |
| Dispatch.WalkCompleted | gm_tmysql4/src/gm_tmysql.cpp:243-255 | walks the detached list in link order as `DispatchList` says |
| Dispatch.DispatchCompletedQueries | gm_tmysql4/src/gm_tmysql.cpp:239-256 | detaches the completion list and walks it |
| Binding.TruncateToInt | gm_tmysql4/src/gm_tmysql.cpp:27 | the `(int)` cast of a double truncates toward zero |
| Binding.PortOf | gm_tmysql4/src/gm_tmysql.cpp:24-27 | 3306 unless argument 5 is a number, then that number truncated |
| Binding.Live | gm_tmysql4/src/gm_tmysql.cpp:97-100 | the engine a handle still points to, none once nulled |
| Binding.Handle.constructor | gm_tmysql4/src/gm_tmysql.cpp:47-49 | a new handle points to its engine |
| Binding.EnqueueAll | gm_tmysql4/src/gm_tmysql.cpp:178 | queueing submissions adds one task each, keeps every identity queued before, and touches neither the completion list nor what the host took |
| Binding.EnqueueAllKeepsTasks | gm_tmysql4/src/gm_tmysql.cpp:178 | queueing submissions keeps the accounting |
| Binding.Round | gm_tmysql4/src/gm_tmysql.cpp:229-231 | after a round nothing is queued, the host took the completion list, every identity queued before is still recorded, and nothing completed when there was nothing to run |
| Binding.RoundKeepsTasks | gm_tmysql4/src/gm_tmysql.cpp:229-231 | a round keeps the accounting |
| Binding.Step | gm_tmysql4/src/gm_tmysql.cpp:229-231 | a round of the drain: the host takes the completion list and the identities queued only grow; without an escaping error nothing is left queued and every query taken is deleted once, in order; an error escapes only outside shutdown, and then nothing runs and the queries the callbacks queued before it stay queued |
| Binding.StepKeepsTasks | gm_tmysql4/src/gm_tmysql.cpp:229-231 | a round keeps the accounting, whether or not an error escapes it |
| Binding.StepRaised | gm_tmysql4/src/gm_tmysql.cpp:288-291 | a round a callback error escapes runs nothing, and the queries callbacks made before the error stay queued behind the earlier queue |
| Binding.RoundsUnfold | gm_tmysql4/src/gm_tmysql.cpp:229-232 | one more pass of the loop: it stops at a round an error escapes, else continues with that round's count |
| Binding.Rounds | gm_tmysql4/src/gm_tmysql.cpp:229-232 | without an escaping error the loop ends with nothing queued or completed; it only appends to what the host took and to the identities queued; without an escaping error it deleted exactly what it took, in order; an error escapes only outside shutdown |
| Binding.RoundsKeepsTasks | gm_tmysql4/src/gm_tmysql.cpp:229-232 | the loop keeps the accounting unless an error escaped it |
| Binding.Joined | gm_tmysql4/src/database.cpp:51-61 | once the workers are joined, those started have run every queued task; with none started the queue is as it was; the identities queued are unchanged |
| Binding.AfterFirst | gm_tmysql4/src/gm_tmysql.cpp:227-232 | it only appends to what the host took and to the identities queued; after the first dispatch the loop leaves nothing queued or completed and deletes exactly what it takes, unless an error escaped, only outside shutdown |
| Binding.FirstRound | gm_tmysql4/src/gm_tmysql.cpp:226-229 | `Shutdown` and the first dispatch only append to what the host took and to the identities queued; what is taken is deleted once, in order, unless an error escaped, only outside shutdown |
| Binding.Disconnected | gm_tmysql4/src/gm_tmysql.cpp:222-237 | the drain only appends to what the host took and to the identities queued; without an escaping error nothing is left queued or completed and each query the drain takes is deleted exactly once, in delivery order; an error escapes only outside shutdown |
| Binding.FirstRoundKeepsTasks | gm_tmysql4/src/gm_tmysql.cpp:226-227 | joining the workers and the first dispatch keep the accounting |
| Binding.AllTaken | gm_tmysql4/src/gm_tmysql.cpp:229-234 | with nothing queued or completed every task ever queued was taken off the completion list exactly once |
| Binding.DisconnectedTakesAll | gm_tmysql4/src/gm_tmysql.cpp:222-237 | without an escaping error every task ever queued on the engine was taken off the completion list exactly once, by this drain or an earlier `poll`; in particular each task queued before the drain was taken exactly once |
| Binding.Host.constructor | gm_tmysql4/src/gm_tmysql.cpp:356-363 | the module starts with an empty registry, outside shutdown |
| Binding.Host.Initialize | gm_tmysql4/src/gm_tmysql.cpp:17-62 | a registered name gives its handle back and builds nothing; else a refused connect returns its error and leaves the registry alone; only a fully opened engine, with the configured port, is registered under its name |
| Binding.Host.GetDatabase | gm_tmysql4/src/gm_tmysql.cpp:70-75 | the handle registered under the name, exactly when there is one |
| Binding.Host.Query | gm_tmysql4/src/gm_tmysql.cpp:149-180 | no-op on a nulled handle; else queues one task with a fresh callback reference when argument 3 is a function, a fresh context reference when argument 5 is not nil, and the truncated flags |
| Binding.Host.Poll | gm_tmysql4/src/gm_tmysql.cpp:182-194 | no-op on a nulled handle; else dispatches the completion list |
| Binding.Host.DbEscape | gm_tmysql4/src/gm_tmysql.cpp:92-109 | no-op on a nulled handle; else one idle connection is leased for good |
| Binding.Host.SetCharset | gm_tmysql4/src/gm_tmysql.cpp:132-147 | no-op on a nulled handle; else the connections before the first rejection are switched |
| Binding.Host.Resubmit | gm_tmysql4/src/gm_tmysql.cpp:149-180 | the `query` calls a callback makes queue their tasks in order |
| Binding.Host.DispatchPass | gm_tmysql4/src/gm_tmysql.cpp:227-231 | a dispatch with the queries its callbacks queue; those stay queued even when a callback error escapes |
| Binding.Host.RunDrained | gm_tmysql4/src/gm_tmysql.cpp:229 | runs what is queued and reports the count; the pool stays what the drain's runs since its start made of it (`RanFrom`) |
| Binding.Host.DrainRound | gm_tmysql4/src/gm_tmysql.cpp:229-231 | moves the engine as `Step` says and reports the tasks run, none when an error escaped; the pool keeps `RanFrom`, so its idle connections keep their number |
| Binding.Host.NextRound | gm_tmysql4/src/gm_tmysql.cpp:229-232 | one pass of the loop: where an error escapes it ends the loop as `Rounds` says, else the rest of the loop goes on from it with nothing queued and its count |
| Binding.Host.DrainLoop | gm_tmysql4/src/gm_tmysql.cpp:229-232 | moves the engine as `Rounds` says; the pool keeps `RanFrom` |
| Binding.Host.FirstDrain | gm_tmysql4/src/gm_tmysql.cpp:227-229 | the first dispatch and run after the join, as `FirstRound` says, with `FirstCount` tasks run |
| Binding.Host.DrainRest | gm_tmysql4/src/gm_tmysql.cpp:229-234 | the loop, as `Rounds` says, then `Release` unless an error escaped; the pool is then the release of what the runs made of it, and stays valid |
| Binding.Host.ReleaseDrained | gm_tmysql4/src/gm_tmysql.cpp:234 | `Release` after a drain: nothing idle, the tasks untouched, the pool the release of what the runs made of it (`ReleasedFrom`), valid when the starting pool was |
| Binding.Host.DrainJoined | gm_tmysql4/src/gm_tmysql.cpp:227-234 | what follows the join, as `Disconnected` says; `RanFrom` when an error escaped, else `Release` ran and `ReleasedFrom` holds |
| Binding.Host.DisconnectDB | gm_tmysql4/src/gm_tmysql.cpp:222-237 | moves the engine as `Disconnected` says; `Release` runs, closing the idle connections, exactly when no callback error escaped; the pool is what the tasks run made of the pool at the start, released when no error escaped, and then still valid with the connections `Escape` holds untouched; with no idle connection at the start nothing runs |
| Binding.Host.Disconnect | gm_tmysql4/src/gm_tmysql.cpp:111-130 | no-op on a nulled handle; else removes the name from the registry and drains the engine; without an escaping error the handle is nulled, the engine released with nothing queued or completed, what the host took and the identities queued only appended to, every task ever queued (those queued before the call among them) taken off the completion list exactly once and each query this drain took deleted once, in order; the pool is the release of what the drain's runs made of it, valid, with the connections `dbescape` holds untouched and every handle closed before still closed; an error escapes only outside shutdown and leaves the handle set |

## Left out

- Threads, the io_service, its work guard and the mutexes are not modelled.
  - A worker step runs one task atomically (`WorkerStep`).
  - `Shutdown` runs the queue in posting order before the join.
  - Interleavings of several workers, and the completion order they produce, are not modelled.
- The client library's calls (connect, query, ping, store, insert id, set charset, escape) are inputs: `ExecOutcomes`, `ConnectAttempt`, `CallResult`.
- The escaped string itself is not computed; neither is the host-side `escape`, which uses no connection.
- The host's Lua stack, metatables, userdata, reference API and module registration are not modelled.
  - Reference numbers come from a counter in `Host`.
  - What a callback does is an input: a `Reaction`, and a script of the `query` calls callbacks make while a database is disconnected.
  - Any other effect of a callback is not modelled.
  - Outside a disconnect, queries that callbacks queue during `poll` are made with separate `Query` calls.
- `closeAllDatabases` and `pollall` (gm_tmysql.cpp:196-220, 431-456) iterate the host's registry table, in an order the host chooses, and are not modelled.
  - Setting `in_shutdown` is the `inShutdown` field; `ShutdownNeverThrows` states its effect on the walk.
  - `closeAllDatabases` leaves each registry entry and handle pointing to the deleted engine; that is not modelled either.
- `atof` is not modelled: a numeric cell keeps its text, tagged as a number. Neither is the insert id's conversion to a double.
- The engine's destructor and `delete` are not modelled; nothing is freed except the events `Freed` and `Deleted`.
- Binding.TruncateToInt: a double outside the range of `int` is undefined behaviour for the cast. `Host.Query` therefore requires the truncated flags to fit in 32 bits on a live handle; a nulled handle returns before the flags are read. The port is not range-checked.
- Engine.Database.Valid: it holds only the phase facts. `PoolInv` and `TaskInv` are proved of the transition functions each method follows, not carried as a class invariant. `Host.Initialize` proves both of a new engine (through `Ready`), and `Host.Disconnect` requires them; the other entry points neither require nor restate them.
- Binding.Host.DisconnectDB: requires an idle connection, unless nothing would run: nothing queued and no callback queueing a query. A task run with no idle connection blocks forever in the lease, which is not modelled. `DrainRound` and `DrainLoop` require the same.
- Engine.Database.Escape: requires an idle connection. `Escape` never gives its connection back, so after `poolSize` escapes the idle list is empty. The next `Escape` then blocks in `GetAvailableConnection` (or does whatever the header's lease does on an empty list), and so does every worker's lease. That blocking is not modelled: the model covers only escapes while a connection is idle.
- Binding.Host.DbEscape: requires an idle connection on a live handle, for the reason given for `Escape`: `dbescape` on a pool its earlier escapes used up blocks the host in the source.
- Binding.Rounds: the queries callbacks make during a drain are a finite script, so the drain always ends. In the source a callback that queues a query on every pass keeps `while (mysqldb->RunShutdownWork())` (gm_tmysql.cpp:229-232) running forever; the model does not capture that non-termination.
- Binding.Host.DrainLoop: terminates for the same reason as `Rounds`; the endless drain of the source is not modelled.
- Binding.DisconnectedTakesAll: states that every task was taken off the completion list exactly once, not that it was called back or deleted. A `poll` whose callback raised leaves the rest of its detached list taken but never visited, freed or deleted, and that list is counted as taken.
- Binding.Host.Disconnect: requires an idle connection unless nothing would run, for the same reason as `DisconnectDB`.
- Binding.Host.Disconnect: after a callback error escapes, the source has already removed the name and shut the engine down; a second `disconnect` would run `DisconnectDB` on the drained engine again. The model does not cover that second call.
- Engine.Database.Initialize: after a refusal nothing is closed. The handles opened before it stay in the idle list of an engine that stays `Created`, as in the source. The refused handle is used up and never closed.
- Common.Query: `Query` and the helpers below are declared in gm_tmysql.h, which is not part of this model; their behaviour is assumed.
  - A query is assumed to start with status unset, an empty error, no result and a last id of 0.
  - QUERY_FLAG_ASSOC is assumed to be 1, and QUERY_FLAG_LASTID 2.
  - `GetAvailableConnection` is assumed to take the last idle connection, and `ReturnConnection` to append it.
- Engine.Database.GetCompletedQueries: `pop_all` is assumed to return the list in push order. If it swaps out a stack and returns the newest query first, the dispatch walk visits the queries in the reverse order. "Each query deleted exactly once" and the accounting do not depend on that order; "in push order" does.
- A connection recreated by `DoExecute` does not get the character set of the one it replaces. The model's `charsets` map keeps the old handle's entry.

Behaviour of the code that the model keeps as written:

- A task stores one result, from `mysql_store_result`; further result sets of a multi-statement query are not read.
- `Escape` leases a pool connection and never returns it, so the idle list shrinks. While the engine runs, the idle connections plus those held by `Escape` number `poolSize`.
- `SetCharacterSet` switches only the idle connections, not leased ones or those `Escape` holds.
- LONGLONG columns, and the other types outside the nine listed, reach the host as text.
- A callback error outside shutdown escapes the dispatch walk. The rest of the detached list is then never visited, freed or deleted.
- The `query` calls a callback makes are posted at once, so during a drain they stay queued even when a later callback raises.
