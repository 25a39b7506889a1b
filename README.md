# psycopg-async-listen, modelled in Dafny

This project models the two small sequential state machines of the
psycopg-async-listen repository and proves the promises their code and tests make.

**The notification listener** (`src/psycopg_async_listen/execute.py`, module
`NotifyListener` in `listener.dfy`). `listen_for_notifications(channel, queue)` enters
one database connection, issues `LISTEN <channel>;`, registers a notify handler
whose callback puts each notification's payload on the caller's queue, and then runs a
heartbeat loop (`SELECT 1;`, then sleep). When the task is cancelled at the heartbeat,
it removes the handler, issues `UNLISTEN <channel>;` and leaves the loop. The
connection is still open at that point; the `async with` block closes it afterwards.
Any other error in the heartbeat is not caught, so the context closes the connection
with no teardown. If the `UNLISTEN` of the teardown itself raises, the handler has
already been removed, the error escapes the loop and the context closes the connection.

- The connection is abstract. The class `Connection` keeps an `open` flag, the set of
  registered handlers and a log of every event done to it: context entry, statement,
  handler added or removed, context exit.
- `Listener` is the run as a state machine: `Init`, `Listening`, `Closed` (cancelled,
  teardown completed), `Failed` (heartbeat error) and `Interrupted` (cancelled, then
  `UNLISTEN` raised).
  Its steps are `Start`, `Heartbeat`, `Cancel`, `Fail`, `CancelThenUnlistenFails`
  and `Notify`.
  Its invariant `Valid()` ties the connection's state and log to the signals consumed
  so far.
- `ListenForNotifications` is the loop. The environment (completed heartbeat rounds,
  deliveries, cancellation, heartbeat failure, a failing `UNLISTEN`) is its parameter
  `signals`.
- The specification functions are `RunLog` (the connection log the run must produce),
  `Outcome` and `Enqueued` (the payloads it must queue). The lemmas about them state
  the ordering, exactly-once, channel and teardown properties for every run.

**The Pomodoro session iterator** (`src/multiple_tasks/task.py`, module `Sessions` in
`sessions.dfy`). `SessionIterator` flips its flag `_next_timer_is_work` on each
`__anext__`. It hands out a work timer, then a break timer, and so on without end.
Each timer carries the user's name and the matching duration. `run_session` yields
one pending timer call per iterator step. Awaiting a `NamedTimer` returns its name,
its start time and its duration.

- Durations are `real` minutes that the model carries through and never computes with.
- The clock reading is a parameter.
- `Session(s, n)` is the specification of the first n steps. The lemmas give
  alternation, what each timer carries, and the ⌈n/2⌉ / ⌊n/2⌋ counts.

On these points the model follows the code:

- The teardown (remove the handler, `UNLISTEN`, close) is one step from `Listening`
  to `Closed`.
- A cancelled run whose teardown completes returns normally: the loop is left by
  `break` and the cancellation is not re-raised. When `UNLISTEN` raises, that error
  reaches the caller instead.
- A heartbeat failure is not handled. The handler stays registered, no `UNLISTEN` is
  issued, and the context manager closes the connection (state `Failed`).
- The handler is removed at most once and `UNLISTEN` is issued at most once per run
  (`TeardownCounts`). A cancelled run whose teardown completes does both. A run whose
  `UNLISTEN` raises does only the removal. A run that fails at the heartbeat does
  neither.
- Removing a handler that is not registered is an error of the driver
  (`Connection.RemoveNotifyHandler` requires it registered), and closing an already
  closed connection does nothing (`Connection.Close`).

## Model

| member | source | states |
|---|---|---|
| `NotifyListener.NotifyQueue.Put` | src/psycopg_async_listen/execute.py:21 | putting a payload appends it at the back of the queue |
| `NotifyListener.QueuePutNotifyHandler.constructor` | src/psycopg_async_listen/execute.py:16-17 | the handler keeps the caller's queue |
| `NotifyListener.QueuePutNotifyHandler.Callback` | src/psycopg_async_listen/execute.py:19-21 | one callback puts exactly the notification's payload (not its channel) on the queue, once |
| `NotifyListener.Connection.Connect` | src/psycopg_async_listen/db.py:19-30 | entering `get_connection()` opens the connection and logs the entry |
| `NotifyListener.Connection.Execute` | src/psycopg_async_listen/execute.py:38-47 | a statement goes through, and is logged, exactly when the connection is open |
| `NotifyListener.Connection.AddNotifyHandler` | src/psycopg_async_listen/execute.py:39 | the handler joins the connection's handlers; the registration is logged |
| `NotifyListener.Connection.RemoveNotifyHandler` | src/psycopg_async_listen/execute.py:46 | only a registered handler can be removed; it leaves the connection's handlers and the removal is logged |
| `NotifyListener.Connection.Close` | src/psycopg_async_listen/db.py:28-31 | leaving the context closes the connection and logs the exit once; closing again changes nothing |
| `NotifyListener.Listener.constructor` | src/psycopg_async_listen/execute.py:35 | a fresh run: the handler wraps the caller's queue, the connection is not entered, nothing is logged |
| `NotifyListener.Listener.Start` | src/psycopg_async_listen/execute.py:37-39 | the context is entered, `LISTEN <channel>;` is executed on the open connection, the handler is registered, in that order; the run is listening |
| `NotifyListener.Listener.Heartbeat` | src/psycopg_async_listen/execute.py:41-44 | one heartbeat round adds exactly one `SELECT 1;` to the log and keeps the run listening |
| `NotifyListener.Listener.Cancel` | src/psycopg_async_listen/execute.py:45-48 | cancellation removes the handler, executes `UNLISTEN <channel>;` while the connection is still open, then the context closes it; the run is closed with no handler left |
| `NotifyListener.Listener.Fail` | src/psycopg_async_listen/execute.py:42-45 | a non-cancellation error closes the connection without removing the handler or issuing `UNLISTEN` |
| `NotifyListener.Listener.CancelThenUnlistenFails` | src/psycopg_async_listen/execute.py:45-47 | cancellation whose `UNLISTEN` raises: the handler is removed, no `UNLISTEN` is logged, the context closes the connection; the run ends `Interrupted` with no handler left |
| `NotifyListener.Listener.Notify` | src/psycopg_async_listen/execute.py:19-21 | a delivered notification puts its payload on the queue exactly when the run is listening, and otherwise changes nothing |
| `NotifyListener.ListenForNotifications` | src/psycopg_async_listen/execute.py:29-48 | over any environment, the run ends as `Outcome` says, the connection log is `RunLog` and the queue gains exactly `Enqueued`, the payloads delivered while listening, in order |
| `NotifyListener.Outcome` | src/psycopg_async_listen/execute.py:41-48 | the run stops at its first cancellation (`Closed`, or `Interrupted` if `UNLISTEN` raises) or heartbeat error (`Failed`); it is still listening exactly when every signal so far was a heartbeat round or a delivery |
| `NotifyListener.HeartbeatsAreSelects` | src/psycopg_async_listen/execute.py:41-44 | n heartbeat rounds are n log events, each `SELECT 1;` |
| `NotifyListener.HeartbeatsMultiset` | src/psycopg_async_listen/execute.py:41-44 | n heartbeat rounds are n copies of `SELECT 1;` and nothing else |
| `NotifyListener.SplitRun` | src/psycopg_async_listen/execute.py:41-48 | a run continues across any split of its signals while it listens, and nothing after cancellation or failure reaches it (log, outcome and queue) |
| `NotifyListener.LoopLogNormalForm` | src/psycopg_async_listen/execute.py:41-48 | the loop's log is one `SELECT 1;` per completed round followed by the teardown for how the run ended; deliveries leave no trace on the connection |
| `NotifyListener.RunLogAt` | src/psycopg_async_listen/execute.py:37-48 | the log opens with entry, `LISTEN`, registration; after that only heartbeats and teardown events occur; the context exit can only be the last event |
| `NotifyListener.RunLogMultiset` | src/psycopg_async_listen/execute.py:37-48 | a run's events, as a bag, are the opening, one `SELECT 1;` per round and the teardown |
| `NotifyListener.ListenThenRegisterThenHeartbeat` | src/psycopg_async_listen/execute.py:38-44 | `LISTEN` is the second event and the only one, the registration the third and the only one, and every `SELECT 1;` comes after both |
| `NotifyListener.RunLogCounts` | src/psycopg_async_listen/execute.py:37-44 | per run the context is entered once, `LISTEN <channel>;` issued once and the handler registered once; `SELECT 1;` runs once per heartbeat round |
| `NotifyListener.TeardownCounts` | src/psycopg_async_listen/execute.py:45-48 | the handler is removed once in a cancelled run (even if its `UNLISTEN` raises) and never otherwise; `UNLISTEN <channel>;` is issued once in a cancelled run whose teardown completes and never otherwise; the context is left once unless still listening |
| `NotifyListener.ExactlyOnce` | src/test/test_execute.py:91-99 | one context entry, one handler registration, at least one statement executed, and one handler removal when cancelled, whether or not `UNLISTEN` then raises |
| `NotifyListener.CancelTearsDown` | src/psycopg_async_listen/execute.py:45-48 | a run ends `Closed` (cancelled, with a teardown that completes) if and only if its log ends with handler removal, `UNLISTEN <channel>;`, context exit; no heartbeat follows them |
| `NotifyListener.FailureSkipsTeardown` | src/psycopg_async_listen/execute.py:42-45 | after a non-cancellation failure the handler was never removed, no `UNLISTEN` was issued, and the last event is the context exit |
| `NotifyListener.InterruptedTeardownSkipsUnlisten` | src/psycopg_async_listen/execute.py:45-47 | when the teardown's `UNLISTEN` raises, the handler was removed once, no `UNLISTEN` on any channel is logged, and the log ends with the removal and the context exit |
| `NotifyListener.StatementsWhileOpen` | src/psycopg_async_listen/execute.py:37-48 | every run's log is well bracketed (entered first and once, nothing after the exit), so every statement, `UNLISTEN` included, runs while the connection is open |
| `NotifyListener.ChannelsMatch` | src/psycopg_async_listen/execute.py:38-47 | `LISTEN` and `UNLISTEN` name exactly the channel the run was started with |
| `NotifyListener.EnqueuedPayloads` | src/psycopg_async_listen/execute.py:19-21 | the queue holds exactly the payloads of the `Deliver` signals that come before the first signal that is neither a heartbeat nor a delivery, in order; a notification delivered later is queued later (first in, first out) |
| `Sessions.CompletionTemplate` | src/multiple_tasks/task.py:73-83 | the work and break templates share " session complete" and differ only in the leading "work" or "break" |
| `Sessions.NextTimer` | src/multiple_tasks/task.py:124-129 | the timer built for a flag value is a work timer exactly when the flag says work, carries the user's name, and carries the work or break duration to match |
| `Sessions.Await` | src/multiple_tasks/task.py:60-69 | awaiting a timer returns its own name first, its start instant, and its configured duration last |
| `Sessions.WorkAndBreakDifferOnlyInTemplate` | src/multiple_tasks/task.py:73-83 | a work and a break timer with the same name and duration return the same tuple and differ only in their completion template |
| `Sessions.SessionIterator.constructor` | src/multiple_tasks/task.py:102-112 | the iterator keeps the name and both durations; its flag starts at "work" and nothing has been handed out |
| `Sessions.SessionIterator.AIter` | src/multiple_tasks/task.py:114-116 | `__aiter__` returns the iterator itself |
| `Sessions.SessionIterator.ANext` | src/multiple_tasks/task.py:118-129 | each call hands out the timer the flag names, negates the flag and extends what was handed out, keeping it the start of the session; it never signals exhaustion |
| `Sessions.RunSession` | src/multiple_tasks/task.py:137-145 | the first n items yielded are the first n timers of a fresh iterator, in its order |
| `Sessions.Stream` | src/multiple_tasks/task.py:118-129 | n calls hand out exactly n timers |
| `Sessions.StreamAt` | src/multiple_tasks/task.py:124-129 | the i-th timer of a stream depends only on the parity of i and the starting flag |
| `Sessions.SessionAt` | src/multiple_tasks/task.py:109-129 | step i is a work timer exactly when i is even; every timer carries the user's name and the duration of its kind |
| `Sessions.SessionExtends` | src/multiple_tasks/task.py:124-129 | one more step appends one timer and never changes the earlier ones |
| `Sessions.FirstTimerIsWork` | src/multiple_tasks/task.py:112-126 | a fresh iterator's first timer is a work timer with the user's name and the work duration |
| `Sessions.SessionAlternates` | src/multiple_tasks/task.py:124-129 | successive timers strictly alternate between work and break |
| `Sessions.StreamCounts` | src/multiple_tasks/task.py:118-129 | of n timers from either flag value, the kind the flag names gets ⌈n/2⌉ and the other ⌊n/2⌋ |
| `Sessions.SessionCounts` | src/multiple_tasks/task.py:118-129 | after n steps there are ⌈n/2⌉ work timers and ⌊n/2⌋ break timers |
| `Sessions.AwaitSessionStep` | src/multiple_tasks/task.py:118-129 | awaiting step i returns the user's name and the work duration for even i, the break duration for odd i |

## Left out

- The hand-off of the callback's put to the event loop through `run_coroutine_threadsafe`, and the event-loop lookup: the put is a synchronous append. Cross-thread interleaving is not modelled.
- `asyncio.sleep` and every interval: a heartbeat round is one `SELECT 1;` followed by a sleep that completes. The timers' sleeps are not modelled either.
- `datetime.now()` and the `timedelta` built from the minutes: the start instant is a parameter, and the elapsed time is the duration in minutes, unconverted.
- `run_sessions`: it only creates tasks, cancels them and gathers them, which is concurrency orchestration.
- Connecting with the configured host, port and credentials, the autocommit flag, a connection that cannot be established, and `get_cursor` (`src/psycopg_async_listen/db.py`): the connection is only opened and closed.
- `src/psycopg_async_listen/config.py`, `src/psycopg_async_listen/__main__.py`, `src/psycopg_async_listen/util.py` and the scripts: configuration loading, argument parsing and the sending helpers are not part of this model.
- Every log line, including the completion line in which `_completion_template` appears.
- The consumer side of the queue (`get`) and its capacity: the queue is a sequence that only grows here.
- Cancellation or failure before the heartbeat loop (while connecting or during `LISTEN`) is not modelled: signals reach the run only inside the loop. Within the teardown only a failing `UNLISTEN` is modelled; a failure of `remove_notify_handler` itself or of the connection's close is not.
- A round that is cancelled partway through its sleep is represented as a completed round followed by the cancellation. A cancelled or failing `SELECT 1;` is not logged, nor is an `UNLISTEN` that raises.
- A notification that reaches the driver between `LISTEN` and the handler's registration: the model's steps are atomic, so none arrives there.
- `NotifyListener.ListenForNotifications`: the environment is finite. When `signals` run out without a cancellation or failure, the run is reported as still listening and the endless remainder of the loop is not modelled.
- `Sessions.RunSession`: it models the first n items of the endless generator, for any n. The yielded coroutine `timer()` is represented by the timer it will await.
- psycopg's handler list: the model keeps the handlers as a set. `Connection.RemoveNotifyHandler` requires the handler to be registered, as the driver raises otherwise; the listener's call meets that requirement because its invariant keeps exactly its own handler registered while it listens.
