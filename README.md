# Deferred logging (Cirreum.Logging.Deferred), modelled in Dafny

Cirreum.Logging.Deferred buffers log calls that happen before a real logger exists, for example during
application bootstrap, and replays them later. A producer (`IDeferredLogger`, implemented by
`DeferredLogQueue`) does two things:

- it keeps a stack of active scopes for the current logical context;
- each `Log*` call appends a `LogEntry` to one process-wide FIFO queue. The entry holds the level, the
  message template, the arguments, and the states of the scopes active at that moment, outermost first.

`FlushDeferredLogs` drains the queue into a real `ILogger`. For each entry it does three things:

- it opens the entry's scopes, in list order, through `CreateNestedScope`;
- it calls `Log` once;
- it disposes the opened scopes innermost first, through `CompositeDisposable`.

The static `Logger` queries inspect the queue without consuming it.

The model has these parts:

- `log_entry.dfy`: the `LogEntry` record as a datatype. It has exactly four fields, none of which can
  change after construction, so the captured scopes stay as they were at creation time (the `Args` array
  itself is shared with the caller; see Left out).
- `log_scope.dfy`: `LogScope`, the `Stack<IDisposable>` it pops, and `CompositeDisposable`, all as
  classes that change in place.
- `deferred_log_state.dfy`: the shared `Queue<LogEntry>` and the state object that holds it. The queue is
  a `const` field, so it is never replaced. The state also holds the scope stack of the one modelled
  context.
- `deferred_log_queue.dfy`: the producer. `BeginScope` pushes. The six `Log*` methods queue one entry
  each, at their own level, through `QueueLog`. `QueueLog` enumerates the stack top first, projects the
  states, and reverses. This follows `Internal/DeferredLogQueue .cs:7-12` (`BeginScope`) and
  `Internal/DeferredLogQueue .cs:32-39` (`QueueLog`).
- `sink.dfy`: the real logger, reduced to a recorder of `Open`, `Log` and `Close` events. It also
  keeps the handles its `BeginScope` has issued and the handles disposed since, so that a scope is
  identified by its handle and not only by its state (two nested scopes may carry the same state). It
  has two parameters: which scope states its `BeginScope` answers with null, and which `Log` calls throw.
- `replay.dfy`: what a flush must make the logger observe. It also has an independent reading of a trace
  that keeps the logger's own stack of open scopes. From that reading it proves that replay is well
  nested, and that each `Log` happens inside exactly the captured scopes the logger opened (those its
  `BeginScope` did not answer with null).
- `flush.dfy`: `CreateNestedScope` and `FlushDeferredLogs`, with the `TryDequeue` loop and its `using`
  block.
- `queries.dfy`: `HasErrors`, `GetErrors`, `HasEntries`, `GetAll(level)` and `GetAll()` as functions of
  the queue's value, with the equivalences between them.
- `scenarios.dfy`: producer and flush together. This includes a bootstrap session (log, begin a scope, log,
  dispose it, log, flush, flush again) and the trace it produces.

## Model

| member | source | states |
|---|---|---|
| `Seqs.Reverse` | src/Cirreum.Logging.Deferred/Deferred/Internal/LogScope.cs:28 | LINQ `Reverse`: same length, element `i` is the input's element `n-1-i` |
| `Scopes.ScopeStack.Enumerate` | src/Cirreum.Logging.Deferred/Deferred/Internal/DeferredLogState.cs:6-9 | enumerating the scope stack yields the most recently pushed handle first |
| `Scopes.ScopeStack.Push` | src/Cirreum.Logging.Deferred/Deferred/Internal/DeferredLogState.cs:6-9 | a push puts the handle on top and leaves the rest of the stack as it was |
| `Scopes.LogScope.constructor` | src/Cirreum.Logging.Deferred/Deferred/Internal/LogScope.cs:2-11 | the handle keeps the state it was given, and that state can never change; `GetState` returns it, and the state type has no null |
| `Scopes.LogScope.Dispose` | src/Cirreum.Logging.Deferred/Deferred/Internal/LogScope.cs:13-17 | on a non-empty stack exactly the top element is removed and the rest is unchanged; an empty stack stays empty; which element is removed does not depend on the handle disposed |
| `Scopes.CompositeDisposable.Add` | src/Cirreum.Logging.Deferred/Deferred/Internal/LogScope.cs:23-25 | the handle is appended at the end; earlier handles keep their order |
| `Scopes.CompositeDisposable.Dispose` | src/Cirreum.Logging.Deferred/Deferred/Internal/LogScope.cs:27-31 | every added handle is disposed exactly once, last added first: the logger's log of disposed handles grows by exactly the reversed list, and it sees the matching `Close` events; an empty composite disposes nothing |
| `State.LogQueue.Enqueue` | src/Cirreum.Logging.Deferred/Deferred/Internal/DeferredLogState.cs:11-14 | the entry joins the back of the queue |
| `State.LogQueue.TryDequeue` | src/Cirreum.Logging.Deferred/Deferred/Internal/DeferredLogState.cs:11-14 | FIFO: the oldest entry leaves and the rest stay in order; an empty queue yields nothing and stays empty |
| `State.DeferredLogState.constructor` | src/Cirreum.Logging.Deferred/Deferred/Internal/DeferredLogState.cs:5-15 | one fresh, empty queue, held in a `const` field so it is never replaced; no scope stack until the first scope begins; the producers' invariant holds from the start |
| `Producer.CapturedScopesOutermostFirst` | src/Cirreum.Logging.Deferred/Deferred/Internal/LogEntry.cs:11 | the snapshot (enumerate top first, take the states, reverse) lists the active scopes outermost first; with no stack it is empty |
| `Producer.DeferredLogQueue.BeginScope` | src/Cirreum.Logging.Deferred/Deferred/IDeferredLogger.cs:12-18 | the stack is created on first use; the new handle is pushed on top and pops that same stack; the queue is untouched |
| `Producer.DeferredLogQueue.QueueLog` | src/Cirreum.Logging.Deferred/Deferred/IDeferredLogger.cs:20-48 | exactly one entry is appended, with the given level, message and args and the active scopes outermost first; the stack is unchanged and no logger is called |
| `Producer.DeferredLogQueue.LogDebug` | src/Cirreum.Logging.Deferred/Deferred/IDeferredLogger.cs:20-23 | queues one `Debug` entry carrying the current scopes; any message and args are accepted |
| `Producer.DeferredLogQueue.LogInformation` | src/Cirreum.Logging.Deferred/Deferred/IDeferredLogger.cs:25-28 | queues one `Information` entry carrying the current scopes |
| `Producer.DeferredLogQueue.LogWarning` | src/Cirreum.Logging.Deferred/Deferred/IDeferredLogger.cs:30-33 | queues one `Warning` entry carrying the current scopes |
| `Producer.DeferredLogQueue.LogError` | src/Cirreum.Logging.Deferred/Deferred/IDeferredLogger.cs:35-38 | queues one `Error` entry carrying the current scopes |
| `Producer.DeferredLogQueue.LogCritical` | src/Cirreum.Logging.Deferred/Deferred/IDeferredLogger.cs:40-43 | queues one `Critical` entry carrying the current scopes |
| `Producer.DeferredLogQueue.LogTrace` | src/Cirreum.Logging.Deferred/Deferred/IDeferredLogger.cs:45-48 | queues one `Trace` entry carrying the current scopes |
| `Scenarios.BeginThenDispose` | src/Cirreum.Logging.Deferred/Deferred/IDeferredLogger.cs:12-18 | disposing the handle `BeginScope` returned ends that scope: the active scopes are what they were before, and the queue is unchanged |
| `ReplaySpec.AcceptedMembers` | src/Cirreum.Logging.Deferred/Deferred/Extensions/DeferredLoggerExtensions.cs:35-40 | a scope is opened exactly when it is one of the entry's scopes and the logger does not return null for it |
| `ReplaySpec.AcceptedPrefixStep` | src/Cirreum.Logging.Deferred/Deferred/Extensions/DeferredLoggerExtensions.cs:35-40 | one more turn of the `foreach` opens the next state unless the logger returns null for it, and keeps the earlier ones |
| `ReplaySpec.AcceptedAll` | src/Cirreum.Logging.Deferred/Deferred/Extensions/DeferredLoggerExtensions.cs:35-40 | when the logger returns a handle for every scope, all of the entry's scopes are opened, in list order |
| `ReplaySpec.ReplaySingle` | src/Cirreum.Logging.Deferred/Deferred/Extensions/DeferredLoggerExtensions.cs:23-28 | a queue of one entry replays as that entry's events |
| `ReplaySpec.ReplayAppend` | src/Cirreum.Logging.Deferred/Deferred/Extensions/DeferredLoggerExtensions.cs:23-29 | replaying two queues one after the other gives the replay of their concatenation |
| `ReplaySpec.ReplayEntryShape` | src/Cirreum.Logging.Deferred/Deferred/Extensions/DeferredLoggerExtensions.cs:24-28 | for opened scopes `s1..sn` the events are `Open(s1)..Open(sn)`, then `Log(level, message, args)`, then `Close(sn)..Close(s1)`, and nothing else |
| `ReplaySpec.ReplayUnscoped` | src/Cirreum.Logging.Deferred/Deferred/Extensions/DeferredLoggerExtensions.cs:24-27 | an entry without scopes causes no `BeginScope`; only its `Log` call is made |
| `ReplaySpec.ObserveOpens` | src/Cirreum.Logging.Deferred/Deferred/Extensions/DeferredLoggerExtensions.cs:33-41 | opening scopes in list order leaves them open at the logger, the last one innermost |
| `ReplaySpec.ObserveCloses` | src/Cirreum.Logging.Deferred/Deferred/Internal/LogScope.cs:27-31 | closing in reverse order always ends the logger's innermost open scope, until the scopes open before are all that remain |
| `ReplaySpec.ObserveEntry` | src/Cirreum.Logging.Deferred/Deferred/Extensions/DeferredLoggerExtensions.cs:24-28 | the logger sees the entry's `Log` inside exactly the scopes it opened, and afterwards no extra scope is open |
| `ReplaySpec.ObserveReplay` | src/Cirreum.Logging.Deferred/Deferred/Extensions/DeferredLoggerExtensions.cs:16-29 | replaying a whole queue is well nested: no close mismatches, entries are seen once each in queue order, inside exactly the captured scopes the logger opened (those its `BeginScope` did not answer with null), and no scope is left open |
| `Flush.FirstFailure` | src/Cirreum.Logging.Deferred/Deferred/Extensions/DeferredLoggerExtensions.cs:23-28 | the position of the first entry whose `Log` throws: every earlier entry logs cleanly, and that entry throws |
| `Flush.OpenInto` | src/Cirreum.Logging.Deferred/Deferred/Extensions/DeferredLoggerExtensions.cs:35-40 | one turn of the `foreach`: the logger returns null exactly for a declined state, and then nothing changes; otherwise one `Open` event is recorded and the new handle, for that state and this logger, is both issued and added at the end of the composite |
| `Flush.CreateNestedScope` | src/Cirreum.Logging.Deferred/Deferred/Extensions/DeferredLoggerExtensions.cs:33-42 | each state the logger does not decline is opened, in list order; the composite holds exactly the handles the logger issued during the call, in that order; every handle belongs to this logger |
| `Flush.ReplayOne` | src/Cirreum.Logging.Deferred/Deferred/Extensions/DeferredLoggerExtensions.cs:24-28 | one `using` block: the logger records exactly the entry's replay events, with the scopes closed even when `Log` throws; the handles disposed are exactly the handles issued for this entry, in reverse order; the result says whether it threw |
| `Flush.TraceStep` | src/Cirreum.Logging.Deferred/Deferred/Extensions/DeferredLoggerExtensions.cs:23-29 | replaying one more dequeued entry extends the trace of the entries replayed so far |
| `Flush.BalancedStep` | src/Cirreum.Logging.Deferred/Deferred/Extensions/DeferredLoggerExtensions.cs:24-28 | a `using` block that disposes its own newly issued handles in reverse keeps every handle issued since the flush began matched by one disposal |
| `Flush.FlushDeferredLogs` | src/Cirreum.Logging.Deferred/Deferred/Extensions/DeferredLoggerExtensions.cs:11-31 | a null logger throws `ArgumentNullException` with the queue untouched. Otherwise entries are replayed in queue order, each `Log` called once with its entry's level, message and args. Without a throw the queue ends empty. If a `Log` throws, its entry is gone, its scopes were closed, and the later entries stay queued. Either way the logger scope handles disposed during the flush are, counted with multiplicity, exactly those issued during it |
| `Queries.HasEntries` | src/Cirreum.Logging.Deferred/Deferred/Logger.cs:41-44 | true iff some queued entry has the given level |
| `Queries.HasErrors` | src/Cirreum.Logging.Deferred/Deferred/Logger.cs:21-24 | true iff some queued entry has level `Error` |
| `Queries.GetAllAt` | src/Cirreum.Logging.Deferred/Deferred/Logger.cs:50-54 | `GetAll(level)`: at most one pair per entry, and every pair is at the requested level |
| `Queries.GetErrors` | src/Cirreum.Logging.Deferred/Deferred/Logger.cs:30-34 | at most one message per queued entry |
| `Queries.GetAll` | src/Cirreum.Logging.Deferred/Deferred/Logger.cs:60-63 | `GetAll()`: same length and order as the queue; element `i` is `(queue[i].Level, queue[i].Message)` |
| `Queries.HasErrorsIsHasEntriesError` | src/Cirreum.Logging.Deferred/Deferred/Logger.cs:21-44 | `HasErrors()` equals `HasEntries(Error)` on every queue |
| `Queries.GetErrorsIsMessagesOfGetAllAt` | src/Cirreum.Logging.Deferred/Deferred/Logger.cs:30-54 | `GetErrors()` is the message projection of `GetAll(Error)`: the error messages in queue order |
| `Queries.HasEntriesIffGetAllAtNonEmpty` | src/Cirreum.Logging.Deferred/Deferred/Logger.cs:41-54 | `HasEntries(level)` holds iff `GetAll(level)` is non-empty |
| `Queries.GetAllAtAppend` | src/Cirreum.Logging.Deferred/Deferred/Logger.cs:50-54 | `GetAll(level)` preserves queue order: filtering a concatenation concatenates the filtered parts |
| `Queries.GetAllAtCount` | src/Cirreum.Logging.Deferred/Deferred/Logger.cs:50-54 | `GetAll(level)` has exactly as many pairs as the queue has entries at that level |
| `Queries.GetAllAtMembers` | src/Cirreum.Logging.Deferred/Deferred/Logger.cs:50-54 | `(level, m)` is yielded iff some queued entry at that level has message `m` |
| `Queries.GetAllAtFiltersGetAll` | src/Cirreum.Logging.Deferred/Deferred/Logger.cs:50-63 | `GetAll(level)` is `GetAll()` with the pairs at other levels removed, in order |
| `Queries.NoneNeverQueued` | src/Cirreum.Logging.Deferred/Deferred/Logger.cs:41-54 | on a queue built by the producers, `HasEntries(None)` is false and `GetAll(None)` is empty |
| `Scenarios.DisposeActiveHandle` | src/Cirreum.Logging.Deferred/Deferred/Internal/LogScope.cs:13-17 | disposing any handle that is active in the context pops that context's own stack, whichever handle is on top; the producers' invariant still holds |
| `Scenarios.DisposeOutOfOrder` | src/Cirreum.Logging.Deferred/Deferred/Internal/LogScope.cs:13-17 | begin `a`, begin `b`, dispose `a`'s handle: `b` ends and `a` stays active, with the queue unchanged |
| `Scenarios.NoneNeverQueuedInState` | src/Cirreum.Logging.Deferred/Deferred/Logger.cs:41-54 | on the producers' state, `HasEntries(None)` is false and `GetAll(None)` is empty |
| `Scenarios.CapturedScopesReplayed` | src/Cirreum.Logging.Deferred/Deferred/Extensions/DeferredLoggerExtensions.cs:24-28 | an entry captured with scopes `S` is seen by a logger that accepts them with exactly `S` open, outermost first, and nothing left open |
| `Scenarios.RecordSession` | src/Cirreum.Logging.Deferred/Deferred/IDeferredLogger.cs:12-48 | log, begin scope, log, dispose, log: only the entry logged inside the scope carries it |
| `Scenarios.SessionReplay` | src/Cirreum.Logging.Deferred/Deferred/Extensions/DeferredLoggerExtensions.cs:20-29 | that session's queue replays as `Log(start)`, `Open(request)`, `Log(slow)`, `Close(request)`, `Log(boom)` |
| `Scenarios.BootstrapSession` | src/Cirreum.Logging.Deferred/Deferred/Extensions/DeferredLoggerExtensions.cs:15-29 | the first flush produces that trace and empties the queue; a second flush with nothing new makes no logger calls |

Queries are functions of the queue's current value. Calling one therefore cannot change what a later
flush replays. Entries are datatype values, so a flush cannot alter an entry's captured scopes either.

`CompositeDisposable.Dispose` (`LogScope.cs:27-31`) is a plain loop. The first `Dispose` that throws
ends it, and the handles not yet reached stay open (see Left out).

## Left out

- Logical contexts (`AsyncLocal`) and concurrency: one context with one explicit stack is modelled. `Queue<T>` is not thread-safe, so concurrent producers or flushers would not be sound to model. The model does not capture how the stack object flows into child contexts.
- The real `ILogger`: message-template formatting, providers, and what a scope means to a provider. It is replaced by a recorder of events. A declined `BeginScope` (one that returns null) records no event.
- Scopes.CompositeDisposable.Dispose: a logger scope's `Dispose` never throws in the model, so stopping at the first throwing `Dispose` is not modelled. The method also requires every handle to come from one logger. Its only caller, the `using` block of `FlushDeferredLogs` (modelled by `Flush.ReplayOne`), disposes a composite that `CreateNestedScope` filled from one logger, so it always meets that.
- Flush.FlushDeferredLogs: only an exception from `Log` is modelled. An exception thrown by the logger's `BeginScope` is not.
- Flush.FlushDeferredLogs: whether `Log` throws and whether `BeginScope` returns null are fixed functions of the call's arguments (`Sink.RecordingSink`'s `logThrows` and `declines`). A logger whose behaviour depends on history, such as an I/O fault on one call but not on an identical earlier one, is not modelled.
- Flush.CreateNestedScope: a `BeginScope` call that returns null leaves no event in the trace. The contract therefore does not state that `BeginScope` is called for a declined state, only which states are opened and kept.
- Lazy `IEnumerable` results: each query returns the sequence it would enumerate now. Re-enumeration against a later queue state is not modelled.
- The contents of `args` and of scope states: both are opaque objects (`Obj`) compared only for identity. `Args` is the caller's `object[]`: when a caller passes an explicit array to the `params` parameter, the entry shares that array, so a change to it before the flush changes what is replayed. In the model `args` is a `seq<Obj>` value, and that aliasing is not captured.
- A null state passed to `BeginScope`: C#'s `notnull` constraint is checked at compile time only. Here the state type has no null value.
- The stack holds `IDisposable` in the code and only `LogScope` in the model, which is what the cast in `QueueLog` assumes.
- `Logger.CreateDeferredLogger`: a plain constructor call, modelled by `DeferredLogQueue`'s constructor over an explicit state object.
