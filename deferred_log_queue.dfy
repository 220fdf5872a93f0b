/**
 * The producer side (IDeferredLogger and its implementation DeferredLogQueue):
 * beginning a scope pushes a handle on the context's stack, and each of the
 * six `Log*` calls appends one entry, carrying a snapshot of the active
 * scopes, to the shared queue. Nothing is sent to a real logger here.
 */
module Producer {
  import opened LogEntries
  import opened Seqs
  import opened Scopes
  import opened State

  /**
   * `QueueLog`'s snapshot: the stack is enumerated top first, each handle
   * gives its state, and the list is reversed; no stack yet gives [].
   */
  function CapturedScopes(stack: ScopeStack?): seq<Obj>
    reads stack
  {
    if stack == null then [] else Reverse(States(stack.Enumerate()))
  }

  /** The snapshot lists the active scopes outermost first: the stack's bottom-to-top order. */
  lemma CapturedScopesOutermostFirst(stack: ScopeStack?)
    ensures stack == null ==> CapturedScopes(stack) == []
    ensures stack != null ==> CapturedScopes(stack) == States(stack.items)
  {
    if stack != null {
      var items := stack.items;
      assert States(stack.Enumerate()) == Reverse(States(items));
      ReverseReverse(States(items));
    }
  }

  class DeferredLogQueue {
    const state: DeferredLogState

    constructor (state: DeferredLogState)
      ensures this.state == state
    {
      this.state := state;
    }

    /**
     * Pushes a new handle for `s` on this context's stack, creating the
     * stack on first use. Disposing the handle pops the same stack.
     */
    method BeginScope(s: Obj) returns (h: LogScope)
      requires state.Valid()
      modifies state, state.scopes
      ensures state.Valid()
      ensures fresh(h) && h.state == s && h.scopes == state.scopes
      ensures old(state.scopes) != null ==> state.scopes == old(state.scopes)
      ensures old(state.scopes) == null ==> fresh(state.scopes)
      ensures state.scopes != null
      ensures state.scopes.items == old(state.ActiveHandles()) + [h]
      ensures state.ActiveStates() == old(state.ActiveStates()) + [s]
    {
      if state.scopes == null {
        state.scopes := new ScopeStack();
      }
      var scopes := state.scopes;
      h := new LogScope(s, scopes);
      scopes.Push(h);
    }

    /** Appends one entry at `level` with the current scope snapshot; the stack is not touched. */
    method QueueLog(level: LogLevel, message: string, args: seq<Obj>)
      requires state.Valid() && IsProducerLevel(level)
      modifies state.logQueue
      ensures state.Valid()
      ensures state.logQueue.entries ==
        old(state.logQueue.entries) + [LogEntry(level, message, args, state.ActiveStates())]
    {
      CapturedScopesOutermostFirst(state.scopes);
      var currentScopes := CapturedScopes(state.scopes);
      state.logQueue.Enqueue(LogEntry(level, message, args, currentScopes));
    }

    method LogDebug(message: string, args: seq<Obj>)
      requires state.Valid()
      modifies state.logQueue
      ensures state.Valid()
      ensures state.logQueue.entries ==
        old(state.logQueue.entries) + [LogEntry(Debug, message, args, state.ActiveStates())]
    {
      QueueLog(Debug, message, args);
    }

    method LogInformation(message: string, args: seq<Obj>)
      requires state.Valid()
      modifies state.logQueue
      ensures state.Valid()
      ensures state.logQueue.entries ==
        old(state.logQueue.entries) + [LogEntry(Information, message, args, state.ActiveStates())]
    {
      QueueLog(Information, message, args);
    }

    method LogWarning(message: string, args: seq<Obj>)
      requires state.Valid()
      modifies state.logQueue
      ensures state.Valid()
      ensures state.logQueue.entries ==
        old(state.logQueue.entries) + [LogEntry(Warning, message, args, state.ActiveStates())]
    {
      QueueLog(Warning, message, args);
    }

    method LogError(message: string, args: seq<Obj>)
      requires state.Valid()
      modifies state.logQueue
      ensures state.Valid()
      ensures state.logQueue.entries ==
        old(state.logQueue.entries) + [LogEntry(Error, message, args, state.ActiveStates())]
    {
      QueueLog(Error, message, args);
    }

    method LogCritical(message: string, args: seq<Obj>)
      requires state.Valid()
      modifies state.logQueue
      ensures state.Valid()
      ensures state.logQueue.entries ==
        old(state.logQueue.entries) + [LogEntry(Critical, message, args, state.ActiveStates())]
    {
      QueueLog(Critical, message, args);
    }

    method LogTrace(message: string, args: seq<Obj>)
      requires state.Valid()
      modifies state.logQueue
      ensures state.Valid()
      ensures state.logQueue.entries ==
        old(state.logQueue.entries) + [LogEntry(Trace, message, args, state.ActiveStates())]
    {
      QueueLog(Trace, message, args);
    }
  }
}
