/**
 * The shared state of deferred logging (DeferredLogState.cs): one FIFO queue
 * of entries and, for the logical context modelled here, the value of the
 * `AsyncLocal` scope stack (null until the context begins its first scope).
 */
module State {
  import opened Wrappers
  import opened LogEntries
  import opened Scopes

  /** A `Queue<LogEntry>`; `entries` lists the oldest (next to leave) first. */
  class LogQueue {
    var entries: seq<LogEntry>

    constructor ()
      ensures entries == []
    {
      entries := [];
    }

    method Enqueue(entry: LogEntry)
      modifies this
      ensures entries == old(entries) + [entry]
    {
      entries := entries + [entry];
    }

    /** `Queue.TryDequeue`: the oldest entry, or nothing when the queue is empty. */
    method TryDequeue() returns (entry: Option<LogEntry>)
      modifies this
      ensures old(entries) == [] ==> entry == Option.None && entries == []
      ensures old(entries) != [] ==> entry == Some(old(entries)[0]) && entries == old(entries)[1..]
    {
      if entries == [] {
        entry := Option.None;
      } else {
        entry := Some(entries[0]);
        entries := entries[1..];
      }
    }
  }

  class DeferredLogState {
    /** `static readonly`: the one queue, never replaced. */
    const logQueue: LogQueue
    /** `Scopes.Value` in the modelled context. */
    var scopes: ScopeStack?

    constructor ()
      ensures fresh(logQueue) && logQueue.entries == []
      ensures scopes == null
      ensures Valid()
    {
      logQueue := new LogQueue();
      scopes := null;
    }

    /**
     * What the producers maintain: every queued entry is at one of the six
     * producer levels, and every handle on the stack pops this stack.
     */
    ghost predicate Valid()
      reads this, logQueue, scopes
    {
      (forall i :: 0 <= i < |logQueue.entries| ==> IsProducerLevel(logQueue.entries[i].level)) &&
      (scopes != null ==> forall i :: 0 <= i < |scopes.items| ==> scopes.items[i].scopes == scopes)
    }

    /** The handles on this context's stack, bottom first (none before any scope begins). */
    ghost function ActiveHandles(): seq<LogScope>
      reads this, scopes
    {
      if scopes == null then [] else scopes.items
    }

    /** The states of the active scopes, outermost first (empty before any scope begins). */
    ghost function ActiveStates(): seq<Obj>
      reads this, scopes
    {
      if scopes == null then [] else States(scopes.items)
    }
  }
}
