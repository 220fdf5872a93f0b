/**
 * The real logger that deferred entries are flushed to (an ILogger), reduced
 * to what the flush uses: `BeginScope(state)` and `Log(level, message, args)`.
 * It records what it observes as a trace of events, so that the order of
 * calls can be stated and proved.
 */
module Sink {
  import opened LogEntries

  /** One observable effect on the logger. */
  datatype Event =
    | Open(state: Obj)                                          // a scope was opened
    | Log(level: LogLevel, message: string, args: seq<Obj>)     // `Log` was called
    | Close(state: Obj)                                         // an opened scope was disposed

  /** One `Open` event per state, in the given order. */
  function Opens(states: seq<Obj>): seq<Event>
  {
    seq(|states|, i requires 0 <= i < |states| => Open(states[i]))
  }

  /** One `Close` event per state, in the given order. */
  function Closes(states: seq<Obj>): seq<Event>
  {
    seq(|states|, i requires 0 <= i < |states| => Close(states[i]))
  }

  /** The states of a list of logger scope handles. */
  function HandleStates(handles: seq<SinkScope>): seq<Obj>
  {
    seq(|handles|, i requires 0 <= i < |handles| => handles[i].state)
  }

  lemma OpensSnoc(states: seq<Obj>, state: Obj)
    ensures Opens(states + [state]) == Opens(states) + [Open(state)]
  {
  }

  lemma HandleStatesSnoc(handles: seq<SinkScope>, handle: SinkScope)
    ensures HandleStates(handles + [handle]) == HandleStates(handles) + [handle.state]
  {
  }

  /** Every handle in `handles` was issued by `sink`. */
  ghost predicate OwnedBy(handles: seq<SinkScope>, sink: RecordingSink)
  {
    forall i :: 0 <= i < |handles| ==> handles[i].sink == sink
  }

  lemma OwnedBySnoc(handles: seq<SinkScope>, handle: SinkScope, sink: RecordingSink)
    requires OwnedBy(handles, sink) && handle.sink == sink
    ensures OwnedBy(handles + [handle], sink)
  {
  }

  class RecordingSink {
    /** Everything this logger has observed, oldest first. */
    var trace: seq<Event>
    /** The handles `BeginScope` has returned, oldest first: each `Open` event has its own handle. */
    var issued: seq<SinkScope>
    /** The handles disposed so far, in the order their `Dispose` was called. */
    var disposed: seq<SinkScope>
    /** States for which `BeginScope` returns null (the logger opens no scope). */
    const declines: Obj -> bool
    /** Calls for which `Log` throws (a formatting or provider failure). */
    const logThrows: (LogLevel, string, seq<Obj>) -> bool

    constructor (declines: Obj -> bool, logThrows: (LogLevel, string, seq<Obj>) -> bool)
      ensures trace == [] && issued == [] && disposed == []
      ensures this.declines == declines && this.logThrows == logThrows
    {
      trace := [];
      issued := [];
      disposed := [];
      this.declines := declines;
      this.logThrows := logThrows;
    }

    /** `ILogger.BeginScope`: a fresh handle for an opened scope, or null when declined. */
    method BeginScope(state: Obj) returns (h: SinkScope?)
      modifies this
      ensures h == null <==> declines(state)
      ensures h != null ==> fresh(h) && h.sink == this && h.state == state
      ensures trace == if declines(state) then old(trace) else old(trace) + [Open(state)]
      ensures issued == if declines(state) then old(issued) else old(issued) + [h]
      ensures disposed == old(disposed)
    {
      if declines(state) {
        h := null;
      } else {
        h := new SinkScope(this, state);
        trace := trace + [Open(state)];
        issued := issued + [h];
      }
    }

    /** `ILogger.Log`: records the call; `ok` is false when the call throws. */
    method Log(level: LogLevel, message: string, args: seq<Obj>) returns (ok: bool)
      modifies this
      ensures ok == !logThrows(level, message, args)
      ensures trace == old(trace) + [Event.Log(level, message, args)]
      ensures issued == old(issued) && disposed == old(disposed)
    {
      trace := trace + [Event.Log(level, message, args)];
      ok := !logThrows(level, message, args);
    }
  }

  /** The IDisposable a logger returns from `BeginScope`. */
  class SinkScope {
    const sink: RecordingSink
    const state: Obj

    constructor (sink: RecordingSink, state: Obj)
      ensures this.sink == sink && this.state == state
    {
      this.sink := sink;
      this.state := state;
    }

    /** Ends the scope at the logger. */
    method Dispose()
      modifies sink
      ensures sink.trace == old(sink.trace) + [Close(state)]
      ensures sink.disposed == old(sink.disposed) + [this] && sink.issued == old(sink.issued)
    {
      sink.trace := sink.trace + [Close(state)];
      sink.disposed := sink.disposed + [this];
    }
  }
}
