/**
 * Producers and flush together: what a logger sees for entries logged
 * inside scopes, and the walk-through of a short bootstrap session.
 */
module Scenarios {
  import opened LogEntries
  import opened Sink
  import opened Scopes
  import opened State
  import opened Producer
  import opened ReplaySpec
  import opened Flush
  import opened Queries

  /** Disposing the handle `BeginScope` returned restores the context's active scopes. */
  method BeginThenDispose(p: DeferredLogQueue, s: Obj)
    requires p.state.Valid()
    modifies p.state, p.state.scopes
    ensures p.state.Valid()
    ensures p.state.ActiveStates() == old(p.state.ActiveStates())
    ensures p.state.logQueue.entries == old(p.state.logQueue.entries)
  {
    var h := p.BeginScope(s);
    h.Dispose();
  }

  /**
   * Disposing any handle on the context's stack ends the innermost scope,
   * whichever handle that is: every active handle pops this context's own
   * stack, and `LogScope.Dispose` does not check that it is on top.
   */
  method DisposeActiveHandle(st: DeferredLogState, h: LogScope)
    requires st.Valid() && h in st.ActiveHandles()
    modifies st.scopes
    ensures st.Valid()
    ensures st.ActiveHandles() == old(st.ActiveHandles())[..|old(st.ActiveHandles())| - 1]
  {
    ghost var i :| 0 <= i < |st.scopes.items| && st.scopes.items[i] == h;
    h.Dispose();
  }

  /**
   * Begin `a`, begin `b`, then dispose `a`'s handle: it is `b` that ends,
   * and `a` stays active.
   */
  method DisposeOutOfOrder(p: DeferredLogQueue, a: Obj, b: Obj)
    requires p.state.Valid()
    modifies p.state, p.state.scopes
    ensures p.state.Valid()
    ensures p.state.ActiveStates() == old(p.state.ActiveStates()) + [a]
    ensures p.state.logQueue.entries == old(p.state.logQueue.entries)
  {
    var ha := p.BeginScope(a);
    ghost var afterA := p.state.ActiveHandles();
    var hb := p.BeginScope(b);
    DisposeActiveHandle(p.state, ha);
    assert p.state.ActiveHandles() == afterA;
  }

  /** No entry the producers queued is at level `None`, so the queries never find one. */
  lemma NoneNeverQueuedInState(st: DeferredLogState)
    requires st.Valid()
    ensures !HasEntries(st.logQueue.entries, LogLevel.None) && GetAllAt(st.logQueue.entries, LogLevel.None) == []
  {
    NoneNeverQueued(st.logQueue.entries);
  }

  /**
   * An entry logged with scopes `scopes` active is replayed, to a logger
   * that opens every scope, between exactly those scopes' opens and closes:
   * the logger sees the `Log` with the same scopes open, outermost first.
   */
  lemma CapturedScopesReplayed(level: LogLevel, message: string, args: seq<Obj>, scopes: seq<Obj>,
                               declines: Obj -> bool)
    requires forall i :: 0 <= i < |scopes| ==> !declines(scopes[i])
    ensures Observe(ReplayEntry(LogEntry(level, message, args, scopes), declines), []) ==
      Seen([Observed(level, message, args, scopes)], [])
  {
    var e := LogEntry(level, message, args, scopes);
    calc {
      Observe(ReplayEntry(e, declines), []);
      { assert ReplayEntry(e, declines) + [] == ReplayEntry(e, declines); }
      Observe(ReplayEntry(e, declines) + [], []);
      { ObserveEntry(e, declines, [], []); }
      Prepend(Observed(level, message, args, [] + Accepted(scopes, declines)), Observe([], []));
      { AcceptedAll(scopes, declines); assert [] + Accepted(scopes, declines) == scopes; }
      Prepend(Observed(level, message, args, scopes), Seen([], []));
    }
  }

  /** The events a logger that accepts every scope sees when the session's three entries are replayed. */
  lemma SessionReplay(q: seq<LogEntry>, declines: Obj -> bool, request: Obj)
    requires q == [LogEntry(Information, "start", [], []), LogEntry(Warning, "slow", [], [request]),
                   LogEntry(Error, "boom", [], [])]
    requires !declines(request)
    ensures Replay(q, declines) == [Event.Log(Information, "start", []), Open(request),
                                    Event.Log(Warning, "slow", []), Close(request), Event.Log(Error, "boom", [])]
  {
    ReplayUnscoped(q[0], declines);
    ReplayUnscoped(q[2], declines);
    ReplayEntryShape(q[1], declines);
    AcceptedAll(q[1].scopes, declines);
    var r1 := ReplayEntry(q[1], declines);
    assert r1 == [Open(request), Event.Log(Warning, "slow", []), Close(request)];
    assert q[1..][0] == q[1] && q[1..][1..] == q[2..] && q[2..][0] == q[2] && q[2..][1..] == [];
    calc {
      Replay(q, declines);
      ReplayEntry(q[0], declines) + Replay(q[1..], declines);
      ReplayEntry(q[0], declines) + (r1 + Replay(q[2..], declines));
      ReplayEntry(q[0], declines) + (r1 + (ReplayEntry(q[2], declines) + Replay([], declines)));
    }
  }

  /**
   * The producer half of a bootstrap session: log "start", begin scope
   * `request`, log "slow" as a warning, dispose the scope, log "boom" as an
   * error. Only the entry logged inside the scope carries it.
   */
  method RecordSession(request: Obj) returns (state: DeferredLogState)
    ensures fresh(state) && fresh(state.logQueue) && state.Valid()
    ensures state.logQueue.entries == [LogEntry(Information, "start", [], []),
                                       LogEntry(Warning, "slow", [], [request]),
                                       LogEntry(Error, "boom", [], [])]
  {
    state := new DeferredLogState();
    var logger := new DeferredLogQueue(state);
    logger.LogInformation("start", []);
    assert state.logQueue.entries == [LogEntry(Information, "start", [], [])];
    var scope := logger.BeginScope(request);
    assert state.ActiveStates() == [request];
    logger.LogWarning("slow", []);
    assert state.logQueue.entries == [LogEntry(Information, "start", [], []), LogEntry(Warning, "slow", [], [request])];
    scope.Dispose();
    assert state.ActiveStates() == [];
    logger.LogError("boom", []);
  }

  /**
   * The session flushed twice to a logger that accepts every scope and
   * never throws: the first flush replays the three entries in order with
   * "slow" inside its scope and empties the queue; the second adds nothing.
   */
  method BootstrapSession(request: Obj) returns (trace: seq<Event>, afterFirst: seq<LogEntry>, outcome: Outcome,
                                                 secondTrace: seq<Event>, secondOutcome: Outcome)
    ensures trace == [Event.Log(Information, "start", []), Open(request), Event.Log(Warning, "slow", []),
                      Close(request), Event.Log(Error, "boom", [])]
    ensures afterFirst == [] && outcome == Completed
    ensures secondTrace == trace && secondOutcome == Completed
  {
    var state := RecordSession(request);
    ghost var q := state.logQueue.entries;
    var sink := new RecordingSink(s => false, (l, m, a) => false);
    outcome := FlushDeferredLogs(sink, state.logQueue);
    assert FirstFailure(q, sink.logThrows) == 3;
    assert q[..3] == q;
    SessionReplay(q, sink.declines, request);
    trace := sink.trace;
    afterFirst := state.logQueue.entries;

    secondOutcome := FlushDeferredLogs(sink, state.logQueue);
    assert afterFirst[..0] == [];
    secondTrace := sink.trace;
  }
}
