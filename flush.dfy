/**
 * Flushing (DeferredLoggerExtensions.cs): drain the shared queue into a real
 * logger, recreating each entry's scopes around its `Log` call.
 */
module Flush {
  import opened LogEntries
  import opened Seqs
  import opened Sink
  import opened Scopes
  import opened State
  import opened ReplaySpec

  /** The exceptions a flush lets escape. */
  datatype Failure =
    | ArgumentNull                  // the logger was null
    | LogFailed(entry: LogEntry)    // the logger's `Log` threw while replaying `entry`

  datatype Outcome = Completed | Threw(failure: Failure)

  /** Position of the first entry whose `Log` call throws, or |q| when none does. */
  function FirstFailure(q: seq<LogEntry>, logThrows: (LogLevel, string, seq<Obj>) -> bool): (n: nat)
    ensures n <= |q|
    ensures forall i :: 0 <= i < n ==> !logThrows(q[i].level, q[i].message, q[i].args)
    ensures n < |q| ==> logThrows(q[n].level, q[n].message, q[n].args)
  {
    if q == [] then 0
    else if logThrows(q[0].level, q[0].message, q[0].args) then 0
    else 1 + FirstFailure(q[1..], logThrows)
  }

  /** How many entries a flush dequeues: all of them, or up to and including the one that threw. */
  function Consumed(q: seq<LogEntry>, logThrows: (LogLevel, string, seq<Obj>) -> bool): nat
  {
    var n := FirstFailure(q, logThrows);
    if n < |q| then n + 1 else n
  }

  /**
   * One turn of `CreateNestedScope`'s `foreach`: begin a scope for `state`
   * and add the handle to the composite unless the logger returned null.
   */
  method OpenInto(logger: RecordingSink, disposables: CompositeDisposable, state: Obj)
    returns (disposable: SinkScope?)
    modifies logger, disposables
    ensures disposable == null <==> logger.declines(state)
    ensures disposable != null ==> fresh(disposable) && disposable.sink == logger && disposable.state == state
    ensures var added := if disposable == null then [] else [disposable];
      disposables.disposables == old(disposables.disposables) + added &&
      logger.issued == old(logger.issued) + added
    ensures logger.trace == old(logger.trace) + if disposable == null then [] else [Open(state)]
    ensures logger.disposed == old(logger.disposed)
  {
    disposable := logger.BeginScope(state);
    if disposable != null {
      disposables.Add(disposable);
    }
  }

  /**
   * Opens `scopes` at `logger` in list order; handles that come back null
   * are not kept, so they are never disposed. The composite holds exactly
   * the handles the logger returned during the call, in that order.
   */
  method CreateNestedScope(logger: RecordingSink, scopes: seq<Obj>) returns (disposables: CompositeDisposable)
    modifies logger
    ensures fresh(disposables)
    ensures HandleStates(disposables.disposables) == Accepted(scopes, logger.declines)
    ensures forall i :: 0 <= i < |disposables.disposables| ==> disposables.disposables[i].sink == logger
    ensures logger.trace == old(logger.trace) + Opens(Accepted(scopes, logger.declines))
    ensures logger.issued == old(logger.issued) + disposables.disposables
    ensures logger.disposed == old(logger.disposed)
  {
    disposables := new CompositeDisposable();
    ghost var accepted: seq<Obj> := [];
    var i := 0;
    while i < |scopes|
      invariant 0 <= i <= |scopes|
      invariant accepted == Accepted(scopes[..i], logger.declines)
      invariant HandleStates(disposables.disposables) == accepted
      invariant OwnedBy(disposables.disposables, logger)
      invariant logger.trace == old(logger.trace) + Opens(accepted)
      invariant logger.issued == old(logger.issued) + disposables.disposables
      invariant logger.disposed == old(logger.disposed)
    {
      var scope := scopes[i];
      AcceptedPrefixStep(scopes, i, logger.declines);
      ghost var handles := disposables.disposables;
      var disposable := OpenInto(logger, disposables, scope);
      if disposable != null {
        HandleStatesSnoc(handles, disposable);
        OwnedBySnoc(handles, disposable, logger);
        OpensSnoc(accepted, scope);
        accepted := accepted + [scope];
      }
      i := i + 1;
    }
    assert scopes[..i] == scopes;
  }

  /**
   * One turn of the flush loop, the `using` block: open the entry's scopes
   * (only when it has any), call `Log` once, then dispose what was opened,
   * whether or not `Log` threw. `ok` is false when `Log` threw.
   */
  method ReplayOne(logger: RecordingSink, entry: LogEntry) returns (ok: bool)
    modifies logger
    ensures ok == !logger.logThrows(entry.level, entry.message, entry.args)
    ensures logger.trace == old(logger.trace) + ReplayEntry(entry, logger.declines)
    ensures old(logger.issued) <= logger.issued
    ensures HandleStates(logger.issued[|old(logger.issued)|..]) == Accepted(entry.scopes, logger.declines)
    ensures logger.disposed == old(logger.disposed) + Reverse(logger.issued[|old(logger.issued)|..])
  {
    ghost var accepted := Accepted(entry.scopes, logger.declines);
    ghost var log := Event.Log(entry.level, entry.message, entry.args);
    var scope: CompositeDisposable? := null;
    if |entry.scopes| > 0 {
      scope := CreateNestedScope(logger, entry.scopes);
    } else {
      assert accepted == [];
      assert logger.issued[|old(logger.issued)|..] == [];
    }
    ghost var afterOpen := logger.trace;
    assert afterOpen == old(logger.trace) + Opens(accepted);
    ok := logger.Log(entry.level, entry.message, entry.args);
    if scope != null {
      assert logger.issued[|old(logger.issued)|..] == scope.disposables;
      scope.Dispose(logger);
      assert logger.trace == afterOpen + [log] + Closes(Reverse(accepted));
    } else {
      assert Opens(accepted) == [] && Closes(Reverse(accepted)) == [];
      assert logger.trace == afterOpen + [log] + Closes(Reverse(accepted));
    }
  }

  /** Replaying one more queued entry extends the trace of the entries replayed so far. */
  lemma TraceStep(t0: seq<Event>, t1: seq<Event>, t2: seq<Event>, q: seq<LogEntry>, k: nat, declines: Obj -> bool)
    requires k < |q|
    requires t1 == t0 + Replay(q[..k], declines)
    requires t2 == t1 + ReplayEntry(q[k], declines)
    ensures t2 == t0 + Replay(q[..k + 1], declines)
  {
    calc {
      t0 + Replay(q[..k + 1], declines);
      { assert q[..k + 1] == q[..k] + [q[k]]; }
      t0 + Replay(q[..k] + [q[k]], declines);
      { ReplayAppend(q[..k], [q[k]], declines); }
      t0 + (Replay(q[..k], declines) + Replay([q[k]], declines));
      { ReplaySingle(q[k], declines); }
      t0 + (Replay(q[..k], declines) + ReplayEntry(q[k], declines));
      t1 + ReplayEntry(q[k], declines);
    }
  }

  /**
   * Since `i0` and `d0` were recorded, the handles disposed are, counted
   * with multiplicity, the handles issued: every scope opened was closed.
   */
  ghost predicate Balanced(i0: seq<SinkScope>, i: seq<SinkScope>, d0: seq<SinkScope>, d: seq<SinkScope>)
  {
    i0 <= i && d0 <= d && multiset(d[|d0|..]) == multiset(i[|i0|..])
  }

  /** One more `using` block, which disposes its own handles in reverse, keeps the flush balanced. */
  lemma BalancedStep(i0: seq<SinkScope>, i1: seq<SinkScope>, i2: seq<SinkScope>,
                     d0: seq<SinkScope>, d1: seq<SinkScope>, d2: seq<SinkScope>)
    requires Balanced(i0, i1, d0, d1)
    requires i1 <= i2 && d2 == d1 + Reverse(i2[|i1|..])
    ensures Balanced(i0, i2, d0, d2)
  {
    var block := i2[|i1|..];
    ReverseMultiset(block);
    assert d2[|d0|..] == d1[|d0|..] + Reverse(block);
    assert i2[|i0|..] == i1[|i0|..] + block;
  }

  /**
   * `FlushDeferredLogs`: a null logger is rejected before anything is
   * dequeued. Otherwise entries leave the queue oldest first; each is
   * replayed (scopes opened, `Log` called once, scopes closed innermost
   * first, also when `Log` throws). A throwing `Log` ends the flush with
   * its entry already gone and the later entries still queued.
   */
  method FlushDeferredLogs(logger: RecordingSink?, queue: LogQueue) returns (outcome: Outcome)
    modifies queue, logger
    ensures logger == null ==> outcome == Threw(ArgumentNull) && queue.entries == old(queue.entries)
    ensures logger != null ==>
      var q, n := old(queue.entries), FirstFailure(old(queue.entries), logger.logThrows);
      var m := Consumed(q, logger.logThrows);
      queue.entries == q[m..] &&
      logger.trace == old(logger.trace) + Replay(q[..m], logger.declines) &&
      outcome == (if n < |q| then Threw(LogFailed(q[n])) else Completed)
    ensures logger != null ==> Balanced(old(logger.issued), logger.issued, old(logger.disposed), logger.disposed)
  {
    if logger == null {
      return Threw(ArgumentNull);
    }
    ghost var q := queue.entries;
    ghost var n := FirstFailure(q, logger.logThrows);
    ghost var k := 0;
    assert Balanced(logger.issued, logger.issued, logger.disposed, logger.disposed);
    while true
      invariant 0 <= k <= n
      invariant queue.entries == q[k..]
      invariant logger.trace == old(logger.trace) + Replay(q[..k], logger.declines)
      invariant Balanced(old(logger.issued), logger.issued, old(logger.disposed), logger.disposed)
      decreases |queue.entries|
    {
      var next := queue.TryDequeue();
      if next.None? {
        break;
      }
      var entry := next.value;
      assert entry == q[k] && queue.entries == q[k + 1..];
      ghost var before, issued, disposed := logger.trace, logger.issued, logger.disposed;
      var ok := ReplayOne(logger, entry);
      TraceStep(old(logger.trace), before, logger.trace, q, k, logger.declines);
      BalancedStep(old(logger.issued), issued, logger.issued, old(logger.disposed), disposed, logger.disposed);
      k := k + 1;
      if !ok {
        assert Consumed(q, logger.logThrows) == k by {
          assert k - 1 == n;
        }
        return Threw(LogFailed(entry));
      }
    }
    assert k == |q| == n;
    assert q[..k] == q;
    return Completed;
  }
}
