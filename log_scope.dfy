/**
 * Scope handles (LogScope.cs): the deferred logger's own `LogScope`, the
 * .NET `Stack<IDisposable>` it pops, and `CompositeDisposable`, which the
 * flush uses to close the scopes it opened at the real logger.
 */
module Scopes {
  import opened LogEntries
  import opened Seqs
  import opened Sink

  /** A `Stack<IDisposable>` of scope handles; `items` lists the bottom first, so the top is last. */
  class ScopeStack {
    var items: seq<LogScope>

    constructor ()
      ensures items == []
    {
      items := [];
    }

    function Count(): nat
      reads this
    {
      |items|
    }

    method Push(scope: LogScope)
      modifies this
      ensures items == old(items) + [scope]
    {
      items := items + [scope];
    }

    /** `Stack.Pop` throws on an empty stack; its one caller checks `Count` first. */
    method Pop() returns (top: LogScope)
      requires items != []
      modifies this
      ensures top == old(items)[|old(items)| - 1]
      ensures items == old(items)[..|old(items)| - 1]
    {
      top := items[|items| - 1];
      items := items[..|items| - 1];
    }

    /** The order in which enumerating a `Stack` yields its items: top first. */
    function Enumerate(): (r: seq<LogScope>)
      reads this
      ensures |r| == |items|
      ensures forall i :: 0 <= i < |items| ==> r[i] == items[|items| - 1 - i]
    {
      Reverse(items)
    }
  }

  /** `LogScope<TState>`: a non-null state and the stack the scope was pushed on. */
  class LogScope {
    const state: Obj
    const scopes: ScopeStack

    constructor (state: Obj, scopes: ScopeStack)
      ensures this.state == state && this.scopes == scopes
    {
      this.state := state;
      this.scopes := scopes;
    }

    /** `ILogScope.GetState`. */
    function GetState(): Obj
    {
      state
    }

    /**
     * Ends "the" scope by popping the top of the stack, whichever scope
     * that is: there is no check that the top is this handle.
     */
    method Dispose()
      modifies scopes
      ensures old(scopes.items) == [] ==> scopes.items == []
      ensures old(scopes.items) != [] ==> scopes.items == old(scopes.items)[..|old(scopes.items)| - 1]
    {
      if scopes.Count() > 0 {
        var _ := scopes.Pop();
      }
    }
  }

  /** The states of the scopes on a stack, in the stack's bottom-to-top order. */
  function States(handles: seq<LogScope>): seq<Obj>
  {
    seq(|handles|, i requires 0 <= i < |handles| => handles[i].GetState())
  }

  /** Disposes the handles added to it, last added first. */
  class CompositeDisposable {
    var disposables: seq<SinkScope>

    constructor ()
      ensures disposables == []
    {
      disposables := [];
    }

    method Add(disposable: SinkScope)
      modifies this
      ensures disposables == old(disposables) + [disposable]
    {
      disposables := disposables + [disposable];
    }

    /**
     * Every handle is disposed exactly once, in reverse order of addition.
     * All handles belong to `sink`, the one logger the flush opened them at.
     */
    method Dispose(ghost sink: RecordingSink)
      requires forall i :: 0 <= i < |disposables| ==> disposables[i].sink == sink
      modifies sink
      ensures sink.trace == old(sink.trace) + Closes(Reverse(HandleStates(disposables)))
      ensures sink.disposed == old(sink.disposed) + Reverse(disposables)
      ensures sink.issued == old(sink.issued)
    {
      var i := |disposables|;
      while i > 0
        invariant 0 <= i <= |disposables|
        invariant sink.trace == old(sink.trace) + Closes(Reverse(HandleStates(disposables[i..])))
        invariant sink.disposed == old(sink.disposed) + Reverse(disposables[i..])
        invariant sink.issued == old(sink.issued)
      {
        ghost var done, handles := Reverse(HandleStates(disposables[i..])), Reverse(disposables[i..]);
        i := i - 1;
        disposables[i].Dispose();
        assert Reverse(HandleStates(disposables[i..])) == done + [disposables[i].state];
        assert Reverse(disposables[i..]) == handles + [disposables[i]];
      }
    }
  }
}
