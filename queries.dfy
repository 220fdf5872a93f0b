/**
 * The static query facade (Logger.cs): read-only LINQ `Any`/`Where`/`Select`
 * over the shared queue. Each query is a function of the queue's current
 * value, so asking never changes what a later flush replays.
 */
module Queries {
  import opened LogEntries

  /** `HasEntries(level)`: `Any(entry => entry.Level == level)`. */
  function HasEntries(q: seq<LogEntry>, level: LogLevel): (r: bool)
    ensures r <==> exists i :: 0 <= i < |q| && q[i].level == level
  {
    if q == [] then false
    else q[0].level == level || HasEntries(q[1..], level)
  }

  /** `HasErrors()`: the same `Any`, written out for `Error`. */
  function HasErrors(q: seq<LogEntry>): (r: bool)
    ensures r <==> exists i :: 0 <= i < |q| && q[i].level == Error
  {
    if q == [] then false
    else q[0].level == Error || HasErrors(q[1..])
  }

  /** `GetAll(level)`: `Where(entry.Level == level).Select((entry.Level, entry.Message))`. */
  function GetAllAt(q: seq<LogEntry>, level: LogLevel): (r: seq<(LogLevel, string)>)
    ensures |r| <= |q|
    ensures forall i :: 0 <= i < |r| ==> r[i].0 == level
  {
    if q == [] then []
    else if q[0].level == level then [(q[0].level, q[0].message)] + GetAllAt(q[1..], level)
    else GetAllAt(q[1..], level)
  }

  /** `GetErrors()`: `Where(entry.Level == Error).Select(entry.Message)`. */
  function GetErrors(q: seq<LogEntry>): (r: seq<string>)
    ensures |r| <= |q|
  {
    if q == [] then []
    else if q[0].level == Error then [q[0].message] + GetErrors(q[1..])
    else GetErrors(q[1..])
  }

  /** `GetAll()`: `Select((entry.Level, entry.Message))`, one pair per entry, in queue order. */
  function GetAll(q: seq<LogEntry>): (r: seq<(LogLevel, string)>)
    ensures |r| == |q|
    ensures forall i :: 0 <= i < |q| ==> r[i] == (q[i].level, q[i].message)
  {
    if q == [] then [] else [(q[0].level, q[0].message)] + GetAll(q[1..])
  }

  /** The levels of a queue, in order. */
  function Levels(q: seq<LogEntry>): seq<LogLevel>
  {
    seq(|q|, i requires 0 <= i < |q| => q[i].level)
  }

  /** The message component of each pair. */
  function Messages(pairs: seq<(LogLevel, string)>): seq<string>
  {
    seq(|pairs|, i requires 0 <= i < |pairs| => pairs[i].1)
  }

  /** `HasErrors()` and `HasEntries(Error)` always agree. */
  lemma {:induction false} HasErrorsIsHasEntriesError(q: seq<LogEntry>)
    ensures HasErrors(q) == HasEntries(q, Error)
  {
    if q != [] {
      HasErrorsIsHasEntriesError(q[1..]);
    }
  }

  /** `GetErrors()` is the message projection of `GetAll(Error)`. */
  lemma {:induction false} GetErrorsIsMessagesOfGetAllAt(q: seq<LogEntry>)
    ensures GetErrors(q) == Messages(GetAllAt(q, Error))
  {
    if q != [] {
      GetErrorsIsMessagesOfGetAllAt(q[1..]);
      if q[0].level == Error {
        assert Messages(GetAllAt(q, Error)) == [q[0].message] + Messages(GetAllAt(q[1..], Error));
      }
    }
  }

  /** There is something at `level` exactly when `GetAll(level)` yields something. */
  lemma {:induction false} HasEntriesIffGetAllAtNonEmpty(q: seq<LogEntry>, level: LogLevel)
    ensures HasEntries(q, level) <==> GetAllAt(q, level) != []
  {
    if q != [] {
      HasEntriesIffGetAllAtNonEmpty(q[1..], level);
    }
  }

  /** `GetAll(level)` keeps queue order: filtering a concatenation concatenates the filters. */
  lemma {:induction false} GetAllAtAppend(a: seq<LogEntry>, b: seq<LogEntry>, level: LogLevel)
    ensures GetAllAt(a + b, level) == GetAllAt(a, level) + GetAllAt(b, level)
  {
    if a == [] {
      assert a + b == b;
    } else {
      assert (a + b)[1..] == a[1..] + b;
      GetAllAtAppend(a[1..], b, level);
    }
  }

  /** `GetAll(level)` yields one pair per entry at `level`: as many as the queue holds at that level. */
  lemma {:induction false} GetAllAtCount(q: seq<LogEntry>, level: LogLevel)
    ensures |GetAllAt(q, level)| == multiset(Levels(q))[level]
  {
    if q != [] {
      GetAllAtCount(q[1..], level);
      assert Levels(q) == [q[0].level] + Levels(q[1..]);
    }
  }

  /** A pair is yielded by `GetAll(level)` exactly when some entry at `level` has that message. */
  lemma {:induction false} GetAllAtMembers(q: seq<LogEntry>, level: LogLevel, message: string)
    ensures (level, message) in GetAllAt(q, level) <==>
      exists i :: 0 <= i < |q| && q[i].level == level && q[i].message == message
  {
    if q != [] {
      GetAllAtMembers(q[1..], level, message);
      if (exists i :: 0 <= i < |q| && q[i].level == level && q[i].message == message) {
        var i :| 0 <= i < |q| && q[i].level == level && q[i].message == message;
        if i > 0 {
          assert q[1..][i - 1] == q[i];
        }
      }
      if (exists i :: 0 <= i < |q[1..]| && q[1..][i].level == level && q[1..][i].message == message) {
        var i :| 0 <= i < |q[1..]| && q[1..][i].level == level && q[1..][i].message == message;
        assert q[i + 1] == q[1..][i];
      }
    }
  }

  /** `GetAll(level)` is `GetAll()` with the pairs at other levels removed, in order. */
  lemma {:induction false} GetAllAtFiltersGetAll(q: seq<LogEntry>, level: LogLevel)
    ensures GetAllAt(q, level) == KeepLevel(GetAll(q), level)
  {
    if q != [] {
      GetAllAtFiltersGetAll(q[1..], level);
      assert GetAll(q) == [(q[0].level, q[0].message)] + GetAll(q[1..]);
    }
  }

  /** Order-preserving filter of pairs by level. */
  function KeepLevel(pairs: seq<(LogLevel, string)>, level: LogLevel): seq<(LogLevel, string)>
  {
    if pairs == [] then []
    else if pairs[0].0 == level then [pairs[0]] + KeepLevel(pairs[1..], level)
    else KeepLevel(pairs[1..], level)
  }

  /** Entries made by producers are never at `None`, so `HasEntries(None)` is false on such a queue. */
  lemma NoneNeverQueued(q: seq<LogEntry>)
    requires forall i :: 0 <= i < |q| ==> IsProducerLevel(q[i].level)
    ensures !HasEntries(q, LogLevel.None) && GetAllAt(q, LogLevel.None) == []
  {
    HasEntriesIffGetAllAtNonEmpty(q, LogLevel.None);
  }
}
