/**
 * What a flush should make the real logger observe. `ReplayEntry` is the
 * event trace for one entry and `Replay` for a queue; `Observe` is an
 * independent reading of a trace that keeps the logger's own stack of open
 * scopes and records, for every `Log`, which scopes were open around it.
 */
module ReplaySpec {
  import opened LogEntries
  import opened Seqs
  import opened Sink

  /** The scopes the logger actually opens: those whose `BeginScope` does not return null. */
  function Accepted(scopes: seq<Obj>, declines: Obj -> bool): (r: seq<Obj>)
    ensures |r| <= |scopes|
    ensures forall i :: 0 <= i < |r| ==> !declines(r[i])
  {
    if scopes == [] then []
    else
      var last := scopes[|scopes| - 1];
      Accepted(scopes[..|scopes| - 1], declines) + (if declines(last) then [] else [last])
  }

  /** Extending the scope list by one state opens that state too, unless the logger declines it. */
  lemma AcceptedPrefixStep(scopes: seq<Obj>, i: nat, declines: Obj -> bool)
    requires i < |scopes|
    ensures Accepted(scopes[..i + 1], declines) ==
      Accepted(scopes[..i], declines) + (if declines(scopes[i]) then [] else [scopes[i]])
  {
    assert scopes[..i + 1][..i] == scopes[..i];
  }

  /** A state is opened exactly when it is among the entry's scopes and the logger does not decline it. */
  lemma {:induction false} AcceptedMembers(scopes: seq<Obj>, declines: Obj -> bool, x: Obj)
    ensures x in Accepted(scopes, declines) <==> x in scopes && !declines(x)
  {
    if scopes != [] {
      var init := scopes[..|scopes| - 1];
      AcceptedMembers(init, declines, x);
      assert scopes == init + [scopes[|scopes| - 1]];
    }
  }

  /** When the logger declines none of them, every scope is opened. */
  lemma {:induction false} AcceptedAll(scopes: seq<Obj>, declines: Obj -> bool)
    requires forall i :: 0 <= i < |scopes| ==> !declines(scopes[i])
    ensures Accepted(scopes, declines) == scopes
  {
    if scopes != [] {
      var init := scopes[..|scopes| - 1];
      AcceptedAll(init, declines);
      assert scopes == init + [scopes[|scopes| - 1]];
    }
  }

  /** Open the accepted scopes in list order, log once, close them innermost first. */
  function ReplayEntry(e: LogEntry, declines: Obj -> bool): seq<Event>
  {
    var accepted := Accepted(e.scopes, declines);
    Opens(accepted) + [Event.Log(e.level, e.message, e.args)] + Closes(Reverse(accepted))
  }

  /** The entries replayed one after another, in queue order. */
  function Replay(q: seq<LogEntry>, declines: Obj -> bool): seq<Event>
  {
    if q == [] then [] else ReplayEntry(q[0], declines) + Replay(q[1..], declines)
  }

  lemma {:induction false} ReplayAppend(a: seq<LogEntry>, b: seq<LogEntry>, declines: Obj -> bool)
    ensures Replay(a + b, declines) == Replay(a, declines) + Replay(b, declines)
  {
    if a == [] {
      assert a + b == b;
    } else {
      assert (a + b)[1..] == a[1..] + b;
      ReplayAppend(a[1..], b, declines);
    }
  }

  lemma ReplaySingle(e: LogEntry, declines: Obj -> bool)
    ensures Replay([e], declines) == ReplayEntry(e, declines)
  {
    assert [e][1..] == [];
    assert Replay([e], declines) == ReplayEntry(e, declines) + Replay([], declines);
  }

  /**
   * The order the logger sees for one entry: with `n` opened scopes
   * `s1..sn`, events 0..n-1 are `Open(s1)..Open(sn)`, event `n` is the
   * `Log`, and events n+1..2n are `Close(sn)..Close(s1)`: event `j` past
   * the `Log` closes `s[2n - j]`.
   */
  lemma ReplayEntryShape(e: LogEntry, declines: Obj -> bool)
    ensures var s := Accepted(e.scopes, declines);
      var r := ReplayEntry(e, declines);
      |r| == 2 * |s| + 1 &&
      (forall i :: 0 <= i < |s| ==> r[i] == Open(s[i])) &&
      r[|s|] == Event.Log(e.level, e.message, e.args) &&
      (forall j :: |s| < j < |r| ==> r[j] == Close(s[2 * |s| - j]))
  {
    var s := Accepted(e.scopes, declines);
    var r := ReplayEntry(e, declines);
    forall j | |s| < j < |r| ensures r[j] == Close(s[2 * |s| - j]) {
      assert r[j] == Closes(Reverse(s))[j - |s| - 1];
    }
  }

  /** An entry without scopes is replayed as a single `Log` call. */
  lemma ReplayUnscoped(e: LogEntry, declines: Obj -> bool)
    requires e.scopes == []
    ensures ReplayEntry(e, declines) == [Event.Log(e.level, e.message, e.args)]
  {
    assert Opens([]) == [] && Closes(Reverse<Obj>([])) == [];
  }

  // ---------------------------------------------------------------------
  // Reading a trace as the logger's scope semantics

  /** A `Log` call as the logger saw it, with the scopes open around it, outermost first. */
  datatype Observed = Observed(level: LogLevel, message: string, args: seq<Obj>, scopes: seq<Obj>)

  /** `Mismatch`: some `Close` did not end the innermost open scope. */
  datatype Observation = Mismatch | Seen(logs: seq<Observed>, open: seq<Obj>)

  function Prepend(o: Observed, rest: Observation): Observation
  {
    match rest
    case Mismatch => Mismatch
    case Seen(logs, open) => Seen([o] + logs, open)
  }

  /** Reads `t` starting with `open` scopes open; closes must be last-in, first-out. */
  function Observe(t: seq<Event>, open: seq<Obj>): Observation
  {
    if t == [] then Seen([], open)
    else
      match t[0]
      case Open(s) => Observe(t[1..], open + [s])
      case Log(level, message, args) => Prepend(Observed(level, message, args, open), Observe(t[1..], open))
      case Close(s) =>
        if open != [] && open[|open| - 1] == s then Observe(t[1..], open[..|open| - 1]) else Mismatch
  }

  lemma {:induction false} ObserveOpens(xs: seq<Obj>, rest: seq<Event>, open: seq<Obj>)
    ensures Observe(Opens(xs) + rest, open) == Observe(rest, open + xs)
    decreases |xs|
  {
    if xs == [] {
      assert Opens(xs) + rest == rest;
      assert open + xs == open;
    } else {
      var t := Opens(xs) + rest;
      assert t[0] == Open(xs[0]);
      assert t[1..] == Opens(xs[1..]) + rest;
      ObserveOpens(xs[1..], rest, open + [xs[0]]);
      assert open + [xs[0]] + xs[1..] == open + xs;
    }
  }

  lemma {:induction false} ObserveCloses(xs: seq<Obj>, rest: seq<Event>, open: seq<Obj>)
    ensures Observe(Closes(Reverse(xs)) + rest, open + xs) == Observe(rest, open)
    decreases |xs|
  {
    if xs == [] {
      assert Closes(Reverse(xs)) + rest == rest;
      assert open + xs == open;
    } else {
      var init, last := xs[..|xs| - 1], xs[|xs| - 1];
      var t := Closes(Reverse(xs)) + rest;
      assert t[0] == Close(last);
      assert t[1..] == Closes(Reverse(init)) + rest;
      var o := open + xs;
      assert o[|o| - 1] == last;
      assert o[..|o| - 1] == open + init;
      ObserveCloses(init, rest, open);
    }
  }

  /** One replayed entry is seen with exactly its accepted scopes open, and leaves none open. */
  lemma ObserveEntry(e: LogEntry, declines: Obj -> bool, rest: seq<Event>, open: seq<Obj>)
    ensures Observe(ReplayEntry(e, declines) + rest, open) ==
      Prepend(Observed(e.level, e.message, e.args, open + Accepted(e.scopes, declines)), Observe(rest, open))
  {
    var s := Accepted(e.scopes, declines);
    var log := Event.Log(e.level, e.message, e.args);
    var closing := Closes(Reverse(s)) + rest;
    var tail := [log] + closing;
    calc {
      Observe(ReplayEntry(e, declines) + rest, open);
      { assert ReplayEntry(e, declines) + rest == Opens(s) + tail; }
      Observe(Opens(s) + tail, open);
      { ObserveOpens(s, tail, open); }
      Observe(tail, open + s);
      { assert tail[0] == log && tail[1..] == closing; }
      Prepend(Observed(e.level, e.message, e.args, open + s), Observe(closing, open + s));
      { ObserveCloses(s, rest, open); }
      Prepend(Observed(e.level, e.message, e.args, open + s), Observe(rest, open));
    }
  }

  /**
   * How the logger sees the queue `q` replayed: each entry once, in order,
   * inside those of its captured scopes the logger opened.
   */
  function Expected(q: seq<LogEntry>, declines: Obj -> bool, open: seq<Obj>): seq<Observed>
  {
    seq(|q|, i requires 0 <= i < |q| =>
      Observed(q[i].level, q[i].message, q[i].args, open + Accepted(q[i].scopes, declines)))
  }

  /**
   * The replay of a whole queue is well nested: no close ever ends a scope
   * other than the innermost, every entry's `Log` happens inside exactly
   * the scopes it captured (less those the logger declined), and no scope
   * is left open afterwards.
   */
  lemma {:induction false} ObserveReplay(q: seq<LogEntry>, declines: Obj -> bool, open: seq<Obj>)
    ensures Observe(Replay(q, declines), open) == Seen(Expected(q, declines, open), open)
  {
    if q == [] {
      assert Expected(q, declines, open) == [];
    } else {
      ObserveEntry(q[0], declines, Replay(q[1..], declines), open);
      ObserveReplay(q[1..], declines, open);
      var head := Observed(q[0].level, q[0].message, q[0].args, open + Accepted(q[0].scopes, declines));
      assert Expected(q, declines, open) == [head] + Expected(q[1..], declines, open);
    }
  }
}
