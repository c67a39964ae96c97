/**
 The HTTP/3 budgets for stream resets (`src/h3/mod.rs`): a lifetime count for
 resets this endpoint had to send, and a leaking bucket, here over the reals,
 for streams the peer ended before they were accepted.
 */
module ResetBudget {
  import opened Basics

  const PER_SECOND: real := 50.0
  const EXCESSIVE_LOAD: nat := 0x107

  function Positive(x: real): real {
    if x > 0.0 then x else 0.0
  }

  /** The bucket after one more reset `elapsed` seconds after the last. */
  function Noted(level: real, elapsed: real): real {
    Positive(level - Positive(elapsed) * PER_SECOND) + 1.0
  }

  /** The bucket after the resets at `times`, on a connection opened at `start`. */
  function Level(start: real, times: seq<real>): real
    decreases |times|
  {
    if times == [] then 0.0
    else
      var n := |times| - 1;
      Noted(Level(start, times[..n]), times[n] - if n == 0 then start else times[n - 1])
  }

  lemma LevelAfter(start: real, times: seq<real>, now: real)
    ensures Level(start, times + [now]) ==
            Noted(Level(start, times), now - if times == [] then start else times[|times| - 1])
  {
    hide Noted;
    assert (times + [now])[..|times|] == times;
  }

  /** The seconds from the `i`-th reset to the last that the bucket drained for: a clock that stepped back gives none. */
  function Draining(times: seq<real>, i: nat): real
    requires i < |times|
    decreases |times|
  {
    var n := |times| - 1;
    if i == n then 0.0 else Draining(times[..n], i) + Positive(times[n] - times[n - 1])
  }

  ghost predicate Ordered(times: seq<real>) {
    forall i :: 0 < i < |times| ==> times[i - 1] <= times[i]
  }

  /** With a clock that never steps back it is the time between the two resets. */
  lemma {:induction false} DrainingIsElapsed(times: seq<real>, i: nat)
    requires Ordered(times) && i < |times|
    ensures Draining(times, i) == times[|times| - 1] - times[i]
    decreases |times|
  {
    var n := |times| - 1;
    if i < n {
      DrainingIsElapsed(times[..n], i);
      assert times[n - 1] <= times[n];
    }
  }

  /** The resets from the `i`-th to the last, less what drained between them. */
  function Window(times: seq<real>, i: nat): real
    requires i < |times|
  {
    (|times| - i) as real - 50.0 * Draining(times, i)
  }

  /** One reset later every window has grown by one and drained by the time since. */
  lemma WindowGrows(times: seq<real>, i: nat)
    requires i + 1 < |times|
    ensures var n := |times| - 1;
            Window(times, i) == Window(times[..n], i) + 1.0 - 50.0 * Positive(times[n] - times[n - 1])
  {
  }

  /** The level is the fullest window ending now. */
  lemma {:induction false} LevelIsFullestWindow(start: real, times: seq<real>) returns (best: nat)
    requires times != []
    ensures best < |times| && Level(start, times) == Window(times, best)
    ensures forall i :: 0 <= i < |times| ==> Window(times, i) <= Level(start, times)
    decreases |times|
  {
    var n := |times| - 1;
    best := n;
    assert Window(times, n) == 1.0;
    if n > 0 {
      var before := times[..n];
      var b := LevelIsFullestWindow(start, before);
      var gap := Positive(times[n] - times[n - 1]);
      forall i | 0 <= i < n
        ensures Window(times, i) == Window(before, i) + 1.0 - PER_SECOND * gap && Window(before, i) <= Level(start, before)
      {
        WindowGrows(times, i);
      }
      if Level(start, before) > PER_SECOND * gap {
        best := b;
      }
    } else {
      assert times[..0] == [];
    }
  }

  /** The level passes `max` exactly when some run of resets ending now outnumbers it and what drained meanwhile. */
  lemma OverBudgetMeans(start: real, times: seq<real>, max: real)
    requires times != []
    ensures Level(start, times) > max <==> exists i :: 0 <= i < |times| && Window(times, i) > max
  {
    hide Level, Window;
    var best := LevelIsFullestWindow(start, times);
    if Level(start, times) > max {
      assert Window(times, best) > max;
    }
  }

  datatype Limits = Limits(maxLocalErrors: Option<nat>, maxPending: Option<nat>)

  class ResetState {
    const limits: Limits
    var localErrors: nat
    var level: real
    var since: real
    /** When the connection was opened and when resets were noted. */
    ghost const start: real
    ghost var times: seq<real>

    ghost predicate Valid()
      reads this
    {
      && since == (if times == [] then start else times[|times| - 1])
      && level == Level(start, times)
      && (limits.maxLocalErrors.Some? ==> localErrors <= limits.maxLocalErrors.value)
    }

    constructor (limits: Limits, now: real)
      ensures Valid() && times == [] && this.limits == limits && localErrors == 0 && start == now
    {
      this.limits, localErrors, level, since := limits, 0, 0.0, now;
      start, times := now, [];
    }

    /** `note_local_error_reset`: the budget is spent one by one and never exceeded. */
    method NoteLocalError() returns (r: Option<nat>)
      requires Valid()
      modifies this`localErrors
      ensures Valid()
      ensures r == if limits.maxLocalErrors == Some(old(localErrors)) then Some(0x107) else None
      ensures localErrors == old(localErrors) + if r.None? then 1 else 0
    {
      if limits.maxLocalErrors.Some? && localErrors >= limits.maxLocalErrors.value {
        return Some(EXCESSIVE_LOAD);
      }
      localErrors := localErrors + 1;
      return None;
    }

    /** `note_pending_accept_reset`: the connection is to close exactly when some window of resets is over budget. */
    method NotePendingReset(now: real) returns (r: Option<nat>)
      requires Valid()
      modifies this`level, this`since, this`times
      ensures Valid()
      ensures times == if limits.maxPending.None? then old(times) else old(times) + [now]
      ensures limits.maxPending.None? ==> r == None
      ensures limits.maxPending.Some? ==>
                r == if exists i :: 0 <= i < |times| && Window(times, i) > limits.maxPending.value as real
                     then Some(0x107) else None
    {
      hide Window, Level;
      if limits.maxPending.None? {
        return None;
      }
      var elapsed := Positive(now - since);
      level := Positive(level - elapsed * PER_SECOND) + 1.0;
      since := now;
      LevelAfter(start, times, now);
      times := times + [now];
      OverBudgetMeans(start, times, limits.maxPending.value as real);
      r := if level > limits.maxPending.value as real then Some(EXCESSIVE_LOAD) else None;
    }
  }
}
