/**
  `latency_history`, a `deque(maxlen=60)` of latency measurements that
  `track_latency` appends to every 30 seconds. A full deque drops its oldest
  entry on append. Measurements are integers here.
 */
module Latency {
  /** The deque's `maxlen`. */
  const MaxLen: nat := 60

  /** The deque's contents, oldest first; it never holds more than `MaxLen` entries. */
  type Samples = s: seq<int> | |s| <= MaxLen

  /** `latency_history.append(x)`. */
  function Appended(s: Samples, x: int): (r: Samples)
    ensures 0 < |r| <= 60 && r[|r| - 1] == x
    ensures |s| < 60 ==> r == s + [x]
    ensures |s| == 60 ==> |r| == 60 && r[..59] == s[1..]
  {
    if |s| < MaxLen then s + [x] else s[1..] + [x]
  }

  /** Reference definition: the most recent `MaxLen` of all measurements ever taken. */
  function Window(all: seq<int>): (r: Samples) {
    if |all| <= MaxLen then all else all[|all| - MaxLen..]
  }

  /** The deque after appending each of `xs` in turn. */
  function AppendedAll(s: Samples, xs: seq<int>): Samples
    decreases |xs|
  {
    if xs == [] then s else AppendedAll(Appended(s, xs[0]), xs[1..])
  }

  /** One append keeps exactly the last 60 of what was there plus the new value. */
  lemma AppendedIsWindow(s: Samples, x: int)
    ensures Appended(s, x) == Window(s + [x])
  {
  }

  /** Windowing forgets only what is older than the window: the window of a window extended by `rest` is the window of the whole history extended by `rest`. */
  lemma WindowOfWindow(all: seq<int>, rest: seq<int>)
    ensures Window(Window(all) + rest) == Window(all + rest)
  {
    if |all| > MaxLen {
      var k := |all| - MaxLen;
      assert all + rest == all[..k] + (all[k..] + rest);
    }
  }

  /** However many measurements are appended, the deque holds the last 60 of the whole history, in order. */
  lemma {:induction false} AppendedAllIsWindow(s: Samples, xs: seq<int>)
    ensures AppendedAll(s, xs) == Window(s + xs)
    decreases |xs|
  {
    if xs == [] {
      assert s + xs == s;
    } else {
      AppendedIsWindow(s, xs[0]);
      AppendedAllIsWindow(Appended(s, xs[0]), xs[1..]);
      WindowOfWindow(s + [xs[0]], xs[1..]);
      assert s + [xs[0]] + xs[1..] == s + xs;
    }
  }

  /** The graph data of the status page: the stored history, or just the current reading while it is empty. */
  function GraphData(history: Samples, current: int): seq<int> {
    if history != [] then history else [current]
  }

  /** From an empty deque, the graph shows the last 60 readings taken, or only the current one before the first reading. */
  lemma GraphOfReadings(xs: seq<int>, current: int)
    ensures GraphData(AppendedAll([], xs), current) == (if xs == [] then [current] else Window(xs))
  {
    AppendedAllIsWindow([], xs);
    assert [] + xs == xs;
  }

  /** The module-level deque. */
  class LatencyHistory {
    var samples: Samples

    constructor ()
      ensures samples == []
    {
      samples := [];
    }

    /** One `latency_history.append(latency_ms)` of `track_latency`. */
    method Append(x: int)
      modifies this
      ensures samples == Appended(old(samples), x)
    {
      if |samples| < MaxLen {
        samples := samples + [x];
      } else {
        samples := samples[1..] + [x];
      }
    }

    /** The `track_latency` loop run for the given readings, one per 30-second tick. */
    method Track(readings: seq<int>)
      modifies this
      ensures samples == Window(old(samples) + readings)
    {
      ghost var start := samples;
      for i := 0 to |readings|
        invariant samples == Window(start + readings[..i])
      {
        ghost var before := samples;
        Append(readings[i]);
        AppendedIsWindow(before, readings[i]);
        WindowOfWindow(start + readings[..i], [readings[i]]);
        assert start + readings[..i + 1] == start + readings[..i] + [readings[i]];
      }
      assert readings[..|readings|] == readings;
    }
  }
}
