/** The narrow metrics interface the lookup core consumes: named event
    counters and named latency recordings. Durations come from a clock and
    are not modelled; a latency recording is logged by its name only. */
module Metrics {

  /** The value of a named counter; a counter never incremented reads 0. */
  function Count(counters: map<string, nat>, name: string): nat
  {
    if name in counters then counters[name] else 0
  }

  /** The counters after one increment of `name`. */
  function Increment(counters: map<string, nat>, name: string): (r: map<string, nat>)
    ensures Count(r, name) == Count(counters, name) + 1
    ensures forall other :: other != name ==> Count(r, other) == Count(counters, other)
  {
    counters[name := Count(counters, name) + 1]
  }

  /** The counters after `n` increments of `name`; no increment changes nothing. */
  function IncrementBy(counters: map<string, nat>, name: string, n: nat): (r: map<string, nat>)
    ensures Count(r, name) == Count(counters, name) + n
    ensures forall other :: other != name ==> Count(r, other) == Count(counters, other)
    ensures n == 0 ==> r == counters
  {
    if n == 0 then counters else counters[name := Count(counters, name) + n]
  }

  /** One more increment of `name` after `n` of them is `n + 1` of them. */
  lemma IncrementAfterIncrementBy(counters: map<string, nat>, name: string, n: nat)
    ensures Increment(IncrementBy(counters, name, n), name) == IncrementBy(counters, name, n + 1)
  {
  }

  /** The metrics recorder shared by all calls of a server: the event
      counters it holds and the names of the latencies recorded so far. */
  class MetricsRecorder {
    var counters: map<string, nat>
    var latencies: seq<string>

    constructor ()
      ensures counters == map[] && latencies == []
    {
      counters := map[];
      latencies := [];
    }

    method IncrementEventCounter(name: string)
      modifies this
      ensures counters == Increment(old(counters), name)
      ensures latencies == old(latencies)
    {
      counters := Increment(counters, name);
    }

    method RecordLatency(name: string)
      modifies this
      ensures latencies == old(latencies) + [name]
      ensures counters == old(counters)
    {
      latencies := latencies + [name];
    }
  }
}
