/**
 * `MetricsCollector`: a dictionary of named numbers that counters add to and
 * gauges overwrite. Python's ints and floats are both modelled as reals.
 */
module Metrics {

  /** The map after `increment(metric, value)`: an absent metric starts from 0. */
  function Incremented(ms: map<string, real>, metric: string, value: int): (r: map<string, real>)
    ensures metric in r
    ensures r[metric] == (if metric in ms then ms[metric] else 0.0) + value as real
    ensures forall k :: k != metric ==> (k in r <==> k in ms) && (k in ms ==> r[k] == ms[k])
  {
    var start := if metric in ms then ms[metric] else 0.0;
    ms[metric := start + value as real]
  }

  /** The map after `gauge(metric, value)`. */
  function Gauged(ms: map<string, real>, metric: string, value: real): (r: map<string, real>)
    ensures metric in r && r[metric] == value
    ensures forall k :: k != metric ==> (k in r <==> k in ms) && (k in ms ==> r[k] == ms[k])
  {
    ms[metric := value]
  }

  class MetricsCollector {
    var metrics: map<string, real>

    /** A new collector holds no metric. */
    constructor ()
      ensures metrics == map[]
    {
      metrics := map[];
    }

    /** `get_metrics`: the current map. */
    function GetMetrics(): map<string, real>
      reads this
    {
      metrics
    }

    /** `increment`: add `value` (1 by default) to the metric, creating it at 0 first. */
    method Increment(metric: string, value: int := 1)
      modifies this
      ensures GetMetrics() == Incremented(old(GetMetrics()), metric, value)
    {
      if metric !in metrics {
        metrics := metrics[metric := 0.0];
      }
      metrics := metrics[metric := metrics[metric] + value as real];
    }

    /** `gauge`: overwrite the metric. */
    method Gauge(metric: string, value: real)
      modifies this
      ensures GetMetrics() == Gauged(old(GetMetrics()), metric, value)
    {
      metrics := metrics[metric := value];
    }
  }

  /** Increments add up, whatever the metric held before. */
  lemma IncrementsAdd(ms: map<string, real>, metric: string, a: int, b: int)
    ensures Incremented(Incremented(ms, metric, a), metric, b) == Incremented(ms, metric, a + b)
  {
  }

  /** Increments of two metrics commute. */
  lemma IncrementsCommute(ms: map<string, real>, m1: string, a: int, m2: string, b: int)
    ensures Incremented(Incremented(ms, m1, a), m2, b) == Incremented(Incremented(ms, m2, b), m1, a)
  {
    if m1 == m2 {
      IncrementsAdd(ms, m1, a, b);
      IncrementsAdd(ms, m1, b, a);
    }
  }

  /** A gauge forgets what the metric held: the last write wins. */
  lemma GaugeOverwrites(ms: map<string, real>, metric: string, a: real, b: real)
    ensures Gauged(Gauged(ms, metric, a), metric, b) == Gauged(ms, metric, b)
  {
  }

  /** The unit tests' sequences: incrementing by the default 1 and then by 5 gives 6, and
      gauging 10.5 and then 5.2 leaves 5.2. */
  lemma MetricsScenario()
    ensures Incremented(Incremented(map[], "test_metric", 1), "test_metric", 5) == map["test_metric" := 6.0]
    ensures Gauged(Gauged(map[], "test_gauge", 10.5), "test_gauge", 5.2) == map["test_gauge" := 5.2]
  {
    IncrementsAdd(map[], "test_metric", 1, 5);
    GaugeOverwrites(map[], "test_gauge", 10.5, 5.2);
  }
}
