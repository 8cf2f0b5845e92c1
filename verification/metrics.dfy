/**
 * Per-tool execution counters (`ToolMetrics`) and the per-agent table of
 * them, keyed by tool name, with `defaultdict` semantics.
 */
module Metrics {
  import opened Wrappers
  import opened Text

  /** Durations are whole milliseconds here; the program measures them as floats. */
  datatype ToolMetrics = ToolMetrics(
    totalCalls: nat,
    successfulCalls: nat,
    failedCalls: nat,
    totalDuration: nat,
    minDuration: Option<nat>,
    maxDuration: Option<nat>)

  /** A freshly created record, as `defaultdict(ToolMetrics)` makes one. */
  const Fresh: ToolMetrics := ToolMetrics(0, 0, 0, 0, None, None)

  /** The counters agree with each other; true of `Fresh` and kept by every recording. */
  predicate Consistent(m: ToolMetrics) {
    && m.totalCalls == m.successfulCalls + m.failedCalls
    && (m.totalCalls == 0 <==> m.minDuration.None?)
    && (m.minDuration.None? <==> m.maxDuration.None?)
    && (m.minDuration.Some? ==> m.minDuration.value <= m.maxDuration.value)
  }

  /** `record_execution` */
  function RecordExecution(m: ToolMetrics, duration: nat, isError: bool): (r: ToolMetrics)
    ensures r.totalCalls == m.totalCalls + 1
    ensures r.failedCalls == m.failedCalls + (if isError then 1 else 0)
    ensures r.successfulCalls == m.successfulCalls + (if isError then 0 else 1)
    ensures r.totalDuration == m.totalDuration + duration
    ensures r.minDuration.Some? && r.minDuration.value <= duration
    ensures r.maxDuration.Some? && duration <= r.maxDuration.value
    ensures m.minDuration.Some? ==> r.minDuration.value <= m.minDuration.value
    ensures m.maxDuration.Some? ==> m.maxDuration.value <= r.maxDuration.value
    ensures Consistent(m) ==> Consistent(r)
  {
    var lo := if m.minDuration.None? || duration < m.minDuration.value then Some(duration) else m.minDuration;
    var hi := if m.maxDuration.None? || duration > m.maxDuration.value then Some(duration) else m.maxDuration;
    m.(totalCalls := m.totalCalls + 1,
       totalDuration := m.totalDuration + duration,
       failedCalls := if isError then m.failedCalls + 1 else m.failedCalls,
       successfulCalls := if isError then m.successfulCalls else m.successfulCalls + 1,
       minDuration := lo,
       maxDuration := hi)
  }

  /** Recording is order-independent, so concurrent calls may finish in any order. */
  lemma RecordExecutionCommutes(m: ToolMetrics, d1: nat, e1: bool, d2: nat, e2: bool)
    ensures RecordExecution(RecordExecution(m, d1, e1), d2, e2) == RecordExecution(RecordExecution(m, d2, e2), d1, e1)
  {
  }

  /** One recorded execution: its duration and whether it failed. */
  datatype Execution = Execution(duration: nat, isError: bool)

  function Replay(m: ToolMetrics, xs: seq<Execution>): ToolMetrics
    decreases |xs|
  {
    if |xs| == 0 then m else Replay(RecordExecution(m, xs[0].duration, xs[0].isError), xs[1..])
  }

  function Failures(xs: seq<Execution>): nat
    decreases |xs|
  {
    if |xs| == 0 then 0 else (if xs[0].isError then 1 else 0) + Failures(xs[1..])
  }

  /**
   * After any sequence of recordings from a fresh record: the counters add
   * up, the failures are counted, and every duration lies between the
   * recorded minimum and maximum.
   */
  lemma {:induction false} ReplayFacts(m: ToolMetrics, xs: seq<Execution>)
    requires Consistent(m)
    ensures var r := Replay(m, xs);
      && Consistent(r)
      && r.totalCalls == m.totalCalls + |xs|
      && r.failedCalls == m.failedCalls + Failures(xs)
      && (|xs| > 0 ==> r.minDuration.Some?)
      && (forall i :: 0 <= i < |xs| ==> r.minDuration.value <= xs[i].duration <= r.maxDuration.value)
      && (m.minDuration.Some? ==> r.minDuration.value <= m.minDuration.value <= m.maxDuration.value <= r.maxDuration.value)
    decreases |xs|
  {
    if |xs| > 0 {
      var m1 := RecordExecution(m, xs[0].duration, xs[0].isError);
      ReplayFacts(m1, xs[1..]);
      var r := Replay(m, xs);
      forall i | 0 <= i < |xs|
        ensures r.minDuration.value <= xs[i].duration <= r.maxDuration.value
      {
        if i > 0 {
          assert xs[i] == xs[1..][i - 1];
        }
      }
    }
  }

  /** The agent's table of records, one per tool name that was ever recorded. */
  type MetricsTable = map<String, ToolMetrics>

  /** `tool_metrics[name]` with `defaultdict` semantics. */
  function Lookup(t: MetricsTable, name: String): ToolMetrics {
    if name in t then t[name] else Fresh
  }

  /** `tool_metrics[name].record_execution(duration, is_error)` */
  function RecordFor(t: MetricsTable, name: String, duration: nat, isError: bool): (r: MetricsTable)
    ensures name in r && r[name] == RecordExecution(Lookup(t, name), duration, isError)
    ensures forall n :: n != name ==> Lookup(r, n) == Lookup(t, n)
  {
    t[name := RecordExecution(Lookup(t, name), duration, isError)]
  }

  /** `get_tool_metrics`: the records of the tools that were called at least once. */
  function CalledTools(t: MetricsTable): (r: MetricsTable)
    ensures forall n :: n in r <==> n in t && t[n].totalCalls > 0
    ensures forall n :: n in r ==> r[n] == t[n]
  {
    map n | n in t && t[n].totalCalls > 0 :: t[n]
  }

  /** A recorded tool always shows up in the report. */
  lemma RecordedIsReported(t: MetricsTable, name: String, duration: nat, isError: bool)
    ensures name in CalledTools(RecordFor(t, name, duration, isError))
  {
  }

  /** The report's text for an optional minimum or maximum. */
  function DurationText(d: Option<nat>): (s: String)
    ensures d.None? <==> s == "N/A"
  {
    match d
    case None => "N/A"
    case Some(v) =>
      var t := NatToString(v);
      assert t[0] != 'N';
      t
  }
}
