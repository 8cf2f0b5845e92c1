/**
 * Running the tool calls of one model response: look the tool up by name,
 * run it, turn whatever happens into a `tool_result` block, and record the
 * call in the agent's metrics.
 */
module Dispatch {
  import opened Wrappers
  import opened Text
  import opened Conversation
  import opened Metrics

  /**
   * What awaiting a tool's `execute` produces: a value (already `str()`-ed;
   * `None` when the tool returned nothing) or one of the exception kinds
   * the dispatcher tells apart, with `str(e)`.
   */
  datatype Outcome =
    | Returned(value: Option<String>)
    | RaisedKeyError(text: String)
    | RaisedTypeError(text: String)
    | RaisedOther(text: String)

  /** The message of the `KeyError` raised for an unregistered tool. */
  function NotFoundMessage(name: String): String {
    "Tool '" + name + "' not found"
  }

  /**
   * `str(KeyError(m))` is the quoted form of `m`; the message above holds
   * single quotes, so Python quotes it with double quotes.
   */
  function KeyErrorText(m: String): String {
    "\"" + m + "\""
  }

  const NoOutput: String := "Tool returned no output"

  /** `_execute_single_tool` without the timing: never fails, always answers the call's id. */
  function ExecuteSingle<T>(call: Block, table: map<String, T>, run: (T, Value) -> Outcome): (r: Block)
    requires call.ToolUse?
    ensures r.ToolResult? && r.toolUseId == call.id
    ensures call.name !in table ==> r.isError && r.content == KeyErrorText(NotFoundMessage(call.name))
    ensures call.name in table ==> (r.isError <==> !run(table[call.name], call.input).Returned?)
    ensures call.name in table && run(table[call.name], call.input) == Returned(None) ==> r.content == NoOutput
    ensures call.name in table && run(table[call.name], call.input).Returned? && run(table[call.name], call.input).value.Some? ==>
              r.content == run(table[call.name], call.input).value.value
    ensures call.name in table && run(table[call.name], call.input).RaisedKeyError? ==>
              r.content == run(table[call.name], call.input).text
    ensures call.name in table && run(table[call.name], call.input).RaisedTypeError? ==>
              StartsWith(r.content, "Tool error in " + call.name + ": Invalid arguments - ")
    ensures call.name in table && run(table[call.name], call.input).RaisedOther? ==>
              StartsWith(r.content, "Tool error in " + call.name + ": ")
  {
    if call.name !in table then
      ToolResult(call.id, KeyErrorText(NotFoundMessage(call.name)), true)
    else
      match run(table[call.name], call.input)
      case Returned(None) => ToolResult(call.id, NoOutput, false)
      case Returned(Some(s)) => ToolResult(call.id, s, false)
      case RaisedKeyError(e) => ToolResult(call.id, e, true)
      case RaisedTypeError(e) =>
        var head := "Tool error in " + call.name + ": Invalid arguments - ";
        assert (head + e)[..|head|] == head;
        ToolResult(call.id, head + e, true)
      case RaisedOther(e) =>
        var head := "Tool error in " + call.name + ": ";
        assert (head + e)[..|head|] == head;
        ToolResult(call.id, head + e, true)
  }

  /** An unregistered tool is never run: the answer does not depend on any tool's behaviour. */
  lemma NotFoundRunsNothing<T>(call: Block, table: map<String, T>, run1: (T, Value) -> Outcome, run2: (T, Value) -> Outcome)
    requires call.ToolUse? && call.name !in table
    ensures ExecuteSingle(call, table, run1) == ExecuteSingle(call, table, run2)
  {
  }

  predicate AllToolUses(calls: seq<Block>) {
    forall i :: 0 <= i < |calls| ==> calls[i].ToolUse?
  }

  /** `asyncio.gather` over the calls: the results stand in the position of their calls. */
  function ExecuteParallel<T>(calls: seq<Block>, table: map<String, T>, run: (T, Value) -> Outcome): (rs: seq<Block>)
    requires AllToolUses(calls)
    ensures |rs| == |calls|
    ensures forall i :: 0 <= i < |calls| ==> rs[i] == ExecuteSingle(calls[i], table, run)
  {
    seq(|calls|, i requires 0 <= i < |calls| => ExecuteSingle(calls[i], table, run))
  }

  /** The sequential mode: one call after another. */
  function ExecuteSequential<T>(calls: seq<Block>, table: map<String, T>, run: (T, Value) -> Outcome): (rs: seq<Block>)
    requires AllToolUses(calls)
    ensures |rs| == |calls|
    decreases |calls|
  {
    if |calls| == 0 then []
    else [ExecuteSingle(calls[0], table, run)] + ExecuteSequential(calls[1..], table, run)
  }

  /** Both modes give the same results in the same order. */
  lemma {:induction false} SequentialIsParallel<T>(calls: seq<Block>, table: map<String, T>, run: (T, Value) -> Outcome)
    requires AllToolUses(calls)
    ensures ExecuteSequential(calls, table, run) == ExecuteParallel(calls, table, run)
    decreases |calls|
  {
    if |calls| > 0 {
      SequentialIsParallel(calls[1..], table, run);
      var s := ExecuteSequential(calls, table, run);
      var p := ExecuteParallel(calls, table, run);
      forall i | 0 <= i < |calls|
        ensures s[i] == p[i]
      {
        if i > 0 {
          assert calls[1..][i - 1] == calls[i];
        }
      }
    }
  }

  /** `execute_tools`: one result per call, in call order, each answering its call. */
  function ExecuteTools<T>(calls: seq<Block>, table: map<String, T>, run: (T, Value) -> Outcome, parallel: bool): (rs: seq<Block>)
    requires AllToolUses(calls)
    ensures |rs| == |calls|
    ensures forall i :: 0 <= i < |calls| ==> rs[i].ToolResult? && rs[i].toolUseId == calls[i].id
  {
    if parallel then ExecuteParallel(calls, table, run)
    else
      SequentialIsParallel(calls, table, run);
      ExecuteSequential(calls, table, run)
  }

  /**
   * The metrics side of dispatch: each call recorded once under its name,
   * with the duration the clock measured and its result's error flag.
   */
  function RecordCalls(t: MetricsTable, calls: seq<Block>, results: seq<Block>, elapsed: Block -> nat): (r: MetricsTable)
    requires AllToolUses(calls) && |results| == |calls|
    requires forall i :: 0 <= i < |results| ==> results[i].ToolResult?
    ensures forall n :: n in r <==> n in t || CallsNamed(calls, n) > 0
    ensures forall n :: CallsNamed(calls, n) == 0 ==> Lookup(r, n) == Lookup(t, n)
    decreases |calls|
  {
    if |calls| == 0 then t
    else RecordCalls(RecordFor(t, calls[0].name, elapsed(calls[0]), results[0].isError), calls[1..], results[1..], elapsed)
  }

  /** How many of the calls name `n`, and how many of those failed. */
  function CallsNamed(calls: seq<Block>, n: String): nat
    requires AllToolUses(calls)
    decreases |calls|
  {
    if |calls| == 0 then 0 else (if calls[0].name == n then 1 else 0) + CallsNamed(calls[1..], n)
  }

  function FailuresNamed(calls: seq<Block>, results: seq<Block>, n: String): nat
    requires AllToolUses(calls) && |results| == |calls|
    requires forall i :: 0 <= i < |results| ==> results[i].ToolResult?
    decreases |calls|
  {
    if |calls| == 0 then 0
    else (if calls[0].name == n && results[0].isError then 1 else 0) + FailuresNamed(calls[1..], results[1..], n)
  }

  /** Every call is counted exactly once, under its own name, as a failure iff its result is an error. */
  lemma {:induction false} RecordCallsCounts(t: MetricsTable, calls: seq<Block>, results: seq<Block>, elapsed: Block -> nat, n: String)
    requires AllToolUses(calls) && |results| == |calls|
    requires forall i :: 0 <= i < |results| ==> results[i].ToolResult?
    ensures Lookup(RecordCalls(t, calls, results, elapsed), n).totalCalls == Lookup(t, n).totalCalls + CallsNamed(calls, n)
    ensures Lookup(RecordCalls(t, calls, results, elapsed), n).failedCalls == Lookup(t, n).failedCalls + FailuresNamed(calls, results, n)
    decreases |calls|
  {
    if |calls| > 0 {
      var t1 := RecordFor(t, calls[0].name, elapsed(calls[0]), results[0].isError);
      RecordCallsCounts(t1, calls[1..], results[1..], elapsed, n);
    }
  }
}
