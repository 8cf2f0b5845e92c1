/**
 * The agent's conversation loop: add the user input, then repeatedly
 * truncate, ask the model, record its answer, and run the tools it asked
 * for, until it answers without tool calls or the round budget is spent.
 * The model is a script of responses; running out of script stands for a
 * request that raised.
 */
module AgentLoop {
  import opened Wrappers
  import opened Text
  import opened Conversation
  import opened History
  import opened Metrics
  import opened Dispatch
  import opened Registry

  /** Model settings; the temperature is kept in tenths. */
  datatype ModelConfig = ModelConfig(model: String, maxTokens: nat, temperatureTenths: nat, contextWindowTokens: int)

  const DefaultConfig: ModelConfig := ModelConfig("claude-sonnet-4-20250514", 4096, 10, 180000)

  /** A request parameter value. */
  datatype Param =
    | PText(text: String)
    | PNum(n: int)
    | PTurns(turns: seq<ApiTurn>)
    | PToolNames(names: seq<String>)
    | PValue(v: Value)

  const BaseKeys: set<String> := {"model", "max_tokens", "temperature", "system", "messages", "tools"}

  /**
   * `_prepare_message_params`: the settings-derived parameters, with every
   * key the caller supplied in `overrides` taking precedence.
   */
  function PrepareParams(config: ModelConfig, system: String, h: History, toolNames: seq<String>, overrides: map<String, Param>): (p: map<String, Param>)
    ensures p.Keys == BaseKeys + overrides.Keys
    ensures forall k :: k in overrides ==> p[k] == overrides[k]
    ensures "messages" !in overrides ==> p["messages"] == PTurns(FormatForApi(h))
    ensures "model" !in overrides ==> p["model"] == PText(config.model)
    ensures "system" !in overrides ==> p["system"] == PText(system)
  {
    var base := map[
      "model" := PText(config.model),
      "max_tokens" := PNum(config.maxTokens),
      "temperature" := PNum(config.temperatureTenths),
      "system" := PText(system),
      "messages" := PTurns(FormatForApi(h)),
      "tools" := PToolNames(toolNames)];
    base + overrides
  }

  /** A model response: its content blocks and usage report. */
  datatype Response = Response(content: seq<Block>, usage: Usage)

  /** The agent's mutable state as far as the loop touches it. */
  datatype Agent<T> = Agent(history: History, tools: seq<T>, maxRounds: Option<int>, metrics: MetricsTable)

  /** The collaborators the loop cannot see: tool names, tool behaviour and the clock. */
  datatype Env<!T> = Env(nameOf: T -> String, run: (T, Value) -> Outcome, elapsed: Block -> nat)

  /** How a run ends. `ProviderError` is a request that raised; the exception leaves the run. */
  datatype Ending = Replied(content: seq<Block>) | OutOfRounds(text: String) | ProviderError

  /**
   * The end state of a run, how many responses it used, and the history
   * each request was built from, in order.
   */
  datatype RunOutcome<T> = RunOutcome(agent: Agent<T>, ending: Ending, consumed: nat, sent: seq<History>)

  /**
   * A new agent: an empty history over the configured window with caching
   * on, no metrics yet, and the given tools and budget. `systemEstimate`
   * stands for the token count of the system prompt.
   */
  function NewAgent<T>(tools: seq<T>, maxRounds: Option<int>, config: ModelConfig, systemEstimate: int): (a: Agent<T>)
    ensures a.tools == tools && a.maxRounds == maxRounds
    ensures a.history.messages == [] && Aligned(a.history)
    ensures Baseline(a.history) == systemEstimate
    ensures a.history.contextWindow == config.contextWindowTokens && a.history.enableCaching
    ensures a.metrics == map[]
  {
    Agent(NewHistory(config.contextWindowTokens, true, systemEstimate), tools, maxRounds, map[])
  }

  /**
   * The content of the message a run returns: the model's last response,
   * or the budget notice as a single text block.
   */
  function Reply(e: Ending): (content: seq<Block>)
    requires !e.ProviderError?
    ensures e.Replied? ==> content == e.content
    ensures e.OutOfRounds? ==> |content| == 1 && content[0] == TextBlock(e.text)
  {
    if e.Replied? then e.content else [TextBlock(e.text)]
  }

  /** `self.max_rounds and rounds >= self.max_rounds`: `None` and 0 mean no limit. */
  predicate BudgetSpent(maxRounds: Option<int>, rounds: nat) {
    maxRounds.Some? && maxRounds.value != 0 && rounds >= maxRounds.value
  }

  /** The notice a run returns when the budget stops it. */
  function BudgetText(k: int): String {
    "I've reached my maximum number of rounds (" + IntToString(k) + "). Here's what I've accomplished so far."
  }

  /** Record the model's answer as an assistant turn, with its usage. */
  function Answer<T>(a: Agent<T>, response: Response): (r: Agent<T>)
    ensures r.tools == a.tools && r.maxRounds == a.maxRounds
    ensures Baseline(r.history) == Baseline(a.history)
    ensures r.history.messages == a.history.messages + [Turn(Assistant, response.content)]
    ensures |r.history.ledger| == |a.history.ledger| + 1
  {
    a.(history := AddMessage(a.history, Assistant, Blocks(response.content), Some(response.usage)))
  }

  /**
   * One tool round after the answer is recorded: run every requested tool,
   * record the calls, and add all results as one user turn.
   */
  function ToolRound<T>(a: Agent<T>, table: map<String, T>, env: Env<T>, calls: seq<Block>): (r: Agent<T>)
    requires AllToolUses(calls)
    ensures r.tools == a.tools && r.maxRounds == a.maxRounds
    ensures Baseline(r.history) == Baseline(a.history)
    ensures r.history.ledger == a.history.ledger
    ensures |r.history.messages| == |a.history.messages| + 1
    ensures r.history.messages[..|a.history.messages|] == a.history.messages
    ensures r.history.messages[|a.history.messages|].role == User
    ensures |r.history.messages[|a.history.messages|].content| == |calls|
    ensures r.history.messages[|a.history.messages|].content == ExecuteTools(calls, table, env.run, true)
    ensures forall i :: 0 <= i < |calls| ==>
      var b := r.history.messages[|a.history.messages|].content[i];
      b.ToolResult? && b.toolUseId == calls[i].id
    ensures var results := ExecuteTools(calls, table, env.run, true);
      forall n ::
        && Lookup(r.metrics, n).totalCalls == Lookup(a.metrics, n).totalCalls + CallsNamed(calls, n)
        && Lookup(r.metrics, n).failedCalls == Lookup(a.metrics, n).failedCalls + FailuresNamed(calls, results, n)
  {
    var results := ExecuteTools(calls, table, env.run, true);
    var metrics := RecordCalls(a.metrics, calls, results, env.elapsed);
    var h := AddMessage(a.history, User, Blocks(results), None);
    assert h.messages[..|a.history.messages|] == a.history.messages;
    assert forall n ::
      && Lookup(metrics, n).totalCalls == Lookup(a.metrics, n).totalCalls + CallsNamed(calls, n)
      && Lookup(metrics, n).failedCalls == Lookup(a.metrics, n).failedCalls + FailuresNamed(calls, results, n)
    by {
      forall n {
        RecordCallsCounts(a.metrics, calls, results, env.elapsed, n);
      }
    }
    a.(history := h, metrics := metrics)
  }

  /** The response asks for at least one tool. */
  predicate AsksTools(response: Response) {
    |ToolCalls(response.content)| > 0
  }

  /** A round that continues: truncate, record the answer, run the tools it asked for. */
  function Round<T>(a: Agent<T>, table: map<String, T>, env: Env<T>, response: Response): (r: Agent<T>)
    ensures r.tools == a.tools && r.maxRounds == a.maxRounds
    ensures Baseline(r.history) == Baseline(a.history)
  {
    ToolRound(Answer(a.(history := Truncate(a.history)), response), table, env, ToolCalls(response.content))
  }

  /** The outcome of the rest of the run, seen from one round earlier. */
  function Continued<T>(rest: RunOutcome<T>, sent: History): (r: RunOutcome<T>)
    ensures r.agent == rest.agent && r.ending == rest.ending
    ensures r.consumed == rest.consumed + 1 && r.sent == [sent] + rest.sent
  {
    rest.(consumed := rest.consumed + 1, sent := [sent] + rest.sent)
  }

  /**
   * The `while True` loop of `_agent_loop`, from round counter `rounds`.
   * `step` is what a continuing round does to the agent; `Run` passes
   * `Round` over the agent's tool table.
   */
  function Loop<T>(a: Agent<T>, step: (Agent<T>, Response) -> Agent<T>, rounds: nat, script: seq<Response>): (r: RunOutcome<T>)
    ensures r.consumed <= |script|
    decreases |script|
  {
    if BudgetSpent(a.maxRounds, rounds) then
      RunOutcome(a, OutOfRounds(BudgetText(a.maxRounds.value)), 0, [])
    else if |script| == 0 then
      RunOutcome(a.(history := Truncate(a.history)), ProviderError, 0, [Truncate(a.history)])
    else if !AsksTools(script[0]) then
      RunOutcome(Answer(a.(history := Truncate(a.history)), script[0]), Replied(script[0].content), 1, [Truncate(a.history)])
    else
      Continued(Loop(step(a, script[0]), step, rounds + 1, script[1..]), Truncate(a.history))
  }

  /**
   * How a run ends and how many responses it uses, read off the budget and
   * the script alone: what the tools do never decides either.
   */
  function Schedule(maxRounds: Option<int>, rounds: nat, script: seq<Response>): (Ending, nat)
    decreases |script|
  {
    if BudgetSpent(maxRounds, rounds) then (OutOfRounds(BudgetText(maxRounds.value)), 0)
    else if |script| == 0 then (ProviderError, 0)
    else if !AsksTools(script[0]) then (Replied(script[0].content), 1)
    else
      var rest := Schedule(maxRounds, rounds + 1, script[1..]);
      (rest.0, rest.1 + 1)
  }

  /** The loop ends as `Schedule` says, for any step that keeps the budget. */
  lemma {:induction false} LoopFollowsSchedule<T(!new)>(a: Agent<T>, step: (Agent<T>, Response) -> Agent<T>, rounds: nat, script: seq<Response>)
    requires KeepsSettings(step)
    ensures var r := Loop(a, step, rounds, script);
      (r.ending, r.consumed) == Schedule(a.maxRounds, rounds, script)
    decreases |script|
  {
    if !BudgetSpent(a.maxRounds, rounds) && |script| > 0 && AsksTools(script[0]) {
      LoopFollowsSchedule(step(a, script[0]), step, rounds + 1, script[1..]);
    }
  }

  /** The continuing round of an agent whose tools are looked up in `table`. */
  function RoundStep<T>(table: map<String, T>, env: Env<T>): (Agent<T>, Response) -> Agent<T> {
    (b: Agent<T>, response: Response) => Round(b, table, env, response)
  }

  /** The agent after the user input is added: one user turn holding the input as a text block. */
  function Started<T>(a: Agent<T>, input: String): (r: Agent<T>)
    ensures r.history.messages == a.history.messages + [Turn(User, [TextBlock(input)])]
    ensures r.history.ledger == a.history.ledger && Baseline(r.history) == Baseline(a.history)
    ensures r.tools == a.tools && r.maxRounds == a.maxRounds && r.metrics == a.metrics
  {
    a.(history := AddMessage(a.history, User, Plain(input), None))
  }

  /** A loop that ends with a reply has recorded that reply as its last turn, an assistant turn. */
  lemma {:induction false} LoopRecordsReply<T>(a: Agent<T>, step: (Agent<T>, Response) -> Agent<T>, rounds: nat, script: seq<Response>)
    ensures var r := Loop(a, step, rounds, script);
      r.ending.Replied? ==>
        |r.agent.history.messages| > 0 && r.agent.history.messages[|r.agent.history.messages| - 1] == Turn(Assistant, r.ending.content)
    decreases |script|
  {
    if !BudgetSpent(a.maxRounds, rounds) && |script| > 0 && AsksTools(script[0]) {
      LoopRecordsReply(step(a, script[0]), step, rounds + 1, script[1..]);
    }
  }

  /** A budget stop returns the notice for the agent's own limit, which is a real one. */
  lemma {:induction false} ScheduleBudgetText(maxRounds: Option<int>, rounds: nat, script: seq<Response>)
    ensures Schedule(maxRounds, rounds, script).0.OutOfRounds? ==>
      maxRounds.Some? && maxRounds.value != 0 && Schedule(maxRounds, rounds, script).0.text == BudgetText(maxRounds.value)
    decreases |script|
  {
    if !BudgetSpent(maxRounds, rounds) && |script| > 0 && AsksTools(script[0]) {
      ScheduleBudgetText(maxRounds, rounds + 1, script[1..]);
    }
  }

  /** `_agent_loop(user_input)` */
  function Run<T>(a: Agent<T>, input: String, env: Env<T>, script: seq<Response>): (r: RunOutcome<T>)
    ensures r.consumed <= |script|
  {
    Loop(Started(a, input), RoundStep(BuildTable(a.tools, env.nameOf), env), 0, script)
  }

  /** A step that keeps the tools, the budget and the token baseline. */
  ghost predicate KeepsSettings<T(!new)>(step: (Agent<T>, Response) -> Agent<T>) {
    forall b: Agent<T>, response: Response ::
      && step(b, response).tools == b.tools
      && step(b, response).maxRounds == b.maxRounds
      && Baseline(step(b, response).history) == Baseline(b.history)
  }

  /** A tool round keeps the tools, the budget and the token baseline. */
  lemma RoundKeepsSettings<T(!new)>(table: map<String, T>, env: Env<T>)
    ensures KeepsSettings(RoundStep(table, env))
  {
    forall b: Agent<T>, response: Response
      ensures RoundStep(table, env)(b, response) == Round(b, table, env, response)
    {
    }
  }

  /**
   * With `max_rounds = k > 0` and a model that always asks for tools, the
   * run stops after exactly `k` tool batches with the budget message.
   */
  lemma {:induction false} ScheduleStopsAtBudget(k: int, rounds: nat, script: seq<Response>)
    requires k > 0 && rounds <= k
    requires |script| >= k - rounds
    requires AsksToolsFirst(script, k - rounds)
    ensures Schedule(Some(k), rounds, script) == (OutOfRounds(BudgetText(k)), k - rounds)
    decreases k - rounds
  {
    if rounds < k {
      AsksToolsTail(script, k - rounds);
      ScheduleStopsAtBudget(k, rounds + 1, script[1..]);
    }
  }

  /** Each of the first `n` responses asks for tools (see `AsksToolsFirstAll`). */
  predicate AsksToolsFirst(script: seq<Response>, n: int)
    requires 0 <= n <= |script|
    decreases n
  {
    n == 0 || (AsksTools(script[0]) && AsksToolsFirst(script[1..], n - 1))
  }

  lemma AsksToolsTail(script: seq<Response>, n: int)
    requires 0 < n <= |script| && AsksToolsFirst(script, n)
    ensures AsksTools(script[0]) && AsksToolsFirst(script[1..], n - 1)
  {
  }

  lemma AsksToolsCons(script: seq<Response>, n: int)
    requires 0 < n <= |script| && AsksTools(script[0]) && AsksToolsFirst(script[1..], n - 1)
    ensures AsksToolsFirst(script, n)
  {
  }

  /** `AsksToolsFirst` says what its name says: every one of the first `n` responses asks for tools. */
  lemma {:induction false} AsksToolsFirstAll(script: seq<Response>, n: int)
    requires 0 <= n <= |script|
    ensures AsksToolsFirst(script, n) <==> forall i :: 0 <= i < n ==> AsksTools(script[i])
    decreases n
  {
    if n > 0 {
      AsksToolsFirstAll(script[1..], n - 1);
      assert forall i :: 0 <= i < n - 1 ==> script[1..][i] == script[i + 1];
      if forall i :: 0 <= i < n ==> AsksTools(script[i]) {
        assert forall i :: 0 <= i < n - 1 ==> AsksTools(script[1..][i]);
      }
      if AsksToolsFirst(script, n) {
        forall i | 0 <= i < n
          ensures AsksTools(script[i])
        {
          if i > 0 { assert script[i] == script[1..][i - 1]; }
        }
      }
    }
  }

  lemma RunStopsAtBudget<T(!new)>(a: Agent<T>, input: String, env: Env<T>, script: seq<Response>, k: int)
    requires a.maxRounds == Some(k) && k > 0 && |script| >= k
    requires AsksToolsFirst(script, k)
    ensures Run(a, input, env, script).ending == OutOfRounds(BudgetText(k))
    ensures Run(a, input, env, script).consumed == k
  {
    var table := BuildTable(a.tools, env.nameOf);
    RoundKeepsSettings(table, env);
    LoopFollowsSchedule(Started(a, input), RoundStep(table, env), 0, script);
    ScheduleStopsAtBudget(k, 0, script);
  }

  /** Without a limit (`None` or 0) the budget message never appears. */
  lemma {:induction false} ScheduleUnlimited(maxRounds: Option<int>, rounds: nat, script: seq<Response>)
    requires maxRounds.None? || maxRounds == Some(0)
    ensures !Schedule(maxRounds, rounds, script).0.OutOfRounds?
    decreases |script|
  {
    if |script| > 0 && AsksTools(script[0]) {
      ScheduleUnlimited(maxRounds, rounds + 1, script[1..]);
    }
  }

  lemma RunUnlimited<T(!new)>(a: Agent<T>, input: String, env: Env<T>, script: seq<Response>)
    requires a.maxRounds.None? || a.maxRounds == Some(0)
    ensures !Run(a, input, env, script).ending.OutOfRounds?
  {
    var table := BuildTable(a.tools, env.nameOf);
    RoundKeepsSettings(table, env);
    LoopFollowsSchedule(Started(a, input), RoundStep(table, env), 0, script);
    ScheduleUnlimited(a.maxRounds, 0, script);
  }

  /**
   * The loop keeps the tools and the budget, and only ever moves tokens
   * between the total and the ledger together.
   */
  lemma {:induction false} LoopKeeps<T(!new)>(a: Agent<T>, step: (Agent<T>, Response) -> Agent<T>, rounds: nat, script: seq<Response>)
    requires KeepsSettings(step)
    ensures var r := Loop(a, step, rounds, script);
      && r.agent.tools == a.tools && r.agent.maxRounds == a.maxRounds
      && Baseline(r.agent.history) == Baseline(a.history)
    decreases |script|
  {
    if !BudgetSpent(a.maxRounds, rounds) && |script| > 0 && AsksTools(script[0]) {
      LoopKeeps(step(a, script[0]), step, rounds + 1, script[1..]);
    }
  }

  /** Every request is built from a history that no longer exceeds the window (or cannot shrink). */
  lemma {:induction false} LoopSendsTruncated<T>(a: Agent<T>, step: (Agent<T>, Response) -> Agent<T>, rounds: nat, script: seq<Response>)
    ensures forall i :: 0 <= i < |Loop(a, step, rounds, script).sent| ==> !OverWindow(Loop(a, step, rounds, script).sent[i])
    decreases |script|
  {
    if BudgetSpent(a.maxRounds, rounds) {
    } else if |script| == 0 || !AsksTools(script[0]) {
      TruncateFits(a.history);
    } else {
      LoopSendsTruncatedStep(a, step, rounds, script);
    }
  }

  /** The continuing case of `LoopSendsTruncated`: the first request, then the rest of the loop. */
  lemma {:induction false} LoopSendsTruncatedStep<T>(a: Agent<T>, step: (Agent<T>, Response) -> Agent<T>, rounds: nat, script: seq<Response>)
    requires !BudgetSpent(a.maxRounds, rounds) && |script| > 0 && AsksTools(script[0])
    ensures forall i :: 0 <= i < |Loop(a, step, rounds, script).sent| ==> !OverWindow(Loop(a, step, rounds, script).sent[i])
    decreases |script|, 0
  {
    var rest := Loop(step(a, script[0]), step, rounds + 1, script[1..]);
    LoopSendsTruncated(step(a, script[0]), step, rounds + 1, script[1..]);
    TruncateFits(a.history);
    var r := Loop(a, step, rounds, script);
    assert r == Continued(rest, Truncate(a.history));
    forall i | 0 <= i < |r.sent|
      ensures !OverWindow(r.sent[i])
    {
      if i > 0 {
        assert r.sent[i] == rest.sent[i - 1];
      }
    }
  }

  /** After `truncate` the loop condition no longer holds. */
  lemma TruncateFits(h: History)
    ensures !OverWindow(Truncate(h))
  {
  }

  /**
   * A reply ends the run exactly at the first scripted response without
   * tool calls, and that response's content is what the run returns.
   */
  lemma {:induction false} ScheduleReplied(maxRounds: Option<int>, rounds: nat, script: seq<Response>)
    ensures var (e, n) := Schedule(maxRounds, rounds, script);
      e.Replied? ==>
        && 1 <= n <= |script|
        && e.content == script[n - 1].content
        && !AsksTools(script[n - 1])
        && AsksToolsFirst(script, n - 1)
    decreases |script|
  {
    if !BudgetSpent(maxRounds, rounds) && |script| > 0 && AsksTools(script[0]) {
      var rest := Schedule(maxRounds, rounds + 1, script[1..]);
      ScheduleReplied(maxRounds, rounds + 1, script[1..]);
      if rest.0.Replied? {
        assert script[1..][rest.1 - 1] == script[rest.1];
        AsksToolsCons(script, rest.1);
      }
    }
  }

  /**
   * When the run ends with a reply, it replied with the first scripted
   * response that asks for no tools, after the ones before it all did.
   */
  predicate RepliedAtFirstQuiet<T>(r: RunOutcome<T>, script: seq<Response>) {
    r.ending.Replied? ==>
      && 1 <= r.consumed <= |script|
      && r.ending.content == script[r.consumed - 1].content
      && !AsksTools(script[r.consumed - 1])
      && AsksToolsFirst(script, r.consumed - 1)
  }

  lemma RepliedAsScheduled<T>(r: RunOutcome<T>, maxRounds: Option<int>, script: seq<Response>)
    requires (r.ending, r.consumed) == Schedule(maxRounds, 0, script)
    ensures RepliedAtFirstQuiet(r, script)
  {
    ScheduleReplied(maxRounds, 0, script);
  }

  /** `ScheduleReplied` for a whole run. */
  lemma RunReplied<T(!new)>(a: Agent<T>, input: String, env: Env<T>, script: seq<Response>)
    ensures RepliedAtFirstQuiet(Run(a, input, env, script), script)
  {
    var table := BuildTable(a.tools, env.nameOf);
    RoundKeepsSettings(table, env);
    LoopFollowsSchedule(Started(a, input), RoundStep(table, env), 0, script);
    RepliedAsScheduled(Run(a, input, env, script), a.maxRounds, script);
  }

  /**
   * A run adds the user input as one user turn and, when the model replies,
   * ends with that reply recorded as an assistant turn.
   */
  lemma RunRecordsInputAndReply<T>(a: Agent<T>, input: String, env: Env<T>, script: seq<Response>)
    ensures var r := Run(a, input, env, script);
      r.ending.Replied? ==>
        |r.agent.history.messages| > 0 && r.agent.history.messages[|r.agent.history.messages| - 1] == Turn(Assistant, r.ending.content)
    ensures Started(a, input).history.messages == a.history.messages + [Turn(User, [TextBlock(input)])]
  {
    var b, step := Started(a, input), RoundStep(BuildTable(a.tools, env.nameOf), env);
    assert Run(a, input, env, script) == Loop(b, step, 0, script);
    LoopRecordsReply(b, step, 0, script);
  }

  /** A run the budget stops returns the notice naming the agent's limit. */
  lemma RunBudgetText<T(!new)>(a: Agent<T>, input: String, env: Env<T>, script: seq<Response>)
    ensures var r := Run(a, input, env, script);
      r.ending.OutOfRounds? ==> a.maxRounds.Some? && a.maxRounds.value != 0 && r.ending.text == BudgetText(a.maxRounds.value)
  {
    var table := BuildTable(a.tools, env.nameOf);
    RoundKeepsSettings(table, env);
    LoopFollowsSchedule(Started(a, input), RoundStep(table, env), 0, script);
    ScheduleBudgetText(a.maxRounds, 0, script);
  }

  /** Roles alternate user, assistant, user, … from the first turn. */
  predicate RolesAlternate(ms: seq<Turn>) {
    forall i :: 0 <= i < |ms| ==> ms[i].role == RoleAt(i)
  }

  /** The role of turn `i` in a well-formed history: the user's on even positions. */
  function RoleAt(i: nat): Role {
    if i % 2 == 0 then User else Assistant
  }

  lemma RoleAtPairs(n: nat)
    ensures RoleAt(2 * n) == User && RoleAt(2 * n + 1) == Assistant
  {
  }

  lemma RoleAtShift(i: nat, k: nat)
    ensures RoleAt(i + 2 * k) == RoleAt(i)
  {
  }

  /** Complete (user, assistant) pairs, one ledger entry each. */
  predicate Aligned(h: History) {
    RolesAlternate(h.messages) && |h.messages| == 2 * |h.ledger|
  }

  /** Complete pairs followed by one user turn awaiting its answer. */
  predicate AwaitingReply(h: History) {
    RolesAlternate(h.messages) && |h.messages| == 2 * |h.ledger| + 1
  }

  lemma AddUserAwaits(h: History, c: Content)
    requires Aligned(h)
    ensures AwaitingReply(AddMessage(h, User, c, None))
  {
    var r := AddMessage(h, User, c, None);
    assert forall i :: 0 <= i < |h.messages| ==> r.messages[i] == h.messages[i];
    RoleAtPairs(|h.ledger|);
  }

  lemma AddAssistantAligns(h: History, c: Content, u: Usage)
    requires AwaitingReply(h)
    ensures Aligned(AddMessage(h, Assistant, c, Some(u)))
  {
    var r := AddMessage(h, Assistant, c, Some(u));
    assert forall i :: 0 <= i < |h.messages| ==> r.messages[i] == h.messages[i];
    RoleAtPairs(|h.ledger|);
  }

  /** Truncation drops whole pairs, so a history awaiting a reply still does. */
  lemma TruncateKeepsAwaiting(h: History)
    requires AwaitingReply(h)
    ensures AwaitingReply(Truncate(h))
  {
    DroppedKeepsAwaiting(h, Truncate(h));
  }

  lemma DroppedKeepsAwaiting(h: History, r: History)
    requires AwaitingReply(h) && DroppedPairs(h, r)
    ensures AwaitingReply(r)
  {
    var k := |h.ledger| - |r.ledger|;
    forall i | 0 <= i < |r.messages|
      ensures r.messages[i].role == RoleAt(i)
    {
      RoleAtShift(i, k);
      if i > 0 {
        assert r.messages[i] == r.messages[1..][i - 1];
        assert h.messages[2 * k + 1..][i - 1] == h.messages[2 * k + i];
      } else {
        RoleAtPairs(k);
      }
    }
  }

  /** A step that answers a waiting user turn and leaves a new one waiting. */
  ghost predicate KeepsAwaiting<T(!new)>(step: (Agent<T>, Response) -> Agent<T>) {
    forall b: Agent<T>, response: Response ::
      AwaitingReply(b.history) && AsksTools(response) ==> AwaitingReply(step(b, response).history)
  }

  /** A tool round records the answer and leaves the tool results as the waiting user turn. */
  lemma RoundKeepsAwaiting<T(!new)>(table: map<String, T>, env: Env<T>)
    ensures KeepsAwaiting(RoundStep(table, env))
  {
    forall b: Agent<T>, response: Response | AwaitingReply(b.history) && AsksTools(response)
      ensures AwaitingReply(RoundStep(table, env)(b, response).history)
    {
      var h := Truncate(b.history);
      TruncateKeepsAwaiting(b.history);
      AddAssistantAligns(h, Blocks(response.content), response.usage);
      ToolRoundAwaits(Answer(b.(history := h), response), table, env, ToolCalls(response.content));
    }
  }

  /**
   * A run that starts from complete pairs ends with complete pairs when the
   * model answers, but with a trailing user turn when the budget stops it.
   */
  lemma {:induction false} LoopAlignment<T(!new)>(a: Agent<T>, step: (Agent<T>, Response) -> Agent<T>, rounds: nat, script: seq<Response>)
    requires KeepsAwaiting(step)
    requires AwaitingReply(a.history)
    ensures var r := Loop(a, step, rounds, script);
      && (r.ending.Replied? ==> Aligned(r.agent.history))
      && (r.ending.OutOfRounds? ==> AwaitingReply(r.agent.history))
    decreases |script|
  {
    if !BudgetSpent(a.maxRounds, rounds) && |script| > 0 {
      var h := Truncate(a.history);
      TruncateKeepsAwaiting(a.history);
      AddAssistantAligns(h, Blocks(script[0].content), script[0].usage);
      if AsksTools(script[0]) {
        LoopAlignment(step(a, script[0]), step, rounds + 1, script[1..]);
      }
    }
  }

  lemma ToolRoundAwaits<T>(a: Agent<T>, table: map<String, T>, env: Env<T>, calls: seq<Block>)
    requires AllToolUses(calls) && Aligned(a.history)
    ensures AwaitingReply(ToolRound(a, table, env, calls).history)
  {
    var r := ToolRound(a, table, env, calls);
    var n := |a.history.messages|;
    RoleAtPairs(|a.history.ledger|);
    forall i | 0 <= i < |r.history.messages|
      ensures r.history.messages[i].role == RoleAt(i)
    {
      if i < n {
        assert r.history.messages[i] == r.history.messages[..n][i];
        assert r.history.messages[i] == a.history.messages[i];
      } else {
        assert i == 2 * |a.history.ledger|;
      }
    }
  }

  lemma RunAlignment<T(!new)>(a: Agent<T>, input: String, env: Env<T>, script: seq<Response>)
    requires Aligned(a.history)
    ensures Run(a, input, env, script).ending.Replied? ==> Aligned(Run(a, input, env, script).agent.history)
    ensures Run(a, input, env, script).ending.OutOfRounds? ==> AwaitingReply(Run(a, input, env, script).agent.history)
  {
    var table := BuildTable(a.tools, env.nameOf);
    AddUserAwaits(a.history, Plain(input));
    RoundKeepsAwaiting(table, env);
    LoopAlignment(Started(a, input), RoundStep(table, env), 0, script);
  }

  /** The next run after a budget stop starts with two user turns in a row. */
  lemma NextRunAfterBudgetRepeatsUser(h: History, input: String)
    requires AwaitingReply(h)
    ensures var ms := AddMessage(h, User, Plain(input), None).messages;
      ms[|ms| - 2].role == User && ms[|ms| - 1].role == User
  {
    var ms := AddMessage(h, User, Plain(input), None).messages;
    assert ms[|ms| - 2] == h.messages[|h.messages| - 1];
  }
}
