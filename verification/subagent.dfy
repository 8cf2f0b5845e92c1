/**
 * The `agent` tool: run a fresh agent on one task with the parent's tools
 * and a round budget, and report what it answered. Whatever goes wrong
 * comes back as text; the tool never raises.
 */
module SubAgent {
  import opened Wrappers
  import opened Text
  import opened Conversation
  import opened History
  import opened AgentLoop

  const DefaultMaxIterations: int := 10

  const PromptHead: String := "You are a focused sub-agent with a specific task.\n\nYOUR TASK: "

  /** The fixed instructions after the optional approach line. */
  const PromptTail: String :=
    "\n\nIMPORTANT INSTRUCTIONS:\n"
    + "1. Focus ONLY on completing the assigned task\n"
    + "2. Use tools efficiently - batch operations when possible\n"
    + "3. Be thorough but concise in your approach\n"
    + "4. Return a clear summary of what you accomplished\n"
    + "5. If you cannot complete the task, explain why\n\n"
    + "You have access to the same tools as the main agent. Work autonomously to complete your task."

  const ApproachLabel: String := "SUGGESTED APPROACH: "

  /** The approach line is there only for a non-empty plan. */
  function ApproachLine(plan: String): (line: String)
    ensures |plan| == 0 <==> |line| == 0
    ensures |plan| > 0 ==> StartsWith(line, ApproachLabel) && line[|ApproachLabel|..] == plan
  {
    if |plan| == 0 then "" else ApproachLabel + plan
  }

  /** Where the approach line sits in the system prompt. */
  function ApproachStart(task: String): nat {
    |PromptHead| + |task| + 2
  }

  /** The sub-agent's system prompt. */
  function SystemPrompt(task: String, plan: String): (p: String)
    ensures StartsWith(p, PromptHead + task)
    ensures EndsWith(p, PromptTail)
    ensures |p| == ApproachStart(task) + |ApproachLine(plan)| + |PromptTail|
    ensures p[ApproachStart(task)..ApproachStart(task) + |ApproachLine(plan)|] == ApproachLine(plan)
  {
    var head := PromptHead + task + "\n\n";
    var p := head + ApproachLine(plan) + PromptTail;
    assert p[..|PromptHead + task|] == PromptHead + task;
    assert p[|p| - |PromptTail|..] == PromptTail;
    assert p[|head|..|head| + |ApproachLine(plan)|] == ApproachLine(plan);
    p
  }

  /**
   * The plan only adds its approach line: cutting that line out of the
   * prompt leaves the prompt of the same task without a plan.
   */
  lemma PlanOnlyAddsApproach(task: String, plan: String)
    ensures var p := SystemPrompt(task, plan);
      var i := ApproachStart(task);
      p[..i] + p[i + |ApproachLine(plan)|..] == SystemPrompt(task, "")
  {
    var p := SystemPrompt(task, plan);
    var q := SystemPrompt(task, "");
    var i := ApproachStart(task);
    var n := |ApproachLine(plan)|;
    assert p[..i] == q[..i];
    assert p[i + n..] == q[i..];
    assert q == q[..i] + q[i..];
  }

  /** A non-empty plan appears in the prompt, after its label. */
  lemma PlanInPrompt(task: String, plan: String)
    requires |plan| > 0
    ensures Contains(SystemPrompt(task, plan), ApproachLabel + plan)
  {
    var p := SystemPrompt(task, plan);
    var i := ApproachStart(task);
    assert p[i..i + |ApproachLabel + plan|] == ApproachLabel + plan;
    ContainsOccurs(p, ApproachLabel + plan, i);
  }

  /** `f"Sub-Agent: {task[:30]}..."` */
  function SubAgentName(task: String): (n: String)
    ensures StartsWith(n, "Sub-Agent: ") && EndsWith(n, "...")
    ensures |n| == 14 + (if |task| < 30 then |task| else 30)
    ensures n[11..|n| - 3] == task[..|n| - 14]
  {
    var n := "Sub-Agent: " + Take(task, 30) + "...";
    assert n[..11] == "Sub-Agent: ";
    assert n[|n| - 3..] == "...";
    n
  }

  const TaskLead: String := "Complete this task: "

  /** The sub-agent as the tool sets it up, and the input it is run on. */
  datatype Delegation<T> = Delegation(name: String, system: String, agent: Agent<T>, input: String)

  /**
   * The configuration the tool builds: the parent's tools, exactly, and
   * `max_rounds = max_iterations`, over a fresh history.
   */
  function Delegate<T>(parentTools: seq<T>, task: String, plan: String, maxIterations: int, config: ModelConfig, systemEstimate: int): (d: Delegation<T>)
    ensures d.agent.tools == parentTools
    ensures d.agent.maxRounds == Some(maxIterations)
    ensures d.agent.history.messages == [] && d.agent.metrics == map[]
    ensures d.name == SubAgentName(task) && d.system == SystemPrompt(task, plan)
    ensures StartsWith(d.input, TaskLead) && d.input[|TaskLead|..] == task
  {
    var input := TaskLead + task;
    assert input[..|TaskLead|] == TaskLead;
    Delegation(SubAgentName(task), SystemPrompt(task, plan), NewAgent(parentTools, Some(maxIterations), config, systemEstimate), input)
  }

  /** The text of every block that has one, each followed by a newline. */
  function ResultText(content: seq<Block>): String
    decreases |content|
  {
    if |content| == 0 then ""
    else (if content[0].TextBlock? then content[0].text + "\n" else "") + ResultText(content[1..])
  }

  /** The result text distributes over the blocks, so it keeps their order. */
  lemma {:induction false} ResultTextAppend(a: seq<Block>, b: seq<Block>)
    ensures ResultText(a + b) == ResultText(a) + ResultText(b)
    decreases |a|
  {
    if |a| == 0 {
      assert a + b == b;
    } else {
      assert (a + b)[1..] == a[1..] + b;
      ResultTextAppend(a[1..], b);
    }
  }

  /** A text block contributes its text and a newline; every other block contributes nothing. */
  lemma ResultTextOne(b: Block)
    ensures ResultText([b]) == if b.TextBlock? then b.text + "\n" else ""
  {
    assert [b][1..] == [];
  }

  const CompletedLead: String := "Sub-agent completed task: "
  const FailedLead: String := "Sub-agent failed: "

  const ResultLabel: String := "\n\nResult:\n"
  const CountLabel: String := "\n\nTool calls made: "

  /**
   * The success report; `pairs` is `len(history.messages) // 2`. It
   * reads back as three parts: the task line with its result label, the
   * result text, and the count line.
   */
  function Report(task: String, resultText: String, pairs: int): (r: String)
    ensures StartsWith(r, CompletedLead + task)
    ensures StartsWith(r, CompletedLead + task + ResultLabel)
    ensures var at := |CompletedLead + task + ResultLabel|;
      at + |resultText| <= |r| && r[at..at + |resultText|] == resultText
    ensures EndsWith(r, CountLabel + IntToString(pairs))
    ensures |r| == |CompletedLead + task + ResultLabel| + |resultText| + |CountLabel + IntToString(pairs)|
  {
    var head := CompletedLead + task + ResultLabel;
    var tail := CountLabel + IntToString(pairs);
    var r := head + resultText + tail;
    assert r == CompletedLead + task + ResultLabel + resultText + tail;
    assert r[..|CompletedLead + task|] == CompletedLead + task;
    assert r[..|head|] == head;
    assert r[|head|..|head| + |resultText|] == resultText;
    assert r[|r| - |tail|..] == tail;
    r
  }

  /**
   * The tool's answer once the sub-agent has run: a request that raised
   * (`failure` is its message) becomes the failure text, anything else the
   * report of the final content's text over the halved history length.
   */
  function Finish<T>(task: String, r: RunOutcome<T>, failure: String): (out: String)
    ensures StartsWith(out, FailedLead) <==> r.ending.ProviderError?
    ensures r.ending.ProviderError? ==> out[|FailedLead|..] == failure
    ensures !r.ending.ProviderError? ==> StartsWith(out, CompletedLead + task)
    ensures !r.ending.ProviderError? ==>
      out == Report(task, ResultText(Reply(r.ending)), |r.agent.history.messages| / 2)
  {
    if r.ending.ProviderError? then
      var out := FailedLead + failure;
      assert out[..|FailedLead|] == FailedLead;
      out
    else
      var out := Report(task, ResultText(Reply(r.ending)), |r.agent.history.messages| / 2);
      assert out[10] == 'c' && FailedLead[10] == 'f';
      out
  }

  /** `AgentTool.execute`: configure the sub-agent, run it on the scripted model, and answer. */
  function Execute<T>(parentTools: seq<T>, task: String, plan: String, maxIterations: int, config: ModelConfig, systemEstimate: int,
                      env: Env<T>, script: seq<Response>, failure: String): (out: String)
    ensures StartsWith(out, FailedLead) || StartsWith(out, CompletedLead + task)
    ensures var d := Delegate(parentTools, task, plan, maxIterations, config, systemEstimate);
      var run := Run(d.agent, d.input, env, script);
      && (run.ending.ProviderError? ==> out == FailedLead + failure)
      && (!run.ending.ProviderError? ==>
            out == Report(task, ResultText(Reply(run.ending)), |run.agent.history.messages| / 2))
  {
    var d := Delegate(parentTools, task, plan, maxIterations, config, systemEstimate);
    Finish(task, Run(d.agent, d.input, env, script), failure)
  }

  /**
   * A sub-agent that did not raise reports the text of the content it
   * ended on, and a call count equal to the model answers its history
   * charges for.
   */
  lemma ExecuteReportsRun<T(!new)>(parentTools: seq<T>, task: String, plan: String, maxIterations: int, config: ModelConfig, systemEstimate: int,
                                  env: Env<T>, script: seq<Response>, failure: String)
    ensures var d := Delegate(parentTools, task, plan, maxIterations, config, systemEstimate);
      var run := Run(d.agent, d.input, env, script);
      var out := Execute(parentTools, task, plan, maxIterations, config, systemEstimate, env, script, failure);
      !run.ending.ProviderError? ==>
        && EndsWith(out, CountLabel + IntToString(|run.agent.history.ledger|))
        && var at := |CompletedLead + task + ResultLabel|;
           at + |ResultText(Reply(run.ending))| <= |out|
           && out[at..at + |ResultText(Reply(run.ending))|] == ResultText(Reply(run.ending))
  {
    ReportedPairsAreAnswers(parentTools, task, plan, maxIterations, config, systemEstimate, env, script);
  }

  /**
   * The reported "tool calls made" is the number of model answers the
   * history still charges for: the sub-agent's history stays in
   * (user, assistant) pairs, with a trailing user turn after a budget stop.
   */
  lemma ReportedPairsAreAnswers<T(!new)>(parentTools: seq<T>, task: String, plan: String, maxIterations: int, config: ModelConfig, systemEstimate: int,
                                   env: Env<T>, script: seq<Response>)
    ensures var d := Delegate(parentTools, task, plan, maxIterations, config, systemEstimate);
      var r := Run(d.agent, d.input, env, script);
      !r.ending.ProviderError? ==> |r.agent.history.messages| / 2 == |r.agent.history.ledger|
  {
    var d := Delegate(parentTools, task, plan, maxIterations, config, systemEstimate);
    RunAlignment(d.agent, d.input, env, script);
  }
}
