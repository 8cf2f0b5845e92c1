/**
 * The `research_lead` and `quick_research` tools: each builds a research
 * agent over a tool set derived from the parent's tools and runs it on
 * the query.
 */
module ResearchLead {
  import opened Wrappers
  import opened Text
  import opened Conversation
  import opened History
  import opened AgentLoop
  import opened Registry

  /**
   * A tool a research agent can hold: one of the parent's tools, the web
   * tool created when the parent has none, or one of the research tools
   * (built over a web tool, or over the tools their sub-agents get).
   */
  datatype LeadTool<T> =
    | Parent(tool: T)
    | OwnWeb
    | SearchTool(web: LeadTool<T>)
    | FetchTool(web: LeadTool<T>)
    | BlockingTool(subTools: seq<LeadTool<T>>)
    | ParallelTool(subTools: seq<LeadTool<T>>)
    | DelegateTool(subTools: seq<LeadTool<T>>)
    | CompleteTool
    | CitationTool

  /** The name each tool registers under. */
  function Name<T>(t: LeadTool<T>, nameOf: T -> String): String {
    match t
    case Parent(p) => nameOf(p)
    case OwnWeb => "web"
    case SearchTool(_) => "web_search"
    case FetchTool(_) => "web_fetch"
    case BlockingTool(_) => "run_blocking_subagent"
    case ParallelTool(_) => "run_parallel_agents"
    case DelegateTool(_) => "agent"
    case CompleteTool => "complete_task"
    case CitationTool => "add_citations"
  }

  /** The research lead's choice of web tool: the last parent tool named "web". */
  function LastWeb<T>(parents: seq<T>, nameOf: T -> String): (w: Option<T>)
    ensures w.Some? ==> exists i :: 0 <= i < |parents| && parents[i] == w.value && nameOf(parents[i]) == "web"
                                  && forall j :: i < j < |parents| ==> nameOf(parents[j]) != "web"
    ensures w.None? ==> forall i :: 0 <= i < |parents| ==> nameOf(parents[i]) != "web"
    decreases |parents|
  {
    if |parents| == 0 then None
    else
      var last := parents[|parents| - 1];
      if nameOf(last) == "web" then Some(last)
      else
        var w := LastWeb(parents[..|parents| - 1], nameOf);
        assert forall i :: 0 <= i < |parents| - 1 ==> parents[..|parents| - 1][i] == parents[i];
        w
  }

  /** The quick researcher's choice of web tool: the first parent tool named "web". */
  function FirstWeb<T>(parents: seq<T>, nameOf: T -> String): (w: Option<T>)
    ensures w.Some? ==> exists i :: 0 <= i < |parents| && parents[i] == w.value && nameOf(parents[i]) == "web"
                                  && forall j :: 0 <= j < i ==> nameOf(parents[j]) != "web"
    ensures w.None? ==> forall i :: 0 <= i < |parents| ==> nameOf(parents[i]) != "web"
    decreases |parents|
  {
    if |parents| == 0 then None
    else if nameOf(parents[0]) == "web" then Some(parents[0])
    else
      var w := FirstWeb(parents[1..], nameOf);
      assert forall i :: 1 <= i < |parents| ==> parents[1..][i - 1] == parents[i];
      w
  }

  /** A chosen parent web tool, or the created one when there is none. */
  function WebOf<T>(w: Option<T>): (t: LeadTool<T>)
    ensures w.Some? ==> t == Parent(w.value)
    ensures w.None? ==> t == OwnWeb
  {
    if w.Some? then Parent(w.value) else OwnWeb
  }

  /**
   * With two web tools among the parent's, the two research tools search
   * through different ones: the lead keeps the last, the quick researcher
   * the first.
   */
  lemma WebChoicesDiffer<T>(a: T, b: T, nameOf: T -> String)
    requires a != b && nameOf(a) == "web" && nameOf(b) == "web"
    ensures LastWeb([a, b], nameOf) == Some(b)
    ensures FirstWeb([a, b], nameOf) == Some(a)
  {
    assert [a, b][..1] == [a];
  }

  /** The names filtered out of the parent's tools: the web tools the research suite replaces. */
  const WebNames: set<String> := {"web", "exa_web", "web_search", "web_fetch"}

  /** The parent's tools without the web tools, in their order. */
  function Filtered<T>(parents: seq<T>, nameOf: T -> String): (r: seq<T>)
    ensures forall i :: 0 <= i < |r| ==> r[i] in parents && nameOf(r[i]) !in WebNames
    ensures forall i :: 0 <= i < |parents| && nameOf(parents[i]) !in WebNames ==> parents[i] in r
    ensures |r| <= |parents|
    decreases |parents|
  {
    if |parents| == 0 then []
    else
      var rest := Filtered(parents[1..], nameOf);
      assert forall i :: 1 <= i < |parents| ==> parents[i] == parents[1..][i - 1];
      if nameOf(parents[0]) in WebNames then rest else [parents[0]] + rest
  }

  /** Every tool as a lead tool. */
  function Lift<T>(ts: seq<T>): (r: seq<LeadTool<T>>)
    ensures |r| == |ts| && forall i :: 0 <= i < |ts| ==> r[i] == Parent(ts[i])
  {
    seq(|ts|, i requires 0 <= i < |ts| => Parent(ts[i]))
  }

  /** The tools every research sub-agent gets besides the filtered parent tools. */
  function Essential<T>(web: LeadTool<T>): seq<LeadTool<T>> {
    [SearchTool(web), FetchTool(web), web, CompleteTool]
  }

  /** The tools the research sub-agents run with. */
  function SubTools<T>(parents: seq<T>, nameOf: T -> String): (r: seq<LeadTool<T>>)
    ensures var web := WebOf(LastWeb(parents, nameOf));
      |r| >= 4 && r[|r| - 4..] == Essential(web)
  {
    var web := WebOf(LastWeb(parents, nameOf));
    var r := Lift(Filtered(parents, nameOf)) + Essential(web);
    assert r[|r| - 4..] == Essential(web);
    r
  }

  /** The sub-agents' tools hold exactly one search and one fetch tool, and no parent tool that the suite replaces. */
  lemma SubToolsHoldOneSearch<T>(parents: seq<T>, nameOf: T -> String)
    ensures var r := SubTools(parents, nameOf);
      forall i :: 0 <= i < |r| - 4 ==> r[i].Parent? && nameOf(r[i].tool) !in WebNames
  {
  }

  /** The research suite, in the order the lead agent is given it. */
  function ResearchTools<T>(parents: seq<T>, nameOf: T -> String): (r: seq<LeadTool<T>>)
    ensures |r| == 7
    ensures forall i, j :: 0 <= i < j < 7 ==> Name(r[i], nameOf) != Name(r[j], nameOf)
  {
    var web := WebOf(LastWeb(parents, nameOf));
    var sub := SubTools(parents, nameOf);
    [SearchTool(web), FetchTool(web), BlockingTool(sub), ParallelTool(sub), DelegateTool(sub), CompleteTool, CitationTool]
  }

  /** The suite is built once, on first use, and kept. */
  datatype LeadState<T> = LeadState(cached: Option<seq<LeadTool<T>>>)

  function GetResearchTools<T>(parents: seq<T>, nameOf: T -> String, s: LeadState<T>): (r: (seq<LeadTool<T>>, LeadState<T>))
    ensures r.1.cached == Some(r.0)
    ensures s.cached.Some? ==> r.0 == s.cached.value && r.1 == s
    ensures s.cached.None? ==> r.0 == ResearchTools(parents, nameOf)
  {
    if s.cached.Some? then (s.cached.value, s)
    else
      var tools := ResearchTools(parents, nameOf);
      (tools, LeadState(Some(tools)))
  }

  /** Asking twice gives the same suite and leaves the state as the first call left it. */
  lemma GetResearchToolsIdempotent<T>(parents: seq<T>, nameOf: T -> String, s: LeadState<T>)
    ensures var (t1, s1) := GetResearchTools(parents, nameOf, s);
      var (t2, s2) := GetResearchTools(parents, nameOf, s1);
      t2 == t1 && s2 == s1
  {
  }

  /** Each tool as a dict item under its name. */
  function Entries<T>(ts: seq<LeadTool<T>>, nameOf: T -> String): (r: seq<Entry<LeadTool<T>>>)
    ensures |r| == |ts| && forall i :: 0 <= i < |ts| ==> r[i] == Entry(Name(ts[i], nameOf), ts[i])
  {
    seq(|ts|, i requires 0 <= i < |ts| => Entry(Name(ts[i], nameOf), ts[i]))
  }

  /**
   * The lead agent's tools: the parent's and the suite's tools keyed by
   * name, so a suite tool replaces a parent tool of the same name.
   */
  function LeadTools<T>(parents: seq<T>, nameOf: T -> String, research: seq<LeadTool<T>>): (r: seq<Entry<LeadTool<T>>>)
    ensures Distinct(r)
    ensures forall n :: Position(r, n) >= 0 <==> Position(Entries(Lift(parents), nameOf) + Entries(research, nameOf), n) >= 0
  {
    DictItems(Entries(Lift(parents), nameOf) + Entries(research, nameOf))
  }

  /** Every research tool is among the lead's tools under its own name, whatever parent tool had that name. */
  lemma SuiteToolsWin<T>(parents: seq<T>, nameOf: T -> String, k: int)
    requires 0 <= k < 7
    ensures var research := ResearchTools(parents, nameOf);
      var r := LeadTools(parents, nameOf, research);
      var p := Position(r, Name(research[k], nameOf));
      0 <= p && r[p].value == research[k]
  {
    var research := ResearchTools(parents, nameOf);
    var all := Entries(Lift(parents), nameOf) + Entries(research, nameOf);
    var i := |parents| + k;
    assert all[i] == Entry(Name(research[k], nameOf), research[k]);
    forall j | i < j < |all|
      ensures all[j].name != all[i].name
    {
      assert all[j] == Entries(research, nameOf)[j - |parents|];
    }
    DictItemsLastWins(all, i);
  }

  /** A parent tool whose name no research tool takes keeps its place ahead of the names that come after it. */
  lemma ParentOrderKept<T>(parents: seq<T>, nameOf: T -> String, i: int, j: int)
    requires 0 <= i < j < |parents|
    requires Position(Entries(Lift(parents), nameOf), nameOf(parents[i])) == i
    requires Position(Entries(Lift(parents), nameOf), nameOf(parents[j])) == j
    ensures var r := LeadTools(parents, nameOf, ResearchTools(parents, nameOf));
      0 <= Position(r, nameOf(parents[i])) < Position(r, nameOf(parents[j]))
  {
    var es := Entries(Lift(parents), nameOf);
    var all := es + Entries(ResearchTools(parents, nameOf), nameOf);
    PositionInConcat(es, Entries(ResearchTools(parents, nameOf), nameOf), nameOf(parents[i]));
    PositionInConcat(es, Entries(ResearchTools(parents, nameOf), nameOf), nameOf(parents[j]));
    DictItemsFirstPosition(all, nameOf(parents[i]), nameOf(parents[j]));
  }

  /** A name found in a prefix is found at the same place in the whole list. */
  lemma PositionInConcat<T>(a: seq<Entry<T>>, b: seq<Entry<T>>, n: String)
    requires Position(a, n) >= 0
    ensures Position(a + b, n) == Position(a, n)
  {
    var p := Position(a, n);
    assert (a + b)[p] == a[p];
    assert forall j :: 0 <= j < p ==> (a + b)[j] == a[j];
  }

  function Values<T>(es: seq<Entry<T>>): (r: seq<T>)
    ensures |r| == |es| && forall i :: 0 <= i < |es| ==> r[i] == es[i].value
  {
    seq(|es|, i requires 0 <= i < |es| => es[i].value)
  }

  const DefaultLeadRounds: int := 50
  const LeadError: String := "Error conducting research: "

  /** What the world supplies for one run: the message of a request that raised, `str()` of a reply without content, and the size of the lead agent's source list. */
  datatype Observed = Observed(failure: String, shown: String, collected: nat)

  /** A reply's text: its text blocks joined by newlines, or `str()` of the reply when it has no content. */
  function ReplyText(content: seq<Block>, shown: String): (t: String)
    ensures |content| == 0 ==> t == shown
    ensures |content| > 0 ==> t == Join(Texts(content), "\n")
  {
    if |content| > 0 then Join(Texts(content), "\n") else shown
  }

  /** The suffix counting the sources the lead agent collected. */
  function SourcesNote(collected: nat): (s: String)
    ensures collected == 0 <==> s == ""
  {
    if collected > 0 then "\n\n**Research Sources:** " + NatToString(collected) + " sources consulted" else ""
  }

  /** The lead agent over the given tools, with its round budget. */
  function LeadAgent<T>(tools: seq<Entry<LeadTool<T>>>, maxRounds: int, systemEstimate: int): (a: Agent<LeadTool<T>>)
    ensures a.tools == Values(tools) && a.maxRounds == Some(maxRounds)
  {
    NewAgent(Values(tools), Some(maxRounds), ModelConfig("claude-3-5-sonnet-20241022", 4096, 7, 180000), systemEstimate)
  }

  /** The tool's answer once the lead agent has run. */
  function Answered<T>(run: RunOutcome<T>, o: Observed): (out: String)
    ensures run.ending.ProviderError? ==> out == LeadError + o.failure
    ensures run.ending.Replied? ==> out == ReplyText(run.ending.content, o.shown) + SourcesNote(o.collected)
    ensures run.ending.OutOfRounds? ==> out == run.ending.text + SourcesNote(o.collected)
  {
    if run.ending.ProviderError? then LeadError + o.failure
    else ReplyText(Reply(run.ending), o.shown) + SourcesNote(o.collected)
  }

  /**
   * `ResearchLeadTool.execute`: `requireCitations` is accepted and not
   * consulted.
   */
  function Execute<T(!new)>(parents: seq<T>, nameOf: T -> String, s: LeadState<T>, query: String, maxRounds: int, requireCitations: bool,
                      env: Env<LeadTool<T>>, script: seq<Response>, o: Observed, systemEstimate: int): (r: (String, LeadState<T>))
    ensures r.1 == GetResearchTools(parents, nameOf, s).1
    ensures LeadAnswer(Run(LeadAgent(LeadTools(parents, nameOf, GetResearchTools(parents, nameOf, s).0), maxRounds, systemEstimate), query, env, script),
                       script, o, maxRounds, r.0)
  {
    var got := GetResearchTools(parents, nameOf, s);
    var a := LeadAgent(LeadTools(parents, nameOf, got.0), maxRounds, systemEstimate);
    var run := Run(a, query, env, script);
    AnsweredIsLeadAnswer(a, query, env, script, o);
    (Answered(run, o), got.1)
  }

  /**
   * The answer to a lead run with budget `maxRounds`: the first scripted
   * response that asks for no tools, or the budget notice, each followed by
   * the sources note; or the error of a request that raised.
   */
  predicate LeadAnswer<T>(run: RunOutcome<T>, script: seq<Response>, o: Observed, maxRounds: int, out: String) {
    && (run.ending.Replied? ==>
          && 1 <= run.consumed <= |script|
          && !AsksTools(script[run.consumed - 1]) && AsksToolsFirst(script, run.consumed - 1)
          && out == ReplyText(script[run.consumed - 1].content, o.shown) + SourcesNote(o.collected))
    && (run.ending.OutOfRounds? ==> maxRounds != 0 && out == BudgetText(maxRounds) + SourcesNote(o.collected))
    && (run.ending.ProviderError? ==> out == LeadError + o.failure)
  }

  lemma AnsweredIsLeadAnswer<T(!new)>(a: Agent<T>, query: String, env: Env<T>, script: seq<Response>, o: Observed)
    requires a.maxRounds.Some?
    ensures LeadAnswer(Run(a, query, env, script), script, o, a.maxRounds.value, Answered(Run(a, query, env, script), o))
  {
    AnswersFinalResponse(a, query, env, script, o);
    RunBudgetText(a, query, env, script);
  }

  /** The citation flag changes nothing. */
  lemma CitationsFlagIgnored<T(!new)>(parents: seq<T>, nameOf: T -> String, s: LeadState<T>, query: String, maxRounds: int,
                                env: Env<LeadTool<T>>, script: seq<Response>, o: Observed, systemEstimate: int)
    ensures Execute(parents, nameOf, s, query, maxRounds, true, env, script, o, systemEstimate)
      == Execute(parents, nameOf, s, query, maxRounds, false, env, script, o, systemEstimate)
  {
  }

  /**
   * When the lead agent answers without asking for tools, the tool's
   * answer (`Execute` hands the lead agent to `Answered`) is the text of the
   * first scripted response that asks for none, followed by the sources note.
   */
  lemma AnswersFinalResponse<T(!new)>(a: Agent<T>, query: String, env: Env<T>, script: seq<Response>, o: Observed)
    ensures var run := Run(a, query, env, script);
      && RepliedAtFirstQuiet(run, script)
      && (run.ending.Replied? ==> Answered(run, o) == ReplyText(script[run.consumed - 1].content, o.shown) + SourcesNote(o.collected))
  {
    RunReplied(a, query, env, script);
    AnsweredReply(Run(a, query, env, script), script, o);
  }

  lemma AnsweredReply<T>(run: RunOutcome<T>, script: seq<Response>, o: Observed)
    requires RepliedAtFirstQuiet(run, script)
    ensures run.ending.Replied? ==>
      1 <= run.consumed <= |script| && Answered(run, o) == ReplyText(script[run.consumed - 1].content, o.shown) + SourcesNote(o.collected)
  {
  }

  const QuickRounds: int := 10
  const QuickError: String := "Error conducting quick research: "

  /** The quick researcher's tools: its web tool, then search and fetch over it. */
  function QuickTools<T>(parents: seq<T>, nameOf: T -> String): (r: seq<LeadTool<T>>)
    ensures var web := WebOf(FirstWeb(parents, nameOf));
      r == [web, SearchTool(web), FetchTool(web)]
      && Name(r[0], nameOf) == "web"
      && Name(r[1], nameOf) == "web_search" && Name(r[2], nameOf) == "web_fetch"
  {
    var web := WebOf(FirstWeb(parents, nameOf));
    [web, SearchTool(web), FetchTool(web)]
  }

  /** The quick researcher's answer once its agent has run: no sources note. */
  function QuickAnswer<T>(run: RunOutcome<T>, o: Observed): (out: String)
    ensures run.ending.ProviderError? ==> out == QuickError + o.failure
    ensures run.ending.OutOfRounds? ==> out == run.ending.text
    ensures run.ending.Replied? ==> out == ReplyText(run.ending.content, o.shown)
  {
    if run.ending.ProviderError? then QuickError + o.failure
    else
      var out := ReplyText(Reply(run.ending), o.shown);
      assert run.ending.OutOfRounds? ==> Texts([TextBlock(run.ending.text)]) == [run.ending.text];
      out
  }

  /** The quick researcher's agent: its three web tools and a budget of ten rounds. */
  function QuickAgent<T>(parents: seq<T>, nameOf: T -> String, systemEstimate: int): (a: Agent<LeadTool<T>>)
    ensures a.maxRounds == Some(QuickRounds)
  {
    NewAgent(QuickTools(parents, nameOf), Some(QuickRounds), ModelConfig("claude-3-5-haiku-20241022", 2048, 3, 180000), systemEstimate)
  }

  function QuickInput(query: String): String {
    "Research and provide information about: " + query
  }

  /**
   * What the quick researcher answers for each ending: the text of the
   * first scripted response that asks for no tools, the ten-round notice,
   * or the error of a request that raised; never a sources note.
   */
  predicate QuickResult<T>(run: RunOutcome<T>, script: seq<Response>, o: Observed, out: String) {
    && (run.ending.Replied? ==>
          && 1 <= run.consumed <= |script|
          && !AsksTools(script[run.consumed - 1]) && AsksToolsFirst(script, run.consumed - 1)
          && out == ReplyText(script[run.consumed - 1].content, o.shown))
    && (run.ending.OutOfRounds? ==> out == BudgetText(QuickRounds))
    && (run.ending.ProviderError? ==> out == QuickError + o.failure)
  }

  /** `QuickResearchTool.execute`. */
  function Quick<T(!new)>(parents: seq<T>, nameOf: T -> String, query: String, env: Env<LeadTool<T>>, script: seq<Response>, o: Observed, systemEstimate: int): (out: String)
    ensures QuickResult(Run(QuickAgent(parents, nameOf, systemEstimate), QuickInput(query), env, script), script, o, out)
  {
    var a := QuickAgent(parents, nameOf, systemEstimate);
    RunReplied(a, QuickInput(query), env, script);
    RunBudgetText(a, QuickInput(query), env, script);
    QuickAnswer(Run(a, QuickInput(query), env, script), o)
  }

  /**
   * The quick researcher stops after ten rounds of tool use: a model that
   * keeps asking for tools gets the budget notice back.
   */
  lemma QuickStopsAfterTenRounds<T(!new)>(parents: seq<T>, nameOf: T -> String, query: String, env: Env<LeadTool<T>>, script: seq<Response>, o: Observed, systemEstimate: int)
    requires |script| >= 10 && AsksToolsFirst(script, 10)
    ensures Quick(parents, nameOf, query, env, script, o, systemEstimate) == BudgetText(10)
  {
    RunStopsAtBudget(QuickAgent(parents, nameOf, systemEstimate), QuickInput(query), env, script, 10);
  }
}
