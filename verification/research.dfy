/**
 * The tools a research agent works with: search and fetch that record
 * what they saw as sources, a blocking sub-agent, the final report, a
 * fan-out over parallel research agents, and a citation pass.
 *
 * A tool records sources only once it has been attached to an agent that
 * keeps a source list; `tracking` says whether it has been.
 */
module Research {
  import opened Wrappers
  import opened Text
  import opened Conversation
  import opened History
  import opened AgentLoop
  import SubAgent

  /** One entry of an agent's source list. */
  datatype Source = Source(url: String, title: String, preview: Option<String>, tool: String, timestamp: String)

  /** What a research tool answers, and the source list after the call. */
  datatype Answer = Answer(text: String, sources: seq<Source>)

  // ---------------------------------------------------------------- web_search

  /** The web tool is asked for a result count only when it is the Exa-backed one. */
  function SearchRequestCount(webIsExa: bool, maxResults: int): (n: Option<int>)
    ensures n.Some? <==> webIsExa
    ensures n.Some? ==> n.value == maxResults
  {
    if webIsExa then Some(maxResults) else None
  }

  const UrlLabel: String := "URL:"

  /** A result line that announces a URL, once surrounding blanks are stripped. */
  predicate IsUrlLine(line: String) {
    StartsWith(Strip(line), UrlLabel)
  }

  /** The URL a line announces: every "URL:" removed, then blanks stripped. */
  function LineUrl(line: String): String {
    Strip(Replace(line, UrlLabel, ""))
  }

  /** `lines.index(line)`: where `line` first occurs; `|lines|` when it does not. */
  function FirstIndex(lines: seq<String>, line: String): (i: nat)
    ensures i <= |lines|
    ensures i < |lines| <==> line in lines
    ensures i < |lines| ==> lines[i] == line
    ensures forall j :: 0 <= j < i ==> lines[j] != line
    decreases |lines|
  {
    if |lines| == 0 then 0
    else if lines[0] == line then 0
    else
      var k := FirstIndex(lines[1..], line);
      assert forall j :: 1 <= j < k + 1 ==> lines[j] == lines[1..][j - 1];
      k + 1
  }

  /**
   * The first line that, stripped, starts with the result number and a
   * dot, stripped; "Search Result" when there is none.
   */
  function NumberedTitle(lines: seq<String>, k: nat): (t: String)
    ensures t == "Search Result" || exists j :: 0 <= j < |lines| && t == Strip(lines[j]) && StartsWith(t, NatToString(k) + ".")
    decreases |lines|
  {
    if |lines| == 0 then "Search Result"
    else if StartsWith(Strip(lines[0]), NatToString(k) + ".") then Strip(lines[0])
    else
      var t := NumberedTitle(lines[1..], k);
      assert t != "Search Result" ==> exists j :: 0 <= j < |lines[1..]| && t == Strip(lines[1..][j]) && StartsWith(t, NatToString(k) + ".");
      t
  }

  /** With no numbered line the title is "Search Result". */
  lemma {:induction false} NumberedTitleNone(lines: seq<String>, k: nat)
    requires forall j :: 0 <= j < |lines| ==> !Numbered(lines[j], k)
    ensures NumberedTitle(lines, k) == "Search Result"
    decreases |lines|
  {
    if |lines| > 0 {
      assert !Numbered(lines[0], k);
      NumberedTitleSkip(lines, k);
      assert forall j :: 1 <= j < |lines| ==> lines[1..][j - 1] == lines[j];
      NumberedTitleNone(lines[1..], k);
    }
  }

  /** The title is the first numbered line, stripped, when there is one. */
  lemma {:induction false} NumberedTitleFirst(lines: seq<String>, k: nat)
    ensures var i := FirstNumberedIndex(lines, k);
      NumberedTitle(lines, k) == if i < |lines| then Strip(lines[i]) else "Search Result"
    decreases |lines|
  {
    if |lines| > 0 {
      if Numbered(lines[0], k) {
        NumberedTitleHead(lines, k);
      } else {
        NumberedTitleSkip(lines, k);
        NumberedTitleFirst(lines[1..], k);
        var i := FirstNumberedIndex(lines[1..], k);
        assert i < |lines| - 1 ==> lines[1..][i] == lines[i + 1];
      }
    }
  }

  /** Where the first line numbered `k` is; `|lines|` when there is none. */
  function FirstNumberedIndex(lines: seq<String>, k: nat): (i: nat)
    ensures i <= |lines|
    ensures i < |lines| ==> Numbered(lines[i], k)
    ensures forall j :: 0 <= j < i ==> !Numbered(lines[j], k)
    decreases |lines|
  {
    if |lines| == 0 then 0
    else if Numbered(lines[0], k) then 0
    else
      var rest := lines[1..];
      var i := FirstNumberedIndex(rest, k);
      assert i < |rest| ==> lines[i + 1] == rest[i];
      assert forall j :: 1 <= j < i + 1 ==> !Numbered(lines[j], k) by {
        forall j | 1 <= j < i + 1
          ensures !Numbered(lines[j], k)
        {
          assert lines[j] == rest[j - 1];
        }
      }
      i + 1
  }

  lemma NumberedTitleHead(lines: seq<String>, k: nat)
    requires |lines| > 0 && Numbered(lines[0], k)
    ensures NumberedTitle(lines, k) == Strip(lines[0])
  {
  }

  lemma NumberedTitleSkip(lines: seq<String>, k: nat)
    requires |lines| > 0 && !Numbered(lines[0], k)
    ensures NumberedTitle(lines, k) == NumberedTitle(lines[1..], k)
  {
  }

  /** The line, stripped, starts with the number `k` and a dot. */
  predicate Numbered(line: String, k: nat) {
    StartsWith(Strip(line), NatToString(k) + ".")
  }


  /**
   * The title of the result whose URL is on `line`: results are taken to
   * be four lines each, so the number looked for is the line's first
   * position divided by four, plus one.
   */
  function SearchTitle(lines: seq<String>, line: String): String {
    NumberedTitle(lines, FirstIndex(lines, line) / 4 + 1)
  }

  /** The source recorded for one URL line. */
  function SearchSource(lines: seq<String>, line: String, timestamp: String): Source {
    Source(LineUrl(line), SearchTitle(lines, line), None, "web_search", timestamp)
  }

  /** The loop over the result lines, each URL line adding a source; `all` are the lines titles are looked up in. */
  function SearchSources(all: seq<String>, rest: seq<String>, timestamp: String): seq<Source>
    decreases |rest|
  {
    if |rest| == 0 then []
    else
      var tail := SearchSources(all, rest[1..], timestamp);
      if IsUrlLine(rest[0]) then [SearchSource(all, rest[0], timestamp)] + tail else tail
  }

  /** The URL lines, in order: the reference the loop is checked against. */
  function UrlLines(lines: seq<String>): (u: seq<String>)
    ensures forall j :: 0 <= j < |u| ==> u[j] in lines && IsUrlLine(u[j])
    decreases |lines|
  {
    if |lines| == 0 then []
    else
      var tail := UrlLines(lines[1..]);
      if IsUrlLine(lines[0]) then [lines[0]] + tail else tail
  }

  /** `s` holds, position by position, the source of each line of `u`. */
  predicate SourcesOf(s: seq<Source>, u: seq<String>, all: seq<String>, timestamp: String) {
    |s| == |u| && forall j :: 0 <= j < |u| ==> s[j] == SearchSource(all, u[j], timestamp)
  }

  lemma SourcesOfCons(line: String, tail: seq<Source>, utail: seq<String>, all: seq<String>, timestamp: String)
    requires SourcesOf(tail, utail, all, timestamp)
    ensures SourcesOf([SearchSource(all, line, timestamp)] + tail, [line] + utail, all, timestamp)
  {
    PointwiseCons(l => SearchSource(all, l, timestamp), line, tail, utail);
  }

  /** Putting `f(x)` before the images of `u` gives the images of `x` before `u`. */
  lemma PointwiseCons<A, B>(f: A -> B, x: A, tail: seq<B>, utail: seq<A>)
    requires |tail| == |utail| && forall j :: 0 <= j < |utail| ==> tail[j] == f(utail[j])
    ensures var s, u := [f(x)] + tail, [x] + utail;
      |s| == |u| && forall j :: 0 <= j < |u| ==> s[j] == f(u[j])
  {
    var s, u := [f(x)] + tail, [x] + utail;
    forall j | 0 <= j < |u|
      ensures s[j] == f(u[j])
    {
      if j > 0 {
        assert u[j] == utail[j - 1] && s[j] == tail[j - 1];
      }
    }
  }

  /** One source per URL line, in the order of the lines, each naming its line's URL and title. */
  lemma {:induction false} SearchSourcesPerUrlLine(all: seq<String>, rest: seq<String>, timestamp: String)
    ensures SourcesOf(SearchSources(all, rest, timestamp), UrlLines(rest), all, timestamp)
    decreases |rest|
  {
    if |rest| > 0 {
      SearchSourcesPerUrlLine(all, rest[1..], timestamp);
      if IsUrlLine(rest[0]) {
        SourcesOfCons(rest[0], SearchSources(all, rest[1..], timestamp), UrlLines(rest[1..]), all, timestamp);
      }
    }
  }

  /** The text the web tool answered, or the exception it raised. */
  datatype Fetched = Fetched(text: String) | FetchFailed(message: String)

  /** `WebSearchTool.execute` once the web tool has answered. */
  function WebSearch(fetched: Fetched, tracking: bool, timestamp: String, sources: seq<Source>): (a: Answer)
    ensures fetched.Fetched? ==> a.text == fetched.text
    ensures fetched.FetchFailed? ==> a.text == "Error searching web: " + fetched.message
    ensures fetched.FetchFailed? || !tracking ==> a.sources == sources
    ensures |sources| <= |a.sources| && a.sources[..|sources|] == sources
  {
    if fetched.FetchFailed? then Answer("Error searching web: " + fetched.message, sources)
    else if !tracking then Answer(fetched.text, sources)
    else
      var lines := Split(fetched.text, '\n');
      Answer(fetched.text, sources + SearchSources(lines, lines, timestamp))
  }

  /** With tracking on, a successful search adds exactly one source per URL line of its result, in order. */
  lemma WebSearchRecordsUrlLines(text: String, timestamp: String, sources: seq<Source>)
    ensures var a := WebSearch(Fetched(text), true, timestamp, sources);
      var lines := Split(text, '\n');
      var u := UrlLines(lines);
      |a.sources| == |sources| + |u|
      && forall j :: 0 <= j < |u| ==> a.sources[|sources| + j].url == LineUrl(u[j]) && a.sources[|sources| + j].tool == "web_search"
  {
    var lines := Split(text, '\n');
    SearchSourcesPerUrlLine(lines, lines, timestamp);
  }

  // ---------------------------------------------------------------- web_fetch

  const PreviewLength: nat := 500

  /** The first line that starts with "# ", as an index; -1 when there is none. */
  function FirstHeading(lines: seq<String>): (i: int)
    ensures -1 <= i < |lines|
    ensures i >= 0 ==> StartsWith(lines[i], "# ")
    ensures forall j :: 0 <= j < |lines| && (i < 0 || j < i) ==> !StartsWith(lines[j], "# ")
    decreases |lines|
  {
    if |lines| == 0 then -1
    else if StartsWith(lines[0], "# ") then 0
    else
      var k := FirstHeading(lines[1..]);
      assert forall j :: 1 <= j < |lines| ==> lines[j] == lines[1..][j - 1];
      if k < 0 then -1 else k + 1
  }

  /** A fetched page's title: its first "# " heading, stripped; the URL when it has none. */
  function PageTitle(text: String, url: String): (t: String)
    ensures var lines := Split(text, '\n'); var i := FirstHeading(lines);
      (i < 0 ==> t == url) && (i >= 0 ==> t == Strip(lines[i][2..]))
  {
    var lines := Split(text, '\n');
    var i := FirstHeading(lines);
    if i < 0 then url else Strip(lines[i][2..])
  }

  /** `WebFetchTool.execute` once the web tool has answered. */
  function WebFetch(url: String, fetched: Fetched, tracking: bool, timestamp: String, sources: seq<Source>): (a: Answer)
    ensures fetched.Fetched? ==> a.text == fetched.text
    ensures fetched.FetchFailed? ==> a.text == "Error fetching URL: " + fetched.message
    ensures |a.sources| == |sources| + (if fetched.Fetched? && tracking then 1 else 0)
    ensures a.sources[..|sources|] == sources
    ensures fetched.Fetched? && tracking ==>
      (a.sources[|sources|].url == url
       && a.sources[|sources|].title == PageTitle(fetched.text, url)
       && a.sources[|sources|].tool == "web_fetch")
  {
    if fetched.FetchFailed? then Answer("Error fetching URL: " + fetched.message, sources)
    else if !tracking then Answer(fetched.text, sources)
    else
      var preview := Take(fetched.text, PreviewLength) + "...";
      Answer(fetched.text, sources + [Source(url, PageTitle(fetched.text, url), Some(preview), "web_fetch", timestamp)])
  }

  /** The preview holds the page's first 500 characters (all of it when shorter), then an ellipsis. */
  lemma FetchPreview(url: String, text: String, timestamp: String, sources: seq<Source>)
    ensures var s := WebFetch(url, Fetched(text), true, timestamp, sources).sources[|sources|];
      s.preview.Some? && EndsWith(s.preview.value, "...")
      && |s.preview.value| == (if |text| < PreviewLength then |text| else PreviewLength) + 3
      && StartsWith(text, s.preview.value[..|s.preview.value| - 3])
  {
    var p := Take(text, PreviewLength) + "...";
    assert p[|p| - 3..] == "...";
    assert p[..|p| - 3] == Take(text, PreviewLength);
  }

  // ---------------------------------------------------------------- run_blocking_subagent

  const ResearchPlan: String := "Follow the research process to gather information and report findings"
  const ResearchIterations: int := 20

  /** The name tag put in front of the sub-agent's answer: only a non-empty name gets one. */
  function NameTag(name: Option<String>): (tag: String)
    ensures name.None? || |name.value| == 0 <==> |tag| == 0
    ensures name.Some? && |name.value| > 0 ==> tag == "[" + name.value + "] "
  {
    if name.Some? && |name.value| > 0 then "[" + name.value + "] " else ""
  }

  /**
   * `RunBlockingSubagentTool.execute`: the prompt becomes the sub-agent's
   * task, with the research plan and a budget of twenty rounds.
   */
  function RunBlocking<T>(parentTools: seq<T>, prompt: String, name: Option<String>, systemEstimate: int,
                          env: Env<T>, script: seq<Response>, failure: String): (out: String)
    ensures var tag := NameTag(name);
      StartsWith(out, tag)
      && out[|tag|..] == SubAgent.Execute(parentTools, prompt, ResearchPlan, ResearchIterations, DefaultConfig, systemEstimate, env, script, failure)
  {
    var tag := NameTag(name);
    var result := SubAgent.Execute(parentTools, prompt, ResearchPlan, ResearchIterations, DefaultConfig, systemEstimate, env, script, failure);
    assert (tag + result)[..|tag|] == tag;
    assert (tag + result)[|tag|..] == result;
    tag + result
  }

  /** The blocking sub-agent runs with the parent's tools, twenty rounds, and the research plan in its prompt. */
  lemma RunBlockingConfiguration<T>(parentTools: seq<T>, prompt: String, systemEstimate: int)
    ensures var d := SubAgent.Delegate(parentTools, prompt, ResearchPlan, ResearchIterations, DefaultConfig, systemEstimate);
      d.agent.tools == parentTools && d.agent.maxRounds == Some(20)
      && Contains(d.system, SubAgent.ApproachLabel + ResearchPlan)
  {
    SubAgent.PlanInPrompt(prompt, ResearchPlan);
  }

  // ---------------------------------------------------------------- complete_task

  const ReportHead: String := "# Research Report\n"
  const SourcesHead: String := "\n\n## Sources\n"

  /** The four lines each source contributes, numbered from `first`. */
  function SourceLines(sources: seq<Source>, first: nat): (lines: seq<String>)
    ensures |lines| == 4 * |sources|
    decreases |sources|
  {
    if |sources| == 0 then []
    else
      var s := sources[0];
      [NatToString(first) + ". [" + s.title + "](" + s.url + ")",
       "   - Tool: " + s.tool,
       "   - Accessed: " + s.timestamp,
       ""] + SourceLines(sources[1..], first + 1)
  }

  /** The block of source `j` starts with its number, counted from `first`, and names its URL and tool. */
  lemma {:induction false} SourceLinesNumbered(sources: seq<Source>, first: nat, j: nat)
    requires j < |sources|
    ensures var lines := SourceLines(sources, first);
      lines[4 * j] == NatToString(first + j) + ". [" + sources[j].title + "](" + sources[j].url + ")"
      && lines[4 * j + 1] == "   - Tool: " + sources[j].tool
      && lines[4 * j + 3] == ""
    decreases j
  {
    if j > 0 {
      SourceLinesNumbered(sources[1..], first + 1, j - 1);
      var lines := SourceLines(sources, first);
      var tail := SourceLines(sources[1..], first + 1);
      assert lines[4..] == tail;
      assert lines[4 * j] == tail[4 * (j - 1)];
      assert lines[4 * j + 1] == tail[4 * (j - 1) + 1];
      assert lines[4 * j + 3] == tail[4 * (j - 1) + 3];
    }
  }

  /** Whether the report lists sources: asked for, tracked, and some recorded. */
  predicate ListsSources(includeSources: bool, tracking: bool, sources: seq<Source>) {
    includeSources && tracking && |sources| > 0
  }

  /** The report's lines before they are joined with newlines. */
  function ReportLines(result: String, includeSources: bool, tracking: bool, sources: seq<Source>, timestamp: String): (lines: seq<String>)
    ensures |lines| == 3 + (if ListsSources(includeSources, tracking, sources) then 1 + 4 * |sources| else 0)
    ensures lines[0] == ReportHead && lines[2] == result
    ensures ListsSources(includeSources, tracking, sources) ==> lines[3] == SourcesHead && lines[4..] == SourceLines(sources, 1)
  {
    var head := [ReportHead, "*Generated: " + timestamp + "*\n", result];
    if ListsSources(includeSources, tracking, sources) then head + [SourcesHead] + SourceLines(sources, 1) else head
  }

  /** `CompleteTaskTool.execute`. */
  function CompleteTask(result: String, includeSources: bool, tracking: bool, sources: seq<Source>, timestamp: String): (out: String)
    ensures StartsWith(out, ReportHead)
  {
    var lines := ReportLines(result, includeSources, tracking, sources, timestamp);
    JoinStartsWithFirst(lines, "\n");
    Join(lines, "\n")
  }

  /** Without listed sources the report is its header, the timestamp line, and the result verbatim at the end. */
  lemma CompleteTaskWithoutSources(result: String, includeSources: bool, tracking: bool, sources: seq<Source>, timestamp: String)
    requires !ListsSources(includeSources, tracking, sources)
    ensures var head := ReportHead + "\n" + "*Generated: " + timestamp + "*\n" + "\n";
      CompleteTask(result, includeSources, tracking, sources, timestamp) == head + result
  {
    var lines := ReportLines(result, includeSources, tracking, sources, timestamp);
    assert Join(lines, "\n") == lines[0] + "\n" + Join(lines[1..], "\n");
    assert Join(lines[1..], "\n") == lines[1] + "\n" + Join(lines[1..][1..], "\n");
    assert lines[1..][1..] == [result];
  }

  /** With listed sources, the report is the bare report, a newline, then the sources block. */
  lemma CompleteTaskWithSources(result: String, tracking: bool, sources: seq<Source>, timestamp: String)
    requires ListsSources(true, tracking, sources)
    ensures CompleteTask(result, true, tracking, sources, timestamp)
      == CompleteTask(result, false, tracking, sources, timestamp) + "\n" + Join([SourcesHead] + SourceLines(sources, 1), "\n")
  {
    var head := [ReportHead, "*Generated: " + timestamp + "*\n", result];
    var tail := [SourcesHead] + SourceLines(sources, 1);
    assert ReportLines(result, true, tracking, sources, timestamp) == head + tail;
    assert ReportLines(result, false, tracking, sources, timestamp) == head;
    JoinAppend(head, tail, "\n");
  }

  // ---------------------------------------------------------------- run_parallel_agents

  const DefaultMaxConcurrent: int := 20
  const ResearchRounds: int := 20
  const ParallelTitle: String := "# Parallel Research Results"

  /** The configuration of one research agent, as the model supplied it. */
  datatype AgentSpec = AgentSpec(task: Option<String>, name: Option<String>, perspective: Option<String>)

  /**
   * What the world supplies for one research agent: the model's responses,
   * the message of a request that raised, the size of its source list, and
   * the random hex digits of a generated name.
   */
  datatype Observed = Observed(script: seq<Response>, failure: String, collected: nat, hex: String)

  /** The agent's name: the one given, else "Research-" and the hex digits. */
  function AgentName(spec: AgentSpec, hex: String): (n: String)
    ensures spec.name.Some? ==> n == spec.name.value
    ensures spec.name.None? ==> StartsWith(n, "Research-") && n[9..] == hex
  {
    if spec.name.Some? then spec.name.value
    else
      var n := "Research-" + hex;
      assert n[..9] == "Research-" && n[9..] == hex;
      n
  }

  /** The input the agent runs on: a perspective, when non-empty, is added as a focus. */
  function ResearchInput(perspective: String): (p: String)
    ensures StartsWith(p, "Complete the research task assigned to you.")
    ensures |perspective| == 0 <==> p == "Complete the research task assigned to you."
  {
    var base := "Complete the research task assigned to you.";
    if |perspective| == 0 then base
    else
      var p := base + " Focus on the " + perspective + " perspective.";
      assert p[..|base|] == base;
      p
  }

  /** A research agent: the parent's tools, twenty rounds, a fresh history. */
  function ResearchAgent<T>(parentTools: seq<T>, systemEstimate: int): (a: Agent<T>)
    ensures a.tools == parentTools && a.maxRounds == Some(ResearchRounds)
    ensures a.history.messages == [] && a.metrics == map[]
  {
    NewAgent(parentTools, Some(ResearchRounds), ModelConfig("claude-3-5-haiku-20241022", 4096, 10, 180000), systemEstimate)
  }

  /** The section of an agent that raised: headed by its given name, else "agent". */
  function ErrorSection(name: Option<String>, message: String): (s: String)
    ensures StartsWith(s, "=== Error in " + name.GetOr("agent") + " ===\n")
    ensures EndsWith(s, message + "\n")
  {
    var head := "=== Error in " + name.GetOr("agent") + " ===\n";
    var s := head + message + "\n";
    assert s[..|head|] == head;
    assert s[|s| - |message + "\n"|..] == message + "\n";
    s
  }

  /**
   * The lines of a finished agent's section: name and task, a perspective
   * line only for a non-empty perspective, a blank line, the reply's texts
   * in order, the sources count and a closing blank line.
   */
  function SuccessLines(name: String, task: String, perspective: String, texts: seq<String>, collected: nat): (lines: seq<String>)
    ensures |lines| >= 2 && lines[0] == "=== " + name + " ===" && lines[1] == "Task: " + task
    ensures var h := if |perspective| > 0 then 3 else 2;
      && |lines| == h + 1 + |texts| + 2
      && (|perspective| > 0 ==> lines[2] == "Perspective: " + perspective)
      && lines[h] == ""
      && lines[h + 1..h + 1 + |texts|] == texts
      && lines[|lines| - 2] == CollectedLine(collected)
      && lines[|lines| - 1] == ""
  {
    ["=== " + name + " ===", "Task: " + task]
    + (if |perspective| > 0 then ["Perspective: " + perspective] else [])
    + [""] + texts + [CollectedLine(collected), ""]
  }

  function CollectedLine(collected: nat): String {
    "\nSources collected: " + NatToString(collected)
  }

  /** str(KeyError('task')): a configuration without a task fails before any agent is made. */
  const MissingTask: String := "'task'"

  /** The section of an agent that answered: its lines joined, so name and task head it and the count ends it. */
  function SuccessSection(name: String, task: String, perspective: String, texts: seq<String>, collected: nat): (s: String)
    ensures s == Join(SuccessLines(name, task, perspective, texts, collected), "\n")
    ensures StartsWith(s, "=== " + name + " ===\nTask: " + task)
    ensures EndsWith(s, "\n" + CollectedLine(collected) + "\n")
  {
    var lines := SuccessLines(name, task, perspective, texts, collected);
    JoinHeadPair(lines, "\n");
    var n := |lines|;
    var last := [CollectedLine(collected), ""];
    assert lines == lines[..n - 2] + last;
    JoinAppend(lines[..n - 2], last, "\n");
    assert Join(last, "\n") == CollectedLine(collected) + "\n" + "";
    var s := Join(lines, "\n");
    var tail := "\n" + CollectedLine(collected) + "\n";
    assert s == Join(lines[..n - 2], "\n") + tail;
    assert s[|s| - |tail|..] == tail;
    s
  }

  /** One agent's section of the combined answer. */
  function Section<T>(parentTools: seq<T>, spec: AgentSpec, env: Env<T>, o: Observed, systemEstimate: int): (s: String)
    ensures spec.task.None? ==> s == ErrorSection(spec.name, MissingTask)
    ensures spec.task.Some? ==>
      var r := Run(ResearchAgent(parentTools, systemEstimate), ResearchInput(spec.perspective.GetOr("")), env, o.script);
      (r.ending.ProviderError? ==> s == ErrorSection(spec.name, o.failure))
      && (!r.ending.ProviderError? ==> StartsWith(s, "=== " + AgentName(spec, o.hex) + " ===\nTask: " + spec.task.value))
      && (!r.ending.ProviderError? ==>
            s == SuccessSection(AgentName(spec, o.hex), spec.task.value, spec.perspective.GetOr(""), Texts(Reply(r.ending)), o.collected))
  {
    if spec.task.None? then ErrorSection(spec.name, MissingTask)
    else
      var r := Run(ResearchAgent(parentTools, systemEstimate), ResearchInput(spec.perspective.GetOr("")), env, o.script);
      if r.ending.ProviderError? then ErrorSection(spec.name, o.failure)
      else
        SuccessSection(AgentName(spec, o.hex), spec.task.value, spec.perspective.GetOr(""), Texts(Reply(r.ending)), o.collected)
  }

  /** A joined list of at least two lines starts with its first two lines and the separator between them. */
  lemma JoinHeadPair(lines: seq<String>, sep: String)
    requires |lines| >= 2
    ensures StartsWith(Join(lines, sep), lines[0] + sep + lines[1])
  {
    var rest := lines[1..];
    JoinStartsWithFirst(rest, sep);
    var j := Join(rest, sep);
    assert Join(lines, sep) == lines[0] + sep + j;
    assert (lines[0] + sep + j)[..|lines[0] + sep + lines[1]|] == lines[0] + sep + j[..|lines[1]|];
  }

  /** The header lines before the sections. */
  function ParallelHeader(n: nat): seq<String> {
    [ParallelTitle, "Executed " + NatToString(n) + " agents in parallel\n"]
  }

  /** `ParallelAgentTool.execute`. */
  function Parallel<T>(parentTools: seq<T>, maxConcurrent: int, agents: seq<AgentSpec>, env: Env<T>, observed: seq<Observed>, systemEstimate: int): (out: String)
    requires |observed| == |agents|
    ensures |agents| == 0 ==> out == "Error: No agents specified"
    ensures |agents| > 0 && |agents| > maxConcurrent ==>
      out == "Error: Too many agents (" + NatToString(|agents|) + "). Maximum is " + IntToString(maxConcurrent)
    ensures 0 < |agents| <= maxConcurrent ==> StartsWith(out, ParallelTitle + "\n")
  {
    if |agents| == 0 then "Error: No agents specified"
    else if |agents| > maxConcurrent then
      "Error: Too many agents (" + NatToString(|agents|) + "). Maximum is " + IntToString(maxConcurrent)
    else
      var sections := seq(|agents|, i requires 0 <= i < |agents| => Section(parentTools, agents[i], env, observed[i], systemEstimate));
      var out := Join(ParallelHeader(|agents|) + sections, "\n");
      JoinAppend(ParallelHeader(|agents|), sections, "\n");
      assert Join(ParallelHeader(|agents|), "\n") == ParallelTitle + "\n" + ParallelHeader(|agents|)[1];
      assert out[..|ParallelTitle + "\n"|] == ParallelTitle + "\n";
      out
  }

  /**
   * An accepted request answers with the header, then one section per
   * configuration in the order given, each depending only on its own
   * configuration and what its own agent saw.
   */
  lemma ParallelSections<T>(parentTools: seq<T>, maxConcurrent: int, agents: seq<AgentSpec>, env: Env<T>, observed: seq<Observed>, systemEstimate: int)
    requires |observed| == |agents| && 0 < |agents| <= maxConcurrent
    ensures Parallel(parentTools, maxConcurrent, agents, env, observed, systemEstimate)
      == Join(ParallelHeader(|agents|), "\n") + "\n"
         + Join(seq(|agents|, i requires 0 <= i < |agents| => Section(parentTools, agents[i], env, observed[i], systemEstimate)), "\n")
  {
    var sections := seq(|agents|, i requires 0 <= i < |agents| => Section(parentTools, agents[i], env, observed[i], systemEstimate));
    JoinAppend(ParallelHeader(|agents|), sections, "\n");
  }

  /** A rejected request runs no agent: its answer does not depend on anything the agents would see. */
  lemma RejectedRunsNothing<T>(parentTools: seq<T>, maxConcurrent: int, agents: seq<AgentSpec>, env1: Env<T>, env2: Env<T>,
                               observed1: seq<Observed>, observed2: seq<Observed>, systemEstimate: int)
    requires |observed1| == |agents| && |observed2| == |agents|
    requires |agents| == 0 || |agents| > maxConcurrent
    ensures Parallel(parentTools, maxConcurrent, agents, env1, observed1, systemEstimate)
      == Parallel(parentTools, maxConcurrent, agents, env2, observed2, systemEstimate)
  {
  }

  // ---------------------------------------------------------------- add_citations

  const OpenTag: String := "<exact_text_with_citation>"
  const CloseTag: String := "</exact_text_with_citation>"

  /** The code skips the opening tag by a literal 26, which is its length. */
  const OpenTagSkip: nat := 26

  lemma OpenTagSkipIsLength()
    ensures |OpenTag| == OpenTagSkip
  {
  }

  /**
   * The cited text in one text block: from just after the first opening
   * tag to the first closing tag, when the block holds an opening tag and
   * that closing tag comes later.
   */
  function Extract(t: String): (r: Option<String>)
    ensures r.Some? ==> Contains(t, OpenTag)
    ensures r.Some? ==> var start := Find(t, OpenTag) + OpenTagSkip;
      StartsWith(t[start..], r.value) && OccursAt(t, CloseTag, start + |r.value|)
    ensures r.Some? <==>
      (Contains(t, OpenTag) && Contains(t, CloseTag) && Find(t, CloseTag) > Find(t, OpenTag) + OpenTagSkip)
    ensures r.Some? ==> r.value == t[Find(t, OpenTag) + OpenTagSkip .. Find(t, CloseTag)]
  {
    if !Contains(t, OpenTag) then None
    else
      var start := Find(t, OpenTag) + OpenTagSkip;
      var end := Find(t, CloseTag);
      if end > start then
        var v := t[start..end];
        assert t[start..][..|v|] == v;
        Some(v)
      else None
  }

  /** Cited text ends at the first closing tag, so it holds none. */
  lemma ExtractHasNoCloseTag(t: String)
    requires Extract(t).Some?
    ensures !Contains(Extract(t).value, CloseTag)
  {
    var start := Find(t, OpenTag) + OpenTagSkip;
    var end := Find(t, CloseTag);
    NoneBefore(t, CloseTag, start, end);
  }

  /** A block yields cited text when it is a text block whose text holds a tag pair. */
  predicate Yields(b: Block) {
    b.TextBlock? && Extract(b.text).Some?
  }

  /** Block `i` is the first of `content` to yield cited text. */
  predicate FirstYield(content: seq<Block>, i: int) {
    0 <= i < |content| && Yields(content[i]) && forall j :: 0 <= j < i ==> !Yields(content[j])
  }

  /** The first text block that yields cited text gives the answer; otherwise the original text stands. */
  function Cite(content: seq<Block>, text: String): (r: String)
    decreases |content|
  {
    if |content| == 0 then text
    else if content[0].TextBlock? && Extract(content[0].text).Some? then Extract(content[0].text).value
    else Cite(content[1..], text)
  }

  /** The answer is the original text unless some text block yields cited text, which then holds no closing tag. */
  lemma {:induction false} CiteResult(content: seq<Block>, text: String)
    ensures var r := Cite(content, text);
      r == text || exists i :: 0 <= i < |content| && content[i].TextBlock? && Extract(content[i].text) == Some(r)
    ensures (forall i :: 0 <= i < |content| ==> !content[i].TextBlock? || !Contains(content[i].text, OpenTag))
      ==> Cite(content, text) == text
    ensures (forall i :: 0 <= i < |content| ==> !Yields(content[i])) ==> Cite(content, text) == text
    ensures forall i :: FirstYield(content, i) ==> Cite(content, text) == Extract(content[i].text).value
    decreases |content|
  {
    if |content| > 0 {
      CiteResult(content[1..], text);
      assert forall i :: 1 <= i < |content| ==> content[i] == content[1..][i - 1];
      forall i | FirstYield(content, i) && i > 0
        ensures FirstYield(content[1..], i - 1)
      {
        assert forall j :: 0 <= j < i - 1 ==> content[1..][j] == content[j + 1];
      }
    }
  }

  /** Unless the original text stands, the answer holds no closing tag. */
  lemma {:induction false} CiteNoCloseTag(content: seq<Block>, text: String)
    ensures Cite(content, text) == text || !Contains(Cite(content, text), CloseTag)
    decreases |content|
  {
    if |content| > 0 {
      if content[0].TextBlock? && Extract(content[0].text).Some? {
        ExtractHasNoCloseTag(content[0].text);
      } else {
        CiteNoCloseTag(content[1..], text);
      }
    }
  }

  /** A block that yields cited text decides the answer whatever follows it. */
  lemma CiteFirstWins(b: Block, rest: seq<Block>, text: String)
    requires b.TextBlock? && Extract(b.text).Some?
    ensures Cite([b] + rest, text) == Extract(b.text).value
  {
  }

  /** The input the citation agent runs on; `sourcesJson` is the sources as indented JSON. */
  function CitationInput(text: String, sourcesJson: String): String {
    "<synthesized_text>\n" + text + "\n</synthesized_text>\n\n<sources>\n" + sourcesJson
    + "\n</sources>\n\nPlease add citations to the text following the guidelines."
  }

  /** The citation agent: no tools, no round budget. */
  function CitationAgent<T>(systemEstimate: int): (a: Agent<T>)
    ensures a.tools == [] && a.maxRounds.None?
  {
    NewAgent([], None, ModelConfig("claude-3-5-haiku-20241022", 8000, 3, 180000), systemEstimate)
  }

  /** The answer when the citation agent's request raised: the error, a blank line, and the text unchanged. */
  function CitationError(failure: String, text: String): (out: String)
    ensures |out| == 18 + |failure| + |text|
    ensures StartsWith(out, "Citation error: ") && out[16..16 + |failure|] == failure
    ensures EndsWith(out, "\n\n" + text)
  {
    var out := "Citation error: " + failure + "\n\n" + text;
    assert out[..16] == "Citation error: ";
    assert out[16..16 + |failure|] == failure;
    assert out[|out| - |"\n\n" + text|..] == "\n\n" + text;
    out
  }

  /** `CitationTool.execute`: a failed request keeps the text after the error. */
  function Citation<T>(text: String, sourcesJson: String, env: Env<T>, script: seq<Response>, failure: String, systemEstimate: int): (out: String)
    ensures out == text
      || (StartsWith(out, "Citation error: ") && EndsWith(out, "\n\n" + text))
      || !Contains(out, CloseTag)
    ensures var run := Run(CitationAgent(systemEstimate), CitationInput(text, sourcesJson), env, script);
      run.ending.ProviderError? ==> out == CitationError(failure, text)
    ensures var run := Run(CitationAgent(systemEstimate), CitationInput(text, sourcesJson), env, script);
      !run.ending.ProviderError? ==>
        && (forall i :: FirstYield(Reply(run.ending), i) ==> out == Extract(Reply(run.ending)[i].text).value)
        && ((forall i :: 0 <= i < |Reply(run.ending)| ==> !Yields(Reply(run.ending)[i])) ==> out == text)
  {
    var r := Run(CitationAgent(systemEstimate), CitationInput(text, sourcesJson), env, script);
    if r.ending.ProviderError? then CitationError(failure, text)
    else
      CiteNoCloseTag(Reply(r.ending), text);
      CiteResult(Reply(r.ending), text);
      Cite(Reply(r.ending), text)
  }
}
