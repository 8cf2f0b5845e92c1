# document-agent, modelled in Dafny

document-agent is a Claude-style agent: it keeps a conversation history with
a per-turn token ledger, asks a model endpoint for the next response,
dispatches the tool calls in that response to registered tools, appends the
results and repeats until the model answers without tool calls or a round
budget runs out. Around that engine sit the delegation tools (a sub-agent
tool, a parallel fan-out of sub-agents, a research lead that composes its own
tool table) and a set of file, notebook, to-do, shell-session and text tools
whose decision logic is pure.

This project models that core as immutable datatypes and pure functions, one
module per component:

| module | component |
|---|---|
| `History` | the message history, its token ledger, truncation and the API view (`utils/history_util.py`), and the ledger rebuilt by `load_conversation` |
| `Conversation` | content blocks, turns and model responses |
| `Metrics` | the per-tool call counters of `ToolMetrics` |
| `Dispatch` | running one tool call and a batch of them, in parallel or sequential mode (`utils/tool_util.py`) |
| `Registry` | tool tables built from tool lists with Python `dict` semantics |
| `AgentLoop` | `_prepare_message_params` and the agent loop over a script of model responses, with the round budget |
| `Pairing` | tool-use and tool-result pairing in the history, through truncation and the loop |
| `SubAgent` | the sub-agent tool |
| `Research` | web search and fetch source recording, the blocking sub-agent, task completion, parallel agents and citations |
| `ResearchLead` | the research lead's tool table and result, and the quick research tool |
| `FileTools` | the read-before-write gate, file reading, writing and editing, search mode selection and language inference |
| `MultiEdit` | atomic multi-edit validation and application |
| `Todos` | the linked to-do write and read tools |
| `Notebook` | notebook cell reading, editing, adding and creation |
| `TextTransform`, `Base64`, `Utf8` | the text transform and Base64 tools, with UTF-8 and section 4 of RFC 4648 written out |
| `BashSession` | the persistent shell session's state, history and `cd`/`export` parser |
| `Text`, `Wrappers` | Python string operations and the `Option`/`Result` types the rest uses |

The model endpoint, the tools themselves, sub-agent runs, the filesystem, the
clock and the shell are parameters: a script of responses, an execution
oracle, a filesystem map, durations as naturals, and process outcomes. Where
the project's tests or documentation disagree with the code, the model
follows the code: a history without usage is never truncated
(utils/history_util.py:70), the transform tools prefix their answers, and `cd /tmp && pwd` takes
`/tmp && pwd` as the directory (tools/bash_enhanced.py:255-270) although the
tool's description suggests otherwise.

Truncation and tool pairing: `truncate` (utils/history_util.py:106-124) puts the
truncation notice in front only while a ledger entry is left. When it has to drop
every pair, the one turn left is the last user turn, and in a tool round that turn
holds tool results whose request was just dropped. `Pairing.TruncateCanOrphanResults`
gives such a history. The model keeps this behaviour: `Pairing.RunPaired` proves that
every request a run sends answers each tool call from the second turn on, and
`Pairing.TruncateKeepsPaired` proves full pairing whenever truncation leaves a ledger
entry.

## Model

| member | source | states |
|---|---|---|
| History.NewHistory | utils/history_util.py:9-42 | a new history has no turns and an empty ledger, keeps the window size and caching flag, and its baseline (total minus ledger sum) is the opaque system-prompt estimate |
| History.Normalise | utils/history_util.py:51-65 | a string becomes exactly one text block holding that string; a block list keeps its length and every block in place |
| History.AddMessage | utils/history_util.py:44-80 | exactly one turn with the normalised content is appended; only an assistant turn with usage touches the ledger, appending one entry whose output is the usage's output tokens and setting the total to all input plus output; in every case the baseline is unchanged |
| History.DropOldestPair | utils/history_util.py:98-104 | exactly the first two turns and the first ledger entry are removed, and the baseline is unchanged |
| History.InstallNotice | utils/history_util.py:113-124 | the first turn becomes the fixed "[Earlier history has been truncated.]" user turn and the first ledger entry becomes (25, its old output), with the baseline unchanged |
| History.TruncateStep | utils/history_util.py:111-124 | one loop iteration removes exactly one ledger entry and two turns, leaves the notice in front when turns and entries remain, and keeps the baseline |
| History.DroppedPairsCompose | utils/history_util.py:106-124 | one step followed by any number of steps again drops the oldest pairs, with the notice in front exactly when the last step left one |
| History.TruncateLoop | utils/history_util.py:106-124 | the loop ends (the ledger shrinks every step) with its condition false, keeps the baseline, drops only the oldest pairs, and does nothing when the condition fails at the start |
| History.Truncate | utils/history_util.py:82-124 | nothing changes within the window or with an empty ledger; afterwards the total fits, the ledger is empty or fewer than two turns remain; the baseline is unchanged; only the oldest pairs are dropped and the notice replaces the first remaining turn |
| History.NonEmpty | utils/history_util.py:130-134 | every kept turn has content and is one of the stored turns, and no more turns come out than went in |
| History.NonEmptyAppend | utils/history_util.py:130-134 | filtering distributes over concatenation, so kept turns stay in their original order |
| History.NonEmptyKeepsAll | utils/history_util.py:130-134 | when no turn is empty, every turn is kept unchanged |
| History.FormatForApi | utils/history_util.py:126-150 | one API turn per non-empty stored turn, in order, with the role and blocks unchanged apart from the hint; a block carries the ephemeral cache hint iff caching is on and its turn is the last kept turn and a user turn |
| History.JsonFileName | agent.py:403-404 | the name always ends in ".json": unchanged when it already does, otherwise ".json" is appended |
| History.JsonFileNameIdempotent | agent.py:403-404 | adding the extension twice is the same as adding it once |
| History.RebuildLedger | agent.py:414-423 | the rebuilt ledger has one entry per complete pair, floor(n/2) entries |
| History.RebuildLedgerEntries | agent.py:416-423 | entry k prices turns 2k and 2k+1 at a quarter of their printed lengths, rounded down |
| History.LoadConversation | agent.py:392-440 | a failed read (missing file, invalid JSON, unreadable file) leaves the history untouched and reports the missing file or invalid JSON by name; a successful one restores the turns and total (defaults empty and 0), rebuilds a floor(n/2)-entry ledger, keeps window and caching, and reports "Loaded conversation from" the ".json" name |
| Conversation.ToolCalls | agent.py:260-262 | a block is among the tool calls exactly when it is a tool-use block of the response; there are never more calls than blocks |
| Conversation.ToolCallsAppend | agent.py:260-262 | the tool calls of two block lists in a row are the calls of the first followed by the calls of the second, so the filter keeps block order |
| Conversation.ToolCallsOne | agent.py:260-262 | a single block is its own tool call list when it is a tool-use block, and contributes nothing otherwise |
| Conversation.ToolCallsEmpty | agent.py:260-262 | a response requests no tools iff none of its blocks is a tool-use block |
| Metrics.RecordExecution | agent.py:79-93 | the call count rises by one and exactly one of the failure and success counts rises, by the error flag; the total duration grows by the duration; afterwards the minimum is at most and the maximum at least the duration, the minimum never rises and the maximum never falls; consistency (total = successes + failures, extremes absent exactly before the first call, minimum at most maximum) is preserved |
| Metrics.RecordExecutionCommutes | agent.py:79-93 | two recordings give the same record in either order, so concurrent calls may finish in any order |
| Metrics.ReplayFacts | agent.py:79-93 | after any sequence of recordings from a consistent record, the record is consistent, counts every call and every failure, and every recorded duration lies between the minimum and the maximum |
| Metrics.RecordFor | utils/tool_util.py:53-55 | the named record (a fresh one when absent, as defaultdict makes it) receives the recording and every other name's record is unchanged |
| Metrics.CalledTools | agent.py:333-352 | exactly the tools with at least one call are reported, each with its own record |
| Metrics.RecordedIsReported | agent.py:333-352 | a tool that has just been recorded always appears in the report |
| Metrics.DurationText | agent.py:348-349 | the report shows "N/A" exactly when no minimum or maximum was recorded |
| Dispatch.ExecuteSingle | utils/tool_util.py:12-47 | the result is a tool_result answering the call's id; an unregistered name is an error naming the tool; with a registered tool the result is an error iff the tool raised; no output becomes "Tool returned no output", output is passed through, a KeyError's text is the content, and a TypeError or other exception gives "Tool error in {name}: Invalid arguments - …" or "Tool error in {name}: …" |
| Dispatch.NotFoundRunsNothing | utils/tool_util.py:23-24 | the answer for an unregistered tool is the same whatever the tools do, so no tool is run |
| Dispatch.ExecuteParallel | utils/tool_util.py:76-80 | one result per call, result i being call i's single-tool answer |
| Dispatch.ExecuteSequential | utils/tool_util.py:81-84 | one result per call |
| Dispatch.SequentialIsParallel | utils/tool_util.py:76-84 | the sequential mode gives exactly the parallel mode's results, in the same order |
| Dispatch.ExecuteTools | utils/tool_util.py:60-84 | in either mode, one result per call, in call order, each a tool_result answering its call's id |
| Dispatch.RecordCalls | utils/tool_util.py:52-55 | recording a batch adds a record for exactly the names called, and leaves every other name's record as it was |
| Dispatch.RecordCallsCounts | utils/tool_util.py:52-55 | after dispatch every tool name's call count rises by the number of calls with that name, and its failure count by the number of those whose result is an error |
| Registry.BuildTable | agent.py:228 | a name is in the table iff some tool has it, and every tool stored under a name has that name |
| Registry.BuildTableLastWins | agent.py:228 | for duplicate names the table holds the last tool with that name |
| Registry.Position | tools/research_lead_tool.py:225 | the position is the first item with the name, or -1 exactly when no item has it |
| Registry.Assign | tools/research_lead_tool.py:227 | an assignment adds one item for a new name and none for an existing one |
| Registry.AssignStores | tools/research_lead_tool.py:227 | after an assignment names are still unique, an existing name keeps its place, a new one goes last, and the name holds the new value |
| Registry.AssignKeeps | tools/research_lead_tool.py:227 | an assignment leaves every other name where it was |
| Registry.DictItems | tools/research_lead_tool.py:222-236 | the ordered dict built from a list has unique names, exactly the names of the list |
| Registry.DictItemsLastWins | tools/research_lead_tool.py:222-236 | the value kept for a name is that of its last item in the list |
| Registry.DictItemsFirstPosition | tools/research_lead_tool.py:222-236 | names keep the order in which they first appeared |
| AgentLoop.PrepareParams | agent.py:197-211 | the request holds the six settings keys plus every caller key, caller keys win, and without an override the messages are the history's API form and model and system come from the settings |
| AgentLoop.NewAgent | agent.py:160-175 | a new agent has an empty, pair-aligned history over the configured window with caching on, the system estimate as its token baseline, no metrics, and the given tools and budget |
| AgentLoop.Reply | agent.py:233-239 | a run returns the model's last content, or the budget notice as exactly one text block |
| AgentLoop.Answer | agent.py:279-281 | recording a response appends one assistant turn with its content and one ledger entry and leaves tools, budget and baseline alone |
| AgentLoop.ToolRound | agent.py:283-305 | a tool round keeps every earlier turn and the ledger and appends one user turn holding exactly the dispatched results, one per call and answering it, and every name's call and failure counts rise by its calls and failed calls in the batch |
| AgentLoop.Round | agent.py:241-305 | a continuing round keeps the tools, the budget and the token baseline |
| AgentLoop.Continued | agent.py:230-231 | seen one round earlier, a run has used one more response and sent one more request first |
| AgentLoop.Loop | agent.py:230-311 | the loop never uses more responses than the model gives |
| AgentLoop.LoopFollowsSchedule | agent.py:230-311 | for any round that keeps the budget, how the loop ends and how many responses it uses depend only on the budget and on which responses ask for tools |
| AgentLoop.Run | agent.py:213-311 | a run never uses more responses than the model gives |
| AgentLoop.Started | agent.py:226 | a run starts by appending the user input as one user turn of one text block, touching nothing else |
| AgentLoop.LoopRecordsReply | agent.py:277-311 | a loop that ends with a reply has recorded that reply as its last turn, an assistant turn |
| AgentLoop.RunRecordsInputAndReply | agent.py:226-311 | a run adds the input as a user turn and, when the model replies, ends with the reply as its last, assistant turn |
| AgentLoop.ScheduleBudgetText | agent.py:233-239 | a budget stop happens only under a real limit and returns the notice naming that limit |
| AgentLoop.RunBudgetText | agent.py:233-239 | a run the budget stops returns the notice naming the agent's own limit |
| AgentLoop.RoundKeepsSettings | agent.py:241-305 | the tool round the run uses keeps tools, budget and token baseline for every agent and response |
| AgentLoop.ScheduleStopsAtBudget | agent.py:233-239 | with a budget of k rounds and a model that keeps asking for tools, the loop stops after exactly the remaining rounds with the budget notice |
| AgentLoop.AsksToolsFirstAll | agent.py:260-262 | the first n responses all ask for tools exactly when each of them holds a tool call |
| AgentLoop.RunStopsAtBudget | agent.py:233-239 | a run with budget k > 0 whose first k responses ask for tools returns the budget notice after using exactly k responses |
| AgentLoop.ScheduleUnlimited | agent.py:233 | a budget of None or 0 never produces the budget notice |
| AgentLoop.RunUnlimited | agent.py:233 | a run without a budget never returns the budget notice |
| AgentLoop.LoopKeeps | agent.py:230-311 | a whole loop keeps the tools, the budget and the token baseline |
| AgentLoop.LoopSendsTruncated | agent.py:241-242 | every request is built from a history that no longer exceeds the context window or cannot shrink further |
| AgentLoop.LoopSendsTruncatedStep | agent.py:230-242 | in a continuing round, the request sent and every later one are built from histories that no longer exceed the window |
| AgentLoop.TruncateFits | agent.py:241 | after truncation the history is no longer over the window with a pair left to drop |
| AgentLoop.ScheduleReplied | agent.py:306-311 | a reply ends the loop at the first response without tool calls, every response before it asked for tools, and that response's content is returned |
| AgentLoop.RepliedAsScheduled | agent.py:306-311 | any outcome that agrees with the schedule replied with the first response that asks for no tools |
| AgentLoop.RunReplied | agent.py:306-311 | a run that replies returns the content of the first response without tool calls, after all earlier ones asked for tools |
| AgentLoop.RoleAtPairs | utils/history_util.py:44-80 | in a pair-aligned history even positions are the user's and odd ones the assistant's |
| AgentLoop.RoleAtShift | utils/history_util.py:98-104 | dropping whole pairs does not change the role expected at a position |
| AgentLoop.AddUserAwaits | agent.py:226 | adding the user input to complete pairs leaves one user turn awaiting its answer |
| AgentLoop.AddAssistantAligns | agent.py:279-281 | answering a waiting user turn restores complete pairs |
| AgentLoop.TruncateKeepsAwaiting | agent.py:241 | truncation keeps a history that awaits a reply awaiting one, with roles still alternating |
| AgentLoop.DroppedKeepsAwaiting | utils/history_util.py:98-111 | removing leading pairs keeps roles alternating and a trailing user turn |
| AgentLoop.RoundKeepsAwaiting | agent.py:279-305 | a tool round answers the waiting user turn and leaves the tool results as the new waiting user turn |
| AgentLoop.LoopAlignment | agent.py:230-311 | a loop that ends with a reply leaves complete pairs, one stopped by the budget leaves a trailing user turn |
| AgentLoop.ToolRoundAwaits | agent.py:305 | the tool results go in as a user turn right after complete pairs |
| AgentLoop.RunAlignment | agent.py:213-311 | from complete pairs, a replying run ends with complete pairs and a budget-stopped run ends with an unanswered user turn |
| Pairing.PairedSnoc | agent.py:226 | appending a turn that neither asks for tools nor carries results keeps every request answered by the next turn |
| Pairing.PairedSnocRound | agent.py:279-305 | appending an assistant turn and the turn answering its calls keeps pairing |
| Pairing.NoticeIsPlain | utils/history_util.py:87-95 | the truncation notice asks for nothing and carries no results |
| Pairing.DroppedKeepsPaired | utils/history_util.py:106-124 | dropping whole pairs from a history awaiting a reply keeps pairing from the second turn on, and on the first turn too unless every pair went; then the one turn left is the last user turn |
| Pairing.NoticedKeepsPaired | utils/history_util.py:112-124 | when the notice replaces the first kept turn, the history is fully paired: the turn after the notice is an assistant turn, so no results turn lost its request |
| Pairing.TruncateKeepsPaired | utils/history_util.py:82-124 | `truncate` keeps pairing from the second turn on; it keeps full pairing when a ledger entry is left or there was none, and otherwise leaves only the last user turn |
| Pairing.TruncateCanOrphanResults | utils/history_util.py:106-124 | a fully paired history of an input, one tool request and its results, whose single pair already exceeds the window, truncates to the results turn alone, which answers a request no longer in the history |
| Pairing.OrphanCasePaired | agent.py:279-305 | the example history, an input followed by a tool request and its results, awaits a reply and is fully paired |
| Pairing.OrphanCaseTruncates | utils/history_util.py:106-124 | truncating the example drops its one pair and leaves no notice, only the results turn |
| Pairing.RoundKeepsPaired | agent.py:241-305 | a tool round appends the request and a results turn answering each call by id and in order, so it keeps pairing from the second turn on |
| Pairing.RoundPaired | agent.py:241-305 | one tool round over a history awaiting a reply keeps pairing from the second turn on: the recorded request is followed by the turn answering each of its calls |
| Pairing.RoundTurns | agent.py:241-305 | a tool round appends to the truncated history exactly the recorded request and a user turn holding one result per call, in call order, each naming its call's id |
| Pairing.LoopPaired | agent.py:230-311 | every history the loop sends, and the one it leaves, keep pairing from the second turn on |
| Pairing.LoopPairedStep | agent.py:230-305 | the continuing round of the loop keeps that pairing for the request it sends and for the rest of the loop |
| Pairing.AllPairedFromCons | agent.py:241-242 | the request just sent, followed by requests that each keep pairing from the second turn on, is again such a list |
| Pairing.RunPaired | agent.py:213-311 | a run over complete pairs that keep pairing from the second turn on sends only such histories and leaves one |
| AgentLoop.NextRunAfterBudgetRepeatsUser | agent.py:226 | after a budget stop the next run's input follows the unanswered user turn, so two user turns stand in a row |
| ResearchLead.LastWeb | tools/research_lead_tool.py:74-79 | the lead's web tool is a parent tool named "web" with no later one so named, and there is none exactly when no parent tool is named "web" |
| ResearchLead.FirstWeb | tools/research_lead_tool.py:307-311 | the quick researcher's web tool is a parent tool named "web" with no earlier one so named, and there is none exactly when no parent tool is named "web" |
| ResearchLead.WebOf | tools/research_lead_tool.py:82-84 | a parent web tool is used when one was found, otherwise a web tool of its own is created |
| ResearchLead.WebChoicesDiffer | tools/research_lead_tool.py:74-79 | given two parent web tools the lead picks the second while the quick researcher picks the first |
| ResearchLead.Filtered | tools/research_lead_tool.py:100-103 | the kept parent tools are exactly the parent tools whose names are not web, exa_web, web_search or web_fetch |
| ResearchLead.SubTools | tools/research_lead_tool.py:92-106 | the sub-agents' tools end with search, fetch, the web tool and completion, in that order |
| ResearchLead.SubToolsHoldOneSearch | tools/research_lead_tool.py:100-106 | ahead of those four the sub-agents get only parent tools, none of them a web tool the suite replaces |
| ResearchLead.ResearchTools | tools/research_lead_tool.py:109-120 | the research suite has seven tools with seven different names |
| ResearchLead.GetResearchTools | tools/research_lead_tool.py:67-122 | the suite is built on the first call, cached, and every later call returns the cached suite unchanged |
| ResearchLead.GetResearchToolsIdempotent | tools/research_lead_tool.py:68 | asking twice gives the same suite and leaves the cache as the first call left it |
| ResearchLead.LeadTools | tools/research_lead_tool.py:222-236 | the lead's tools have unique names, and a name is among them exactly when some parent or suite tool has it |
| ResearchLead.SuiteToolsWin | tools/research_lead_tool.py:231-236 | every suite tool is among the lead's tools under its own name, replacing any parent tool so named |
| ResearchLead.ParentOrderKept | tools/research_lead_tool.py:224-228 | two parent tools keep their relative order among the lead's tools |
| ResearchLead.ReplyText | tools/research_lead_tool.py:256-263 | a reply with content gives its text blocks joined by newlines, a reply without content gives its printed form |
| ResearchLead.SourcesNote | tools/research_lead_tool.py:266-267 | the sources suffix is empty exactly when the lead collected no sources |
| ResearchLead.LeadAgent | tools/research_lead_tool.py:239-250 | the lead agent runs over the deduplicated tools with the caller's round budget |
| ResearchLead.Answered | tools/research_lead_tool.py:253-272 | a failed run answers with the research error and the failure message; a reply, or the budget notice when the rounds run out, answers with its text and the sources note |
| ResearchLead.Execute | tools/research_lead_tool.py:212-272 | the tool caches the research suite just as getting the tools alone would, and answers for the lead agent it runs with the budget given: the first response asking for no tools, or that budget's notice, with the sources note, or the research error |
| ResearchLead.AnsweredIsLeadAnswer | tools/research_lead_tool.py:249-272 | for any agent with a budget, the answer is the first quiet response's text, the notice for that budget, or the research error, each as its ending says |
| ResearchLead.CitationsFlagIgnored | tools/research_lead_tool.py:212 | the citations flag never changes the answer or the cache |
| ResearchLead.AnswersFinalResponse | tools/research_lead_tool.py:253-263 | when the lead replies, the answer is the text of the first model response without tool calls followed by the sources note |
| ResearchLead.QuickTools | tools/research_lead_tool.py:332-336 | the quick researcher gets its web tool, then search and fetch over that same web tool |
| ResearchLead.QuickAnswer | tools/research_lead_tool.py:349-360 | a failed quick run answers with the quick research error and the failure, a budget stop with the budget notice alone, and a reply with the reply's text blocks as the user sees them |
| ResearchLead.Quick | tools/research_lead_tool.py:318-360 | quick research runs the lead over the query: a reply answers with the text of the first scripted response that asks for no tools, every earlier one having asked for tools; a budget stop gives the notice for its fixed round limit; a raised request gives the quick research error |
| ResearchLead.QuickAgent | tools/research_lead_tool.py:343 | the quick researcher has a budget of ten rounds |
| ResearchLead.QuickStopsAfterTenRounds | tools/research_lead_tool.py:343 | a quick researcher whose model keeps asking for tools answers with the ten-round budget notice |
| SubAgent.ApproachLine | tools/agent_tool.py:59 | the approach line is empty exactly when the plan is, and otherwise is the label followed by the plan |
| SubAgent.SystemPrompt | tools/agent_tool.py:55-68 | the prompt opens with the task, closes with the fixed instructions, and holds the approach line at a fixed place between them |
| SubAgent.PlanOnlyAddsApproach | tools/agent_tool.py:55-68 | cutting the approach line out of a prompt leaves the prompt of the same task without a plan |
| SubAgent.PlanInPrompt | tools/agent_tool.py:59 | a non-empty plan appears in the prompt after its label |
| SubAgent.SubAgentName | tools/agent_tool.py:72 | the name is the prefix, the first thirty characters of the task (or all of a shorter one), and an ellipsis |
| SubAgent.Delegate | tools/agent_tool.py:71-80 | the sub-agent gets exactly the parent's tools, a budget of the iteration count and a fresh history, and is asked to complete the task |
| SubAgent.ResultTextAppend | tools/agent_tool.py:84-88 | the result text of joined blocks is the result texts joined, so block order is kept |
| SubAgent.ResultTextOne | tools/agent_tool.py:86-88 | a text block contributes its text and a newline, any other block nothing |
| SubAgent.Report | tools/agent_tool.py:92-97 | the success report is "Sub-agent completed task: " and the task, then the "Result:" label, then the result text at the offset those give, and ends with the "Tool calls made: " line and the count; its length is exactly the sum of those parts |
| SubAgent.Finish | tools/agent_tool.py:92-100 | the answer starts with the failure lead exactly when the run raised, and is then the lead followed by the failure message; otherwise it is the report on the task, with the reply's text blocks (one line each) as the result and half the history length as the tool call count |
| SubAgent.Execute | tools/agent_tool.py:48-100 | the tool answers "Sub-agent failed: " and the failure when the delegated run raised, and otherwise the report over that run's reply and the history the run left |
| SubAgent.ExecuteReportsRun | tools/agent_tool.py:80-97 | when the delegated run does not raise, the report ends by counting as many tool calls as the run left ledger entries, and carries the reply's text at the offset after the task and the result label |
| SubAgent.ReportedPairsAreAnswers | tools/agent_tool.py:97 | the reported call count, half the number of turns, equals the number of model answers the history records |
| Research.SearchRequestCount | tools/research_tools.py:44-55 | the web tool is asked for a result count exactly when it is the Exa-backed one, and then for the caller's count |
| Research.FirstIndex | tools/research_tools.py:67 | the index is the first position holding the line, and the list's length exactly when the line is absent |
| Research.NumberedTitle | tools/research_tools.py:65-69 | the title is "Search Result" or a stripped result line that starts with the looked-for number and a dot |
| Research.FirstNumberedIndex | tools/research_tools.py:65-69 | the index found is the first line whose stripped form starts with the number and a dot, or the line count when there is none |
| Research.NumberedTitleFirst | tools/research_tools.py:65-69 | the title is the stripped FIRST line that starts with the looked-for number and a dot, and "Search Result" when no line does |
| Research.NumberedTitleNone | tools/research_tools.py:65-69 | with no numbered line the title is "Search Result" |
| Research.NumberedTitleHead | tools/research_tools.py:65-69 | a numbered first line is the title |
| Research.NumberedTitleSkip | tools/research_tools.py:65-69 | an unnumbered first line is skipped |
| Research.UrlLines | tools/research_tools.py:61-62 | the URL lines are result lines that start with "URL:" once stripped |
| Research.SearchSourcesPerUrlLine | tools/research_tools.py:60-76 | the search loop records exactly one source per URL line, in order, each with that line's URL and title |
| Research.WebSearch | tools/research_tools.py:41-81 | a search answers with the web tool's text or the search error, and only ever appends to the source list, leaving it alone on failure or without tracking |
| Research.WebSearchRecordsUrlLines | tools/research_tools.py:57-76 | a tracked search adds one source per URL line of its result, each naming the line's URL and the search tool |
| Research.FirstHeading | tools/research_tools.py:117-120 | the heading found is the first line starting with "# ", and none is found exactly when no line does |
| Research.PageTitle | tools/research_tools.py:115-120 | a page's title is its first "# " heading without the marker, stripped, or the URL when it has none |
| Research.WebFetch | tools/research_tools.py:104-133 | a fetch answers with the page or the fetch error and, when tracked and successful, appends exactly one source with the URL, the page title and the fetch tool |
| Research.FetchPreview | tools/research_tools.py:125 | the preview is the page's first 500 characters, or all of a shorter page, followed by an ellipsis |
| Research.NameTag | tools/research_tools.py:180-181 | only a non-empty name puts a bracketed tag in front of the answer |
| Research.RunBlocking | tools/research_tools.py:165-183 | the blocking sub-agent's answer is the name tag followed by the agent tool's answer for the prompt as task, the research plan and twenty iterations |
| Research.RunBlockingConfiguration | tools/research_tools.py:169-177 | the blocking sub-agent runs with the parent's tools, a budget of twenty rounds and the research plan in its prompt |
| Research.SourceLines | tools/research_tools.py:229-233 | each source contributes exactly four lines |
| Research.SourceLinesNumbered | tools/research_tools.py:229-233 | the block of the j-th source is numbered from one and names its title, URL and tool, and ends with a blank line |
| Research.ReportLines | tools/research_tools.py:215-233 | the report has the header, the timestamp and the result, followed by the sources block exactly when sources were asked for, tracked and recorded |
| Research.CompleteTask | tools/research_tools.py:213-235 | every report starts with the report header |
| Research.CompleteTaskWithoutSources | tools/research_tools.py:218-222 | without listed sources the report is the header, the timestamp line and the result verbatim at the end |
| Research.CompleteTaskWithSources | tools/research_tools.py:224-235 | with listed sources the report is the bare report, a newline and the sources block |
| Research.AgentName | tools/research_tools.py:347 | a research agent keeps a given name, otherwise it is named "Research-" followed by the random hex digits |
| Research.ResearchInput | tools/research_tools.py:362-364 | the agent's input is the base instruction, with a focus sentence exactly when a perspective is given |
| Research.ResearchAgent | tools/research_tools.py:348-358 | a research agent gets the parent's tools, a budget of twenty rounds and a fresh history |
| Research.ErrorSection | tools/research_tools.py:390-391 | a failing agent's section is headed by its given name or "agent" and ends with the error message |
| Research.SuccessLines | tools/research_tools.py:369-386 | a finished agent's section is its name line, its task line, a perspective line when it has one, a blank line, the result texts in order, the "Sources collected" line and a closing blank line, and nothing else |
| Research.SuccessSection | tools/research_tools.py:369-388 | a finished agent's section is its lines joined by newlines: it starts with the name and task lines and ends with the sources-collected line and a newline |
| Research.Section | tools/research_tools.py:291-391 | a configuration without a task gives the missing-key error section, a failed run its error section, and a finished run the success section over its name, task, perspective (empty when absent), the texts of its reply and the sources it collected |
| Research.Parallel | tools/research_tools.py:277-406 | no agents and too many agents are refused with their error texts, and an accepted request answers under the parallel results title |
| Research.ParallelSections | tools/research_tools.py:393-406 | an accepted request answers with the header followed by one section per configuration, in the order given, each depending only on its own agent |
| Research.RejectedRunsNothing | tools/research_tools.py:279-283 | a refused request answers the same whatever the agents would have seen, so no agent runs |
| Research.OpenTagSkipIsLength | tools/research_tools.py:500 | the literal 26 the code skips is exactly the length of the opening tag |
| Research.Extract | tools/research_tools.py:499-503 | cited text exists exactly when the text holds the opening tag and a closing tag found past its end; it is then the text between the two |
| Research.ExtractHasNoCloseTag | tools/research_tools.py:501-503 | cited text ends at the first closing tag, so it holds none |
| Research.CiteResult | tools/research_tools.py:494-506 | the answer is the cited text of the first text block that yields one, and the original text when no block yields any |
| Research.CiteNoCloseTag | tools/research_tools.py:494-506 | unless the original text stands, the answer holds no closing tag |
| Research.CiteFirstWins | tools/research_tools.py:503 | the first block that yields cited text decides the answer whatever follows it |
| Research.CitationAgent | tools/research_tools.py:467-477 | the citation agent has no tools and no round budget |
| Research.CitationError | tools/research_tools.py:508-509 | a failed citation pass answers with the error message, a blank line and the text unchanged |
| Research.Citation | tools/research_tools.py:435-509 | a citation run that raised answers with the error and the original text; otherwise the answer is the cited text of the first reply block that yields one, or the original text when none does |
| FileTools.KeepLines | tools/file_tools.py:93-99 | the kept text is a prefix of the file |
| FileTools.KeepLinesCount | tools/file_tools.py:94-98 | the kept prefix holds exactly the first n line breaks, or every break of a file with fewer |
| FileTools.KeepLinesWhole | tools/file_tools.py:94-99 | a file with fewer than n line breaks is returned whole |
| FileTools.ReadFile | tools/file_tools.py:76-110 | reading an existing file answers its content, cut to the line limit when positive, and adds its resolved path to the read set; a missing path or a directory gives an error and leaves the read set alone |
| FileTools.ReadTool | tools/file_tools.py:51-74 | only a read can change the read set, nothing touches the filesystem, and an unknown operation is refused by name |
| FileTools.WriteFile | tools/file_tools.py:225-250 | an existing file that was not read is refused unchanged; otherwise only the path's own file becomes the content, reported with its length, and writing never counts as reading |
| FileTools.EditFile | tools/file_tools.py:252-306 | an edit changes the filesystem only for a file that exists and was read, then replaces every occurrence in it, and a file without the text is left unchanged |
| FileTools.EditReplacesAll | tools/file_tools.py:277-299 | an edit of a read file holding the text replaces all occurrences and warns with the count exactly when there were several |
| FileTools.WriteTool | tools/file_tools.py:191-223 | missing content, a missing old or new text and an unknown operation are each refused before any file is touched |
| FileTools.WriteGate | tools/file_tools.py:231-236 | a write or edit changes an existing file only if it was read, changes no other path, and never adds to the read set |
| FileTools.SecondWriteRefused | tools/file_tools.py:232-236 | a second write to a file the tool itself just created is refused, because writing does not count as reading |
| FileTools.ReadThenEdit | tools/file_tools.py:104-106 | reading a file opens the gate, so a following edit replaces the text |
| FileTools.SearchMode | tools/file_tools.py:382-389 | without a given mode, text search is chosen exactly when there is no pattern and a non-empty file pattern, syntax search otherwise |
| FileTools.InferIn | tools/file_tools.py:553-557 | the language inferred is that of the first table entry whose suffix ends the file pattern, and none exactly when no entry's suffix does |
| FileTools.DotExtensionsAgree | tools/file_tools.py:554 | two dot-free extensions that both end the same file pattern are the same extension |
| FileTools.InferOrderFree | tools/file_tools.py:553-555 | in a well-formed table the entry chosen has the suffix of any matching entry, so order matters only among entries for one suffix |
| FileTools.LanguagesWellFormed | tools/file_tools.py:526-551 | every key of the language table is a star, a dot and a dot-free extension |
| FileTools.SearchCommand | tools/file_tools.py:362-480 | ripgrep runs exactly in text mode, ast-grep exactly in syntax mode with a pattern, with the pattern first and the path last, and anything else is refused with the matching error |
| MultiEdit.Validate | tools/multi_edit.py:160-183 | every refusal names the edit it stopped at |
| MultiEdit.ValidateEdits | tools/multi_edit.py:153-155 | an empty list of edits is refused |
| MultiEdit.ValidateAllGood | tools/multi_edit.py:157-183 | validation passes exactly when every edit has both fields, a non-empty old text found in the text the earlier edits leave, and a different new text |
| MultiEdit.ValidateStep | tools/multi_edit.py:180-181 | a list that passes has a good first edit, and the rest pass on the text that edit leaves |
| MultiEdit.SummaryLine | tools/multi_edit.py:117-123 | each summary line numbers its edit and reports what it replaced |
| MultiEdit.Apply | tools/multi_edit.py:98-123 | after validation the apply loop ends with exactly the text the validator simulated, with one summary line per edit, and its re-check never fails |
| MultiEdit.ApplySummary | tools/multi_edit.py:111-123 | the k-th summary line counts the occurrences in the text the earlier edits left, not in the original |
| MultiEdit.Execute | tools/multi_edit.py:57-139 | the tool either leaves the filesystem unchanged or writes the simulated result to a read file, and never changes the read set |
| MultiEdit.AllApplied | tools/multi_edit.py:125-134 | when the file was read and every edit is good in turn, the file holds the simulated result and the answer reports the number of edits |
| MultiEdit.NothingOnError | tools/multi_edit.py:73-96 | when any check fails the file is untouched and the answer is an error |
| MultiEdit.GateBeforeValidation | tools/multi_edit.py:79-84 | on a file not yet read every list of edits, valid or not, gets the same refusal |
| MultiEdit.OneEditAgreesWithEditTool | tools/multi_edit.py:115 | a single good edit changes the file exactly as the single-edit tool would |
| Todos.ItemError | tools/system_tools.py:766-773 | a to-do passes exactly when it has all four fields, a known status and a known priority, and a missing field is reported before the status and the priority |
| Todos.CheckItems | tools/system_tools.py:765-773 | the error reported is that of the first failing to-do, and none is reported exactly when every to-do passes |
| Todos.CreateLinked | tools/system_tools.py:816-825 | linked tools start out sharing one empty list |
| Todos.Write | tools/system_tools.py:762-812 | a failing item or duplicate ids give their error and change nothing; otherwise the list is replaced wholesale, the read tool sees it exactly when the tools are linked, and the answer is the update line, the total with its change, and the status counts |
| Todos.LinkedStaySame | tools/system_tools.py:793-794 | after a write linked tools still hold one list, which becomes the written list exactly when that list is valid or was already stored |
| Todos.ItemsBeforeDuplicates | tools/system_tools.py:765-778 | a bad item is reported, and nothing changes, even when ids are also duplicated |
| Todos.SeveralInProgressAccepted | tools/system_tools.py:780-789 | several tasks in progress are accepted and stored, and the answer opens with the warning |
| Todos.CurrentTaskLine | tools/system_tools.py:808-810 | the current-task line is present exactly when one task is in progress, and names that task |
| Todos.Lines | tools/system_tools.py:668-683 | each to-do of a group gets one line, with its priority in capitals or a done marker |
| Todos.Section | tools/system_tools.py:666-683 | an empty group shows nothing; any other group shows its heading line, then one line per to-do in order, with the completed form for the completed group |
| Todos.Read | tools/system_tools.py:645-693 | the read tool shows the empty-list notice exactly when the list is empty, and otherwise the full to-do view joined by newlines |
| Todos.ReadLines | tools/system_tools.py:650-691 | the view is the "TODO LIST" title, a rule, the in-progress, pending and completed sections in that order, each over its group, and the summary line last |
| Todos.RuleIsForty | tools/system_tools.py:651 | the rule under the title is forty "=" characters |
| Todos.GroupsPartition | tools/system_tools.py:660-663 | when every status is one of the three, the group sizes add up to the number of to-dos |
| Todos.ReadShowsEveryTodo | tools/system_tools.py:686-691 | after a successful linked write the read tool holds the written list; the three status groups together hold each written to-do exactly as often as the list does, and the status counts add up to the total |
| Todos.WithStatus | tools/system_tools.py:660-663 | a group holds exactly the to-dos with that status, and never more than the list |
| Todos.WithStatusAppend | tools/system_tools.py:660-663 | grouping two lists in a row gives the group of the first followed by the group of the second, so a group keeps the list's order |
| Todos.WithStatusOne | tools/system_tools.py:660-663 | a single to-do forms its own group when its status matches and is left out otherwise |
| Todos.WithStatusCounts | tools/system_tools.py:660-663 | a group holds each to-do with the status as often as the list does, and no other |
| Todos.GroupsCover | tools/system_tools.py:660-691 | when every status is one of the three known ones, the three groups together hold each to-do exactly as often as the list does |
| Todos.GroupsStep | tools/system_tools.py:660-663 | a to-do with a known status adds itself once to the three groups together |
| Todos.Warning | tools/system_tools.py:780-785 | the warning is present exactly when more than one task is in progress |
| Todos.WriteLines | tools/system_tools.py:797-810 | the summary has four lines, and a fifth exactly when one task is in progress, with the counts and the signed change in size |
| Notebook.Terminated | tools/notebook_tool.py:388-392 | every piece but the last gets its line break back, and the last is kept as it is |
| Notebook.SourceLines | tools/notebook_tool.py:386-392 | new or edited content is stored as a non-empty list of lines |
| Notebook.ConcatTerminated | tools/notebook_tool.py:390 | concatenating the lines with their breaks restored is joining the pieces with line breaks |
| Notebook.SourceRoundTrip | tools/notebook_tool.py:327-333 | reading back a source that was set from some content gives exactly that content |
| Notebook.CreateCell | tools/notebook_tool.py:383-409 | "code" makes a fresh code cell with no execution count and no outputs, anything else a markdown cell, and either reads back as the content |
| Notebook.EmptyNotebook | tools/notebook_tool.py:364-381 | a new notebook has no cells and format 4.4 |
| Notebook.WithSource | tools/notebook_tool.py:182-195 | editing a cell replaces its source and keeps its type |
| Notebook.EditNotebook | tools/notebook_tool.py:153-216 | an edit changes the files only when the notebook exists, parses and holds a cell at the index |
| Notebook.EditChangesOneCell | tools/notebook_tool.py:181-202 | an edit in range changes only that cell's source, to the new content exactly, and keeps every other cell, field and file |
| Notebook.Place | tools/notebook_tool.py:250-261 | "after" with an index in range inserts just behind that cell, an index out of range is refused, and every other placement appends |
| Notebook.Insert | tools/notebook_tool.py:255 | inserting puts the cell at the index, keeps the cells before it, and shifts the rest up by one |
| Notebook.AddCell | tools/notebook_tool.py:218-282 | adding a cell either changes nothing or writes the notebook's own file, creating it when missing |
| Notebook.AddAfter | tools/notebook_tool.py:251-256 | adding after a cell in range puts the new cell right behind it and keeps every other cell in order |
| Notebook.AddAfterOutOfRange | tools/notebook_tool.py:252-253 | an "after" index out of range is refused with the range error and nothing is written |
| Notebook.AddAppends | tools/notebook_tool.py:230-260 | every other placement appends the new cell, and a missing file becomes a one-cell notebook with the empty notebook's fields |
| Notebook.ReadNotebook | tools/notebook_tool.py:102-151 | reading a cell in range of a parsed notebook file shows exactly that cell |
| Notebook.Execute | tools/notebook_tool.py:74-100 | each operation's missing required argument is refused before any file is touched, an unknown operation is refused, and a read never writes |
| BashSession.Reset | tools/bash_enhanced.py:294-306 | a reset takes the process's environment and directory and empties the history |
| BashSession.CdTarget | tools/bash_enhanced.py:255-258 | a directory is asked for only by a command that, stripped, starts with "cd ", and is never empty |
| BashSession.ApplyExports | tools/bash_enhanced.py:281-292 | applying exports keeps the working directory and the history |
| BashSession.UpdateState | tools/bash_enhanced.py:252-292 | updating the state after a run never touches the history |
| BashSession.Record | tools/bash_enhanced.py:159-166 | every finished run appends exactly one record with the output cut to 500 characters, and the answer is the full output followed by the exit-code suffix |
| BashSession.NormalOutput | tools/bash_enhanced.py:150-157 | a run with neither output answers "(no output)"; otherwise the answer is the right-stripped stdout, the "STDERR:" part with the right-stripped stderr, or both separated by a newline |
| BashSession.RunNormal | tools/bash_enhanced.py:116-169 | a timeout or a failure to start answers with an error and leaves the session unchanged; a finished run answers with its combined output and exit-code suffix and records that output |
| BashSession.RunStreaming | tools/bash_enhanced.py:171-245 | a streamed run that cannot start leaves the session unchanged; one with no lines answers "(no output)" with its exit code and records "(no output)", and otherwise it answers the lines joined by newlines with the exit-code suffix and records them cut to 500 characters |
| BashSession.Execute | tools/bash_enhanced.py:91-114 | a history request answers the history and changes nothing, and without a command the tool answers the reset notice after resetting or the missing-command error |
| BashSession.EntryLines | tools/bash_enhanced.py:321-331 | each entry's block is its numbered command line, its exit-code line, its output lines in order and a blank line |
| BashSession.HistoryLines | tools/bash_enhanced.py:312-331 | the view opens with the title, the working directory and the command count, and then holds every entry's block, numbered from one, in order |
| BashSession.HistoryText | tools/bash_enhanced.py:308-333 | the history answers the no-commands notice exactly when nothing ran, and otherwise the history view joined by newlines |
| BashSession.HistoryShowsEveryEntry | tools/bash_enhanced.py:320-331 | every recorded command's whole block (numbered line, exit code, output lines, blank line) appears as consecutive lines of the history view |
| BashSession.EntriesShowEntry | tools/bash_enhanced.py:321-331 | the listing shows each entry's block, numbered after the entries before it, as consecutive lines |
| BashSession.NumberedShows | tools/bash_enhanced.py:320-331 | a numbered listing shows the block of each item, under that item's number, as consecutive lines |
| BashSession.ShowsDrop | tools/bash_enhanced.py:312-331 | lines shown after the view's header are shown by the whole view |
| BashSession.EntriesLinesSnoc | tools/bash_enhanced.py:321-331 | the listing grows by exactly one block per command, numbered after the ones before it |
| BashSession.NumberedSnoc | tools/bash_enhanced.py:321-331 | a numbered listing of a list with one more item is the old listing followed by that item's block under the next number |
| BashSession.BlockSliceAt | tools/bash_enhanced.py:321-331 | an item's block sits in the listing at the offset the blocks before it take up |
| BashSession.HistoryIsReadOnly | tools/bash_enhanced.py:100-101 | asking for the history changes nothing, and answers the no-commands notice exactly when the history is empty |
| BashSession.ResetThenRun | tools/bash_enhanced.py:103-114 | a reset followed by a command leaves a history holding only that command |
| BashSession.NormalRunRecorded | tools/bash_enhanced.py:159-166 | a finished run adds exactly one record, and the answer carries the exit status exactly when it is not 0 |
| BashSession.ExecuteKeepsBounded | tools/bash_enhanced.py:160 | every request keeps each stored output at most 500 characters long |
| BashSession.RunNormalKeepsBounded | tools/bash_enhanced.py:160 | a normal run keeps each stored output at most 500 characters long |
| BashSession.RunStreamingKeepsBounded | tools/bash_enhanced.py:235-236 | a streamed run keeps each stored output at most 500 characters long |
| BashSession.CwdRule | tools/bash_enhanced.py:255-275 | the working directory changes only by a cd whose resolved target is an existing directory, and then to that target |
| BashSession.CdTakesWholeRemainder | tools/bash_enhanced.py:257 | a cd asks for everything after "cd ", so a chained command names a directory that includes the chain |
| BashSession.ExportsLastWins | tools/bash_enhanced.py:281-289 | after the exports the last value given to a name wins, and names nobody exports keep their values |
| BashSession.ExportTakesWholeRemainder | tools/bash_enhanced.py:278-289 | a single export sets the name to everything after the '=', including any chained commands |
| BashSession.ExportOfPlain | tools/bash_enhanced.py:282-288 | a plain "export NAME=VALUE" part yields that name and value |
| BashSession.AssignmentPlain | tools/bash_enhanced.py:285-288 | a plain assignment splits at its '=' into the name and the value |
| BashSession.ExportsInOrder | tools/bash_enhanced.py:280-283 | the exports of parts joined by ';' are the first part's followed by the rest's |
| BashSession.EntriesListCommands | tools/bash_enhanced.py:321-322 | the history listing holds a numbered command line for every entry |
| BashSession.OutputShowsThreeLines | tools/bash_enhanced.py:324-330 | the history shows at most the first three lines of a stored output and marks that more were cut |
| TextTransform.Transform | tools/text_transform.py:31-50 | each known operation answers its own labelled result, and any other operation answers "Unknown operation: " with the operation |
| TextTransform.ReverseTwice | tools/text_transform.py:38-39 | reversing what the reverse operation answered, after its label, gives back the text |
| TextTransform.WordCountIsRuns | tools/text_transform.py:40-42 | the word count is the number of maximal runs of non-whitespace characters |
| TextTransform.Base64Tool | tools/text_transform.py:77-91 | encode answers the Base64 of the text's UTF-8 bytes; decode answers the decoded text or an error; any other operation is unknown |
| TextTransform.EncodedLength | tools/text_transform.py:82-84 | the encoding is padded: four characters for every three bytes begun |
| TextTransform.EncodeThenDecode | tools/text_transform.py:82-87 | decoding what encode answered, after its label, answers the original text |
| TextTransform.DecodeNeedsAscii | tools/text_transform.py:86 | decoding text that is not ASCII is always the ASCII error |
| Base64.Value | tools/text_transform.py:86 | every character has a sextet value in 0..63, or 64 when it is outside the alphabet |
| Base64.ValueSym | tools/text_transform.py:83-86 | the decoder reads each alphabet character back as the sextet the encoder wrote, and no sextet is written as '=' |
| Base64.Encode | tools/text_transform.py:83 | the encoding of n bytes has 4·⌈n/3⌉ characters |
| Base64.Decode | tools/text_transform.py:86 | a string holding any character past ASCII is refused |
| Base64.Feed | tools/text_transform.py:86 | an alphabet character advances the group position by one, and puts out one byte unless it starts a group |
| Base64.Finish | tools/text_transform.py:86 | input that ends succeeds exactly at a group boundary, with the bytes so far, and otherwise fails |
| Base64.RunAppends | tools/text_transform.py:86 | decoding only ever appends to the bytes already put out |
| Base64.RunData | tools/text_transform.py:86 | the decoder consumes an alphabet character as one sextet |
| Base64.QuadBits | tools/text_transform.py:83-86 | the three bytes are recovered exactly from their four sextets |
| Base64.FeedGroup | tools/text_transform.py:83-86 | feeding a group's four sextets puts exactly its three bytes out and starts a fresh group |
| Base64.RunQuad | tools/text_transform.py:83-86 | a full four-character group decodes to its three bytes and leaves the decoder at a group boundary |
| Base64.RunTailOne | tools/text_transform.py:83-86 | a final group with two '=' decodes to its one byte and ends the input |
| Base64.RunTailTwo | tools/text_transform.py:83-86 | a final group with one '=' decodes to its two bytes and ends the input |
| Base64.RunEncode | tools/text_transform.py:83-86 | decoding an encoding from a group boundary appends exactly the encoded bytes |
| Base64.EncodeAscii | tools/text_transform.py:83 | every character of an encoding is ASCII, so the decoder accepts it |
| Base64.DecodeEncode | tools/text_transform.py:83-86 | decoding the encoding of any bytes gives those bytes back |
| Utf8.EncodeChar | tools/text_transform.py:83 | every character takes one to four bytes |
| Utf8.Encode | tools/text_transform.py:83 | the bytes of a text are at least as many as its characters and at most four times as many |
| Utf8.DecodeFirst | tools/text_transform.py:86 | a decoded first character takes one to four bytes, never more than there are |
| Utf8.Decode | tools/text_transform.py:86 | a decoded text has no more characters than there were bytes, and every failure is the decode error |
| Utf8.EncodeDecodeFirst | tools/text_transform.py:86 | the bytes read for one character are exactly that character's encoding |
| Utf8.EncodeDecode | tools/text_transform.py:86 | the decoder is strict: whatever it accepts is exactly the encoding of the text it returns |
| Utf8.DecodeTwo | tools/text_transform.py:83-86 | a two-byte character is read back from its encoding, whatever follows |
| Utf8.DecodeThree | tools/text_transform.py:83-86 | a three-byte character passes the strict second-byte check and is read back, whatever follows |
| Utf8.DecodeFour | tools/text_transform.py:83-86 | a four-byte character passes the strict second-byte check and is read back, whatever follows |
| Utf8.DecodeFirstEncodeChar | tools/text_transform.py:83-86 | the first character of an encoding is read back with exactly its own byte count |
| Utf8.DecodeEncode | tools/text_transform.py:83-86 | decoding the bytes of any text gives the text back |
| Utf8.EncodeAscii | tools/text_transform.py:83 | ASCII text encodes to its code points, one byte per character |
| Text.Find | tools/research_tools.py:500-501 | the index of the first occurrence of the pattern, with no occurrence before it, or -1 exactly when it never occurs |
| Text.OccursShift | tools/file_tools.py:284 | occurrences in the tail are the occurrences in the whole text past its first character, shifted by one |
| Text.ContainsOccurs | tools/file_tools.py:284 | an occurrence at any index means the text contains the pattern |
| Text.NoneBefore | tools/research_tools.py:500-501 | a slice that ends before the first occurrence of a pattern does not contain it |
| Text.Count | tools/file_tools.py:284 | the count of non-overlapping occurrences is positive exactly when the pattern occurs, and never more than the text's length |
| Text.Replace | tools/file_tools.py:287 | replacing a pattern that does not occur leaves the text unchanged |
| Text.ReplaceLength | tools/file_tools.py:284-287 | each replaced occurrence changes the length by the difference between the new and old texts' lengths |
| Text.IndexOf | tools/bash_enhanced.py:286 | the position of the first occurrence of the character, or -1 exactly when it is absent |
| Text.JoinStartsWithFirst | tools/bash_enhanced.py:157 | a joined text starts with its first part |
| Text.JoinAppend | tools/research_tools.py:406 | joining two lists of parts is joining each and putting the separator between them |
| Text.Split | tools/bash_enhanced.py:326 | splitting always yields at least one piece |
| Text.JoinSplit | tools/notebook_tool.py:387 | joining the pieces of a split with the separator gives back the text |
| Text.SplitPiecesFree | tools/bash_enhanced.py:326 | no piece of a split holds the separator |
| Text.IndexOfPrefix | tools/bash_enhanced.py:286 | a prefix that ends at or before a character's first occurrence does not hold it |
| Text.Concat | tools/notebook_tool.py:331 | concatenating a single part gives that part |
| Text.LStrip | tools/bash_enhanced.py:282 | stripping on the left removes exactly the leading whitespace and leaves a suffix |
| Text.RStrip | tools/bash_enhanced.py:153 | stripping on the right removes exactly the trailing whitespace and leaves a prefix |
| Text.StripNone | tools/bash_enhanced.py:282 | a text with no whitespace at either end is unchanged by stripping |
| Text.LStripChar | tools/bash_enhanced.py:288 | stripping a character on the left removes exactly the leading copies of it |
| Text.RStripChar | tools/bash_enhanced.py:288 | stripping a character on the right removes exactly the trailing copies of it |
| Text.StripCharNone | tools/bash_enhanced.py:288 | a text that neither starts nor ends with the character is unchanged by stripping it |
| Text.TakeWord | tools/text_transform.py:41 | the leading word is the longest prefix without whitespace, and is non-empty when the text starts with a non-space |
| Text.Take | tools/bash_enhanced.py:160 | the first n characters, or the whole text when it is shorter |
| Text.Reverse | tools/text_transform.py:39 | the reverse has the same length and holds character i at position n-1-i |
| Text.ReverseInvolutive | tools/text_transform.py:39 | reversing twice gives back the text |
| Text.RunStartsSkipSpaces | tools/text_transform.py:41 | leading whitespace does not change the number of words, beyond marking a word boundary |
| Text.RunStartsSkipWord | tools/text_transform.py:41 | a text starting with a word has one more word than what follows that word |
| Text.WordsCountRuns | tools/text_transform.py:41 | the words of a whitespace split are as many as the maximal runs of non-whitespace characters |
| Text.RunStartsSkipRest | tools/text_transform.py:41 | after a word ends at whitespace, the rest counts the same whether or not a boundary is marked |
| Text.DigitChar | tools/text_transform.py:44 | every digit value below ten is written as a decimal digit character |
| Text.NatToString | tools/text_transform.py:44 | a number is written as one or more decimal digits |
| Text.ParseNatToString | tools/text_transform.py:44 | reading back a written number gives the number, so the decimal form is faithful |
| Text.SignedToString | tools/system_tools.py:803 | a signed change is written with '+' exactly when it is not negative and '-' exactly when it is negative |

## Left out

- The model endpoint and the SDK types: responses come from a finite script, and running out of it stands for a provider error; the opening token estimate of the system prompt is an opaque integer.
- AgentLoop.BudgetText: the budget notice is modelled as one text block of an assistant message; the SDK's construction of `Message` from a dict is not visible.
- asyncio concurrency (`gather`, semaphores, `to_thread`, streaming subprocesses): parallel dispatch and fan-out are modelled as positional maps, and the metrics are recorded in call order, which `Metrics.RecordExecutionCommutes` shows is immaterial.
- Filesystem, network and process I/O (saving and exporting conversations, glob, ls, find, grep, rg, ast-grep, git, urllib): only the decisions around them are modelled, over a filesystem map and outcome parameters.
- Floating point: durations are naturals, `avg_duration_ms` and `error_rate` are not modelled, and the temperature is kept in tenths.
- FileTools.EditFile: requires a non-empty old text, since the tool's `execute` refuses an empty one before editing (tools/file_tools.py:216).
- FileTools.ReadFile: universal-newline translation on reading is not modelled; lines are split at "\n".
- FileTools.EditFile: the file is read and written in text mode, so universal newlines turn "\r\n" and a lone "\r" into "\n" in the whole file, and undecodable bytes are replaced; the model edits the stored text as it is (tools/file_tools.py:272-275).
- MultiEdit.Execute: the same text-mode read and write turn "\r\n" into "\n" throughout the rewritten file; the model applies the edits to the stored text as it is (tools/multi_edit.py:87-89).
- History.LoadConversation: a saved file whose "messages" is not a list or whose "total_tokens" is not a number is not modelled; the source assigns both before `len` raises, so such a file leaves a replaced history behind the error, which the model's types cannot hold. The failures modelled (missing file, invalid JSON, unreadable file) change nothing.
- Write failures of the file and notebook tools, and the generic "Error reading/editing/adding" exception paths, are not modelled.
- Notebook: cell and output formatting (`_format_cell`, `_format_output`) is a parameter, and a missing or non-string cell source is not modelled.
- Todos.Upper: capitalises ASCII letters only; Unicode case mapping is not modelled, and likewise `upper`, `lower` and `title` are parameters of `TextTransform.Transform`.
- The exact quoting of `str(KeyError)` beyond the `'task'` key, `repr`, `json.dumps`, timestamps and uuid suffixes are parameters or fixed strings.
- The prompt texts are opaque constants.
- The Ls, Find, Grep, Cat and ContextPrime tools, the calculator, web, image, git, weather and Anthropic web tools, interactive mode and command printing, logging, and the evaluation harnesses are not part of this model: they are I/O wrappers, placeholders or presentation.
- Utf8.Decode: a failure carries one fixed message; Python's message also names the offending byte, its position and the reason, and the Base64 tool returns that message.
- Utf8.Encode: a Python string may hold a lone surrogate, and then encoding raises; a Dafny character cannot hold one, so that error is not modelled.
- Base64 decoding follows the lenient decoder of the Python standard library, which is not part of the repository; it is written out from its documented behaviour.
