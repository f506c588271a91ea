# STORM research workflow — a verified model of its deterministic core

The STORM research assistant is a LangGraph workflow. It creates a panel of
analyst personas for a topic. Each analyst then interviews an "expert" that
answers from web (Tavily) and arXiv searches. Every interview is turned into a
section, and the sections are assembled into a report with an introduction,
a body and a conclusion.

The chat-model and search calls are opaque. This project models the
deterministic logic around them:

- **Interview routing and loop.** `route_messages` and the interview subgraph
  are modelled as `Interview.InterviewSession`, a class whose `messages` and
  `context` fields grow by appended updates. Its `QuestionLoop` method runs
  ask → search web / search arXiv → answer until the router says to save.
- **Transition table.** The edges of `build_interview_graph` are modelled as
  `Graph.Superstep`.
- **Fan-out and report assembly.** This covers `initiate_all_interviews`, the
  section text the three writers share, and `finalize_report`.
- **Text helpers** of `utils.py`, including `load_chat_model` with its parse,
  provider dispatch and error messages.
- **Records and reducers** of `state.py`.
- **Configuration lookup** of `configuration.py`.
- **Search-result formatting and error wrapping** of `tools.py`.

Python's string operations are written out in `PyStrings`. The function
bodies follow CPython, and the contracts and lemmas state what the workflow
relies on: where `split` cuts, how `split()` with `" ".join` collapses
whitespace, and what `strip(chars)` removes. The operations are:

- `split(sep)` and `split(sep, 1)`;
- `count`;
- `strip(chars)` as a character-set strip;
- `split()` with `" ".join`;
- `replace`;
- slicing with negative bounds.

The chat model's replies, the search backends, the process environment and
`get_buffer_string` are function-typed parameters, bundled in
`Oracles.ChatReplies` and `Oracles.Services`. Every property therefore holds
for every possible reply, with one exception. The interview members
`Interview.InterviewSession.AskAndAnswer`, `Interview.InterviewSession.NextRound`,
`Interview.InterviewSession.QuestionLoop`, `Interview.InterviewSession.Conduct`,
`Interview.RunInterview` and `Interview.ConductAll` hold only for a chat model
whose questions are AI messages without a `name`.

Modules, one per source file, plus two support modules:

- `Wrappers`: `Option` and `Result`.
- `PyStrings`: Python `str` semantics.
- `State`: `state.py`.
- `Config`: `configuration.py`.
- `Utils`: `utils.py`.
- `Tools`: `tools.py`.
- `Oracles`: the outside calls as parameters.
- `Graph`: the pure nodes, the routing and the transition table of `graph.py`.
- `Interview`: the interview subgraph of `graph.py` as a class.

## Model

| member | source | states |
|---|---|---|
| State.PersonaLines | src/storm_research/state.py:35-38 | The persona is the four lines Name, Role, Affiliation, Description, in that order, each ending with a newline. |
| State.PersonaStartsWithNameEndsWithNewline | src/storm_research/state.py:35-38 | The persona starts with "Name: " followed by the name, and its last character is a newline. |
| State.AddReducer | src/storm_research/state.py:98 | The `operator.add` reducer on `context` and `sections` keeps the current list as a prefix and puts the update after it, unchanged. |
| State.ApplyUpdatesAppends | src/storm_research/state.py:98 | Any sequence of updates merged by the reducer yields the old list followed by every update in order: nothing is replaced or reordered. |
| State.FlattenSingletons | src/storm_research/state.py:119 | Updates of one section each concatenate to exactly those sections. |
| State.SectionsFanIn | src/storm_research/state.py:119 | Whatever order the interviews finish in, each contributing one section as its own update, `sections` ends as exactly those sections in that completion order: none lost, merged or duplicated. |
| Config.FromRunnableConfig | src/storm_research/configuration.py:78-111 | No contract; stated by `Config.DefaultsWhenNothingConfigured`, `Config.EachKeyOverridesItsField`, `Config.OtherKeysIgnored` and `Config.RangesNotEnforced`. |
| Config.Configurable | src/storm_research/configuration.py:90 | An absent, empty or "configurable"-less config gives an empty dictionary; otherwise the "configurable" dictionary is returned as it is. |
| Config.DefaultsWhenNothingConfigured | src/storm_research/configuration.py:19-76 | With no config, an empty one, or one without "configurable", every field has its default: "azure/gpt-4.1", 3, 3, 3, 3, True, True. |
| Config.EachKeyOverridesItsField | src/storm_research/configuration.py:95-111 | Each of the seven keys, when present, sets exactly its own field; when absent, that field keeps its default. |
| Config.OtherKeysIgnored | src/storm_research/configuration.py:95-111 | Two configs that agree on the seven keys give the same configuration, whatever other keys they hold. |
| Config.RangesNotEnforced | src/storm_research/configuration.py:39-56 | Any integer for max_analysts and max_interview_turns passes through unchanged: the 1..10 ranges are never checked. |
| PyStrings.Split | src/storm_research/graph.py:366 | `str.split(sep)` gives at least one part. The parts joined with the separator rebuild the string, and no part contains the separator. |
| PyStrings.SplitLeftmost | src/storm_research/graph.py:366 | The cuts are Python's leftmost non-overlapping ones: no occurrence of the separator starts inside a part, even one running on into the separator that follows it. |
| PyStrings.FirstCutUnique | src/storm_research/graph.py:366 | A string can be written as part, separator, rest with the part cut at the first separator in only one way. |
| PyStrings.SplitCount | src/storm_research/graph.py:366 | `split` returns one more part than `count` finds separators. |
| PyStrings.SplitOnce | src/storm_research/utils.py:29 | `split(sep, 1)` gives two parts exactly when the separator occurs; the first part has no separator, and the parts rebuild the string. |
| PyStrings.Strip | src/storm_research/graph.py:360 | `strip(chars)` removes exactly the longest runs of characters from the set at both ends. The result neither starts nor ends with such a character and is a slice of the input. |
| PyStrings.CollapseWhitespace | src/storm_research/utils.py:140 | `" ".join(s.split())` has exactly the words of s, in order, and no leading, trailing or doubled whitespace; its only whitespace is one plain space between neighbouring words. |
| PyStrings.WordsOfJoin | src/storm_research/utils.py:140 | Splitting words joined by single spaces gives back those words: the join never merges two words and never splits one. |
| PyStrings.StripCollapsed | src/storm_research/utils.py:142 | Stripping whitespace from collapsed text changes nothing. |
| Utils.LoadChatModel | src/storm_research/utils.py:15-59 | No contract; stated by `Utils.LoadAtFirstSlash`, `Utils.NoSlashIsFormatError` and the four unit-test examples. |
| Utils.ModelForProvider | src/storm_research/utils.py:35-59 | No contract; stated by `Utils.OpenAIProvider`, `Utils.AnthropicProvider`, `Utils.AzureProvider` and `Utils.UnsupportedProvider`. |
| Utils.ParseModelString | src/storm_research/utils.py:28-33 | The unpacking of `split("/", 1)` fails exactly when there is no "/". Otherwise it cuts at the first "/": the provider has no "/" and the two halves rebuild the string. |
| Utils.ParseAtFirstSlash | src/storm_research/utils.py:29 | "provider/rest" parses to (provider, rest) even when rest contains "/". |
| Utils.LoadAtFirstSlash | src/storm_research/utils.py:28-59 | Loading "provider/rest" is the provider dispatch applied to provider and rest. |
| Utils.NoSlashIsFormatError | src/storm_research/utils.py:28-33 | A model string without "/" fails with the format error that quotes the input. |
| Utils.FormatErrorNamesForm | src/storm_research/utils.py:30-33 | The format error names "provider/model-name". |
| Utils.UnsupportedProvider | src/storm_research/utils.py:58-59 | A provider other than openai, anthropic or azure fails with "Unsupported provider: " followed by the provider. |
| Utils.OpenAIProvider | src/storm_research/utils.py:36-37 | "openai/" + name loads an OpenAI model with that name; `load_chat_model` itself reads no environment variable on this path. |
| Utils.AnthropicProvider | src/storm_research/utils.py:38-39 | "anthropic/" + name loads an Anthropic model with that name; `load_chat_model` itself reads no environment variable on this path. |
| Utils.AzureProvider | src/storm_research/utils.py:40-57 | "azure/" + name succeeds exactly when both variables are set and non-empty. On failure the error is the settings error. On success the model uses API version "2024-12-01-preview", temperature 0.1 and the two settings. |
| Utils.AzureErrorNamesBoth | src/storm_research/utils.py:45-49 | The Azure settings error names both AZURE_OPENAI_ENDPOINT and AZURE_OPENAI_API_KEY. |
| Utils.OpenAIExample | tests/unit_tests/test_utils.py:17-19 | "openai/gpt-4.1" loads an OpenAI model named "gpt-4.1". |
| Utils.UnsupportedExample | tests/unit_tests/test_utils.py:58-63 | "unsupported/model" fails with "Unsupported provider: unsupported". |
| Utils.AzureWithoutSettingsExample | tests/unit_tests/test_utils.py:43-49 | "azure/gpt-4.1" in an empty environment fails with the settings error. |
| Utils.InvalidFormatExample | tests/unit_tests/test_utils.py:51-56 | "invalid-format" fails to load. |
| Utils.ExtractTextFromMessage | src/storm_research/utils.py:62-78 | A string is returned unchanged, a chat message gives its content, and any other object gives its `str`. |
| Utils.FormatAnalystDescription | src/storm_research/utils.py:81-95 | No contract; stated by `Utils.AnalystDescriptionLines`. |
| Utils.AnalystDescriptionLines | src/storm_research/utils.py:81-95 | The description is four newline-separated lines: the bold name after the person emoji, then Role, Affiliation and Expertise, each indented. |
| Utils.FormatSectionHeader | src/storm_research/utils.py:98-107 | The header is two newlines, "## ", the name and two newlines: seven characters longer than the name, with the name at index 5. |
| Utils.SectionHeaderInjective | src/storm_research/utils.py:98-107 | Different section names give different headers. |
| Utils.TruncateText | src/storm_research/utils.py:110-122 | Text within the limit is returned unchanged. Longer text becomes a prefix of itself followed by "...", exactly max_length long when max_length >= 3; Python's negative slice is kept for smaller limits. |
| Utils.TruncateTextDefault | src/storm_research/utils.py:110-122 | With the default limit 1000, text of at most 1000 characters is unchanged and longer text becomes its first 997 characters and "...", 1000 characters in all. |
| Utils.RemoveDocumentTags | src/storm_research/utils.py:134-137 | No contract; stated by `Utils.RemovalKeepsPieces` and `Utils.CleanSourceCitation`. |
| Utils.CleanSourceCitation | src/storm_research/utils.py:125-142 | Once the three tag fragments are removed, the result has exactly the words of the source, in order, with one plain space between neighbours and no whitespace at the ends. |
| Utils.RemovalKeepsPieces | src/storm_research/utils.py:135-137 | Replacing a fragment with "" concatenates the pieces between its occurrences, and none of those pieces contains the fragment. |
| Tools.FormatEach | src/storm_research/tools.py:50-57 | The loop formats every result, in input order, when each one can be formatted. Otherwise the error is that of the first result that cannot. |
| Tools.FormatEachFirstFailure | src/storm_research/tools.py:50-62 | When result i is the first that cannot be formatted, its error is the outcome. |
| Tools.FormatWebResult | src/storm_research/tools.py:52-56 | A web result formats exactly when it has both "url" and "content". |
| Tools.FormatArxivDoc | src/storm_research/tools.py:80-89 | A paper formats exactly when its metadata has "entry_id", "Title" and "Summary"; "Published" and "Authors" default to "". |
| Tools.SearchTools.constructor | src/storm_research/tools.py:16-34 | The tool object holds the configuration read from the config, and its result limits are that configuration's limits. |
| Tools.SearchTools.SearchWeb | src/storm_research/tools.py:36-62 | The returned text is the formatted web search for the configured result limit and the query; the method never fails. |
| Tools.SearchTools.SearchArxiv | src/storm_research/tools.py:64-95 | The returned text is the formatted arXiv search for the configured document limit and the query; the method never fails. |
| Tools.GetSearchTools | src/storm_research/tools.py:99-108 | A fresh tool object built from the config. |
| Tools.WebBlocks | src/storm_research/tools.py:50-57 | One block per complete web result. |
| Tools.ArxivBlocks | src/storm_research/tools.py:78-90 | One block per complete paper. |
| Tools.WebSearchText | src/storm_research/tools.py:36-62 | No contract; stated by the three `Tools.WebSearch…` lemmas and `Tools.WebDocumentCount`, and tied to the loop by `Tools.SearchTools.SearchWeb`. |
| Tools.WebSearchFormatsEveryResult | src/storm_research/tools.py:50-59 | Complete results give their blocks, in order, joined by the "---" separator; no results give "". |
| Tools.WebSearchFailsOnFirstIncomplete | src/storm_research/tools.py:51-62 | A result missing "url" or "content", with none missing before it, makes the whole text the error for the first missing key of that result, as `str(KeyError)` prints it. |
| Tools.WebSearchWrapsBackendError | src/storm_research/tools.py:61-62 | A backend exception becomes the web search error text, which starts with "<Error>". |
| Tools.ArxivSearchText | src/storm_research/tools.py:64-95 | No contract; stated by the three `Tools.ArxivSearch…` lemmas and `Tools.ArxivDocumentCount`, and tied to the loop by `Tools.SearchTools.SearchArxiv`. |
| Tools.ArxivSearchFormatsEveryDoc | src/storm_research/tools.py:78-92 | Complete papers give their blocks, in order, joined by the separator; no papers give "". |
| Tools.ArxivSearchFailsOnFirstIncomplete | src/storm_research/tools.py:79-95 | The first paper missing "entry_id", "Title" or "Summary" makes the whole text the arXiv error for the first of those keys it lacks. |
| Tools.ArxivSearchWrapsBackendError | src/storm_research/tools.py:94-95 | A backend exception becomes the arXiv search error text, which starts with "<Error>". |
| Tools.WebBlockHasOneDocument | src/storm_research/tools.py:52-56 | A web block contains "<Document" exactly once when its fields do not. |
| Tools.WebDocumentCount | src/storm_research/tools.py:50-59 | When no field of any result contains "<Document", the successful web text contains as many "<Document" openers as there were results. |
| Tools.ArxivBlockHasOneDocument | src/storm_research/tools.py:81-89 | An arXiv block contains "<Document" exactly once when its fields do not. |
| Tools.ArxivDocumentCount | src/storm_research/tools.py:78-92 | When no field of any paper contains "<Document", the successful arXiv text contains as many "<Document" openers as there were papers. |
| Oracles.ChatModelFor | src/storm_research/utils.py:28-29 | A string model setting is loaded. Any other value fails with Python's "object has no attribute 'split'" error. |
| Oracles.DefaultModelNeedsAzureSettings | src/storm_research/configuration.py:19-23 | With the default setting the model loads exactly when both Azure variables are set. |
| Graph.RouteMessages | src/storm_research/graph.py:181-206 | Routing yields ask_question or save_interview, or the IndexError that `messages[-2]` raises. |
| Graph.ExpertCountReadsOnlyTags | src/storm_research/graph.py:193-195 | The count of expert answers depends only on each message's role and name, never on its content. |
| Graph.RouteSavesAtLimit | src/storm_research/graph.py:189-199 | Once the expert answers reach the limit (default 3), routing saves for any contents with the same tags. |
| Graph.ExpertCountAppend | src/storm_research/graph.py:193-195 | Appending a message adds one to the count exactly when it is an AI message named "expert". |
| Graph.RouteBelowLimit | src/storm_research/graph.py:201-206 | Below the limit, routing fails exactly when there are fewer than two messages. It saves exactly when `messages[-2]` contains "Thank you so much for your help", with no "!" required, and asks again otherwise. |
| Graph.ClosingPhraseAnywhere | src/storm_research/graph.py:202-204 | A question containing the closing phrase anywhere, followed by one answer, ends the interview. |
| Graph.DefaultTurnLimit | src/storm_research/graph.py:190 | An absent `max_num_turns` routes like 3. |
| Graph.Rounds | src/storm_research/graph.py:409-413 | k question rounds take three supersteps each: ask_question, then the two searches together, then answer_question, in that order every round. |
| Graph.InterviewSupersteps | src/storm_research/graph.py:409-418 | An interview of k rounds takes 3k + 4 supersteps. |
| Graph.RoundsFollowTable | src/storm_research/graph.py:409-416 | Every step of k rounds followed by save_interview is a transition of the edge table. |
| Graph.InterviewFollowsTable | src/storm_research/graph.py:409-418 | For k >= 1, the run START, k rounds, save_interview, write_section, END follows the edge table from {START} to {END}. |
| Graph.AnswersPerInterview | src/storm_research/graph.py:409-418 | That run visits answer_question exactly k times. |
| Graph.RoundsAnswer | src/storm_research/graph.py:412-414 | Each round holds one answer_question step. |
| Graph.InitiateAllInterviews | src/storm_research/graph.py:238-260 | One Send per analyst, in analyst order. Each targets "conduct_interview" and carries the analyst, the one-message seed "So you said you were writing an article on {topic}?" (topic defaults to "") and max_num_turns (default 3). |
| Graph.InterviewsFollowAnalysts | src/storm_research/graph.py:243-260 | The analysts of the Sends are exactly the state's analysts, in order. |
| Graph.InterviewsOfMoreAnalysts | src/storm_research/graph.py:243-260 | Adding analysts appends their Sends after the existing ones. |
| Graph.CreateAnalysts | src/storm_research/graph.py:45-74 | Creating analysts succeeds exactly when the model loads and there is a last message to read the topic from. The analysts are the model's reply for the last message's content as topic and for the state's `max_analysts`, or the configured one when the state has none. It writes only `analysts`; `topic` and `max_num_turns` are not written. |
| Graph.InterviewsOfAFreshRun | src/storm_research/graph.py:53-258 | After create_analysts on an input state, every interview opens with "So you said you were writing an article on ?" and has turn limit 3, since `topic` is never set. |
| Graph.FormattedSectionsInOrder | src/storm_research/graph.py:276 | The joined sections keep list order: the first sections' text, a blank line, then the rest. |
| Graph.WriteReport | src/storm_research/graph.py:263-291 | No contract; stated by `Graph.WritersShareFormattedSections`. |
| Graph.WriteIntroduction | src/storm_research/graph.py:294-319 | No contract; stated by `Graph.WritersShareFormattedSections`. |
| Graph.WriteConclusion | src/storm_research/graph.py:322-347 | No contract; stated by `Graph.WritersShareFormattedSections`. |
| Graph.WritersShareFormattedSections | src/storm_research/graph.py:263-347 | The report, introduction and conclusion writers succeed exactly when the model loads, and all three receive the topic and the same "\n\n"-joined sections. |
| Graph.SplitSources | src/storm_research/graph.py:363-368 | Without a split the body is unchanged and there are no sources. With a split the content is body, separator, sources; the cut is at the first separator and neither part contains one. |
| Graph.SplitSourcesAtFirstCut | src/storm_research/graph.py:363-368 | Conversely, content made of a body cut at its first separator, the separator, and sources without one is split into exactly that body and those sources. |
| Graph.SourcesSplitSucceeds | src/storm_research/graph.py:366-368 | The sources are kept exactly when the split gives two parts, and then they are those two parts. |
| Graph.SourcesKeptIffOneSeparator | src/storm_research/graph.py:363-368 | The sources are kept exactly when `count("\n## Sources\n")` is one. |
| Graph.SeparatorOnceSplitsInTwo | src/storm_research/graph.py:366 | A separator occurring exactly once, counting overlaps, splits the body into two parts. |
| Graph.FinalReport | src/storm_research/graph.py:359-381 | No contract; stated by `Graph.FinalizePlain`, `Graph.FinalizeWithSources` and `Graph.FinalizeWithoutSources`. |
| Graph.FinalizeReport | src/storm_research/graph.py:383-386 | The returned message list is the single human message holding the final report. |
| Graph.FinalizePlain | src/storm_research/graph.py:359-377 | A body that neither starts with "## Insights" nor contains "## Sources" gives introduction + "\n\n---\n\n## Main Idea\n\n" + body + "\n\n---\n\n" + conclusion exactly. |
| Graph.InsightsHeadingLine | src/storm_research/graph.py:359-360 | The character-set strip turns "## Insights\n" + rest into "\n" + rest stripped on the right, since newline is not in the set. |
| Graph.StripRightStops | src/storm_research/graph.py:360 | The right strip never reaches past a character outside the set. |
| Graph.FinalizeWithSources | src/storm_research/graph.py:359-381 | The content is first stripped of a leading "## Insights". When that body splits in two at "\n## Sources\n", the report is introduction, the main-idea heading, the first part, conclusion, then "\n\n## Sources\n" and the second part. |
| Graph.FinalizeWithoutSources | src/storm_research/graph.py:359-377 | Otherwise the stripped body is used whole between introduction and conclusion, and nothing is appended. |
| Interview.GrowOneRound | src/storm_research/state.py:98 | Appending one question, one expert answer and two context entries extends a history grown by k rounds to one grown by k + 1. |
| Interview.InterviewSession.constructor | src/storm_research/graph.py:247-258 | A session starts from a Send: its analyst, its seed messages and its turn limit, with empty context and sections and no transcript. |
| Interview.InterviewSession.GenerateQuestion | src/storm_research/graph.py:80-98 | Appends the model's question for the persona and the history; nothing else changes. |
| Interview.InterviewSession.SearchWeb | src/storm_research/graph.py:101-120 | Appends to context the web search text for the model's query and the configured limit; nothing else changes. |
| Interview.InterviewSession.SearchArxiv | src/storm_research/graph.py:123-142 | Appends to context the arXiv search text for the model's query and the configured limit; nothing else changes. |
| Interview.InterviewSession.GenerateAnswer | src/storm_research/graph.py:145-167 | Appends the model's answer, given the persona, context and history, renamed "expert"; nothing else changes. |
| Interview.InterviewSession.SaveInterview | src/storm_research/graph.py:170-178 | Sets the transcript to the serialized history; nothing else changes. |
| Interview.InterviewSession.WriteSection | src/storm_research/graph.py:209-232 | Sets sections to the one section written for the analyst's focus and the context; nothing else changes. |
| Interview.RoundResult | src/storm_research/graph.py:80-167 | One round keeps the history and context and adds two entries to each. When the model replies with AI messages, the first new message is not an expert answer and the second is. |
| Interview.RoundExtends | src/storm_research/graph.py:409-414 | Every round of the subgraph's nodes keeps the history and context and grows each by two, and asks then answers when the model replies with AI messages. |
| Interview.AfterRoundsGrown | src/storm_research/graph.py:409-416 | k such rounds grow the history by k question-and-answer pairs and the context by two search texts per round. |
| Interview.AfterRoundsPrefix | src/storm_research/graph.py:409-416 | The history after the first j of k rounds is the j-round history. |
| Interview.StepsFromAfterRounds | src/storm_research/graph.py:409-416 | A history and context in which each of k rounds is one round step from the prefix before it are exactly the k-round result. |
| Interview.InterviewSession.AskAndAnswer | src/storm_research/graph.py:409-414 | One round sets the history and context to the round result of the old ones: the question, then the answer, and the web and arXiv texts. The expert count rises by exactly one. |
| Interview.InterviewSession.NextRound | src/storm_research/graph.py:409-416 | One more round extends the record of rounds by one round step, keeps every earlier routing decision, raises the expert count by one, and returns the router's answer for the new history. |
| Interview.InterviewSession.QuestionLoop | src/storm_research/graph.py:409-416 | The loop terminates after at least one round, and after at most max(1, limit - initial count) rounds. The history and context are exactly those of that many rounds from the old ones. After each earlier round routing said ask_question, and after the last it says save_interview. |
| Interview.InterviewSession.Conduct | src/storm_research/graph.py:392-423 | If the model cannot load, the interview fails with that error and the state is unchanged. Otherwise the history and context are those of the rounds the loop ran, routing said ask_question after every earlier round and save_interview after the last, the transcript is the serialized final history, and sections holds exactly one section. |
| Interview.RunInterview | src/storm_research/graph.py:447-453 | One Send's subgraph fails with the model-loading error exactly when the model cannot load; otherwise it returns the section the model writes for that Send's analyst from the context of a finished run: at least one round from the Send's messages and an empty context, the history and context exactly those of that many rounds, the router asking after each earlier round and saving after the last. |
| Interview.ConductAll | src/storm_research/graph.py:447-453 | The interviews fail exactly when there is at least one Send and the model cannot load. Otherwise there is one section per Send, each written by the model for that Send's analyst from the context of a finished interview run for that Send. |

## Left out

- LLM calls (`ainvoke`, `with_structured_output`) are oracle functions of the
  prompt's varying parts. They are fixed for a run, so the nondeterminism of
  repeated calls and the prompt texts of `prompts.py` are not modelled.
- The Tavily and arXiv clients are backend functions returning either results
  or a raised message. `SearchTools.__init__` building the clients and the
  construction of the chat-model library objects are foreign code: a model is
  a tagged value.
- Building the search clients and chat-model objects is assumed not to
  raise. `get_search_tools(config)` (graph.py:109, 131) runs outside any
  `try` and can raise, for example without a Tavily API key; in the model
  `Interview.InterviewSession.SearchWeb` and
  `Interview.InterviewSession.SearchArxiv` never fail.
- Message content is always a string. In LangChain it can also be a list
  of content blocks: graph.py:203 then tests list membership rather than a
  substring, and `extract_text_from_message` (utils.py:62-78) returns the
  list as it is. That case is not modelled.
- `os.environ` is an input map.
- Concurrency is modelled sequentially.
  - Within a round, `search_web` runs before `search_arxiv`.
  - Interviews run in `Send` order.
  - Any other completion order of the fan-in is covered by
    `State.SectionsFanIn`: `sections` then holds the same sections in that
    order.
- `add_messages` is modelled as plain append: its id-based replacement of
  messages is not modelled.
- `get_buffer_string` is an opaque serializer.
- `generate_thread_id` (a UUID), graph compilation, the checkpointer, the
  module-level `graph` instance and LangGraph's recursion limit are not modelled.
- The wiring of the main graph (graph.py:447-461) is modelled as the functions
  `CreateAnalysts`, `InitiateAllInterviews`, `ConductAll`, the three writers
  and `FinalizeReport`, without a composed end-to-end run.
- arXiv metadata values are modelled as strings; the source formats arbitrary
  objects with `str`.
- Interview.InterviewSession.Conduct: requires that the chat model replies
  with AI messages whose questions carry no `name` (`Oracles.RepliesAreAIMessages`).
  So do `Interview.InterviewSession.AskAndAnswer`,
  `Interview.InterviewSession.NextRound`, `Interview.InterviewSession.QuestionLoop`,
  `Interview.RunInterview` and `Interview.ConductAll`. Without that, a question
  could be counted as an expert answer.
- Model replies never fail: every chat-model call is a total function. In
  the program `ainvoke` and `with_structured_output(...).ainvoke` can raise
  (graph.py:67, 96, 113, 135, 162, 225, 284, 315, 343), which aborts the run. So
  `Interview.ConductAll`, `Graph.CreateAnalysts` and
  `Graph.WritersShareFormattedSections` succeed "exactly when the model
  loads" only in that sense.
- Graph.Superstep: the transition table states the shape of a run, which
  nodes follow which. At each round `Graph.FollowsTable` admits either
  router choice. The choice is tied to `Graph.RouteMessages` by
  `Interview.InterviewSession.QuestionLoop`: its history is that of its
  rounds, the router said ask_question on the history after each earlier
  round and says save_interview on the final one.
- Graph.WithoutInsights: it has no contract of its own. It is covered by
  `Graph.InsightsHeadingLine` and `Graph.FinalizePlain`.
- Where the program's own text says one thing and its code does another,
  the model follows the code:
  - prompts.py:42 asks the model to close with "Thank you so much for your
    help!", and graph.py:203 matches the phrase without the "!", anywhere in
    `messages[-2]`, whatever that message's role;
  - the `max_interview_turns` setting is described as "Maximum conversation
    turns per interview" (configuration.py:43-48), but the turn limit comes
    from the state's `max_num_turns` (graph.py:190, 256), which a run
    started from the input state never sets, so the limit is 3;
  - the "range" metadata [1, 10] (configuration.py:39, 47, 56, 64) is never
    checked: values pass through unchanged;
  - `create_analysts` reads the topic from the last message (graph.py:53)
    but never writes `topic`, so interviews open with "... article on ?"
    (graph.py:243, 253).
