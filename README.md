# KNOWDEX answer pipeline and citation text, in Dafny

KNOWDEX answers a question in a few steps:

1. It asks a chat model which web searches to run.
2. It runs each `brave_search` call against the Brave search API.
3. It numbers every result it uses as a citation.
4. It streams the answer of a second, tool-less completion, followed by a "Sources:" block listing those citations.

Two front ends consume that stream. Each re-parses the prose to recover the sources:

- the Chainlit chat handler (`on_message`);
- the FastAPI research endpoint (`research_endpoint`).

This project models that pipeline and proves properties of it:

- the research generator `run_research`, with the model completions and the search requests as input data;
- its citation tracker;
- the second citation tracker in the utilities;
- the tool registry;
- the conversation memory;
- the Brave result renderer;
- the two stream-parsing source extractors.

The central cross-file results are the round trips:

- `RoundTrip.ChainlitRoundTrip` and `RoundTrip.BackendRoundTrip`: the block that `CitationManager.format()` streams is read back by each front end as exactly one source per citation, in order.
- `RoundTrip.ChainlitReadsResearch` and `RoundTrip.BackendReadsResearch`: the same holds for the whole stream of a completed research run.

Modules, one per file:

| module | models |
|---|---|
| `Wrappers` | `Option` / `Result` |
| `Text` | the Python `str` operations used: `strip`, `lstrip`/`rstrip` with a character set, `startswith`, `in`, `lower`, `split`, `join`, `f"{n}"` |
| `Types` | `agent/custom_types.py` (`citation`, `Message`), tool calls and search-result shapes |
| `AgentCitations` | the `CitationManager` of `agent/agent.py` |
| `ResearchModel` | `run_research` as a function of its inputs (the specification) |
| `ResearchLoop` | `run_research` as the step-by-step procedure it is, proved equal to `ResearchModel.Research` |
| `ResearchProps` | what `run_research` promises, proved about `ResearchModel.Research` |
| `UtilCitations` | `agent/utils/citation.py` |
| `Registry` | `agent/tools/registry.py` |
| `Memory` | `agent/memory/conversation.py` |
| `BraveSearch` | the result rendering of `BraveSearchTool.run` |
| `ChainlitSources` | the chunk and line scanner of `on_message` in `chainlit_app.py` |
| `BackendResearch` | the chunk loop of `research_endpoint` in `backend/routers/research.py` |
| `RoundTrip` | the cross-file round trips |

Outside interactions are inputs rather than performed: the two model completions, the HTTP requests, the system prompt and the clock. A research run receives an `Environment` holding:

- whether the `AsyncOpenAI` client was built or its constructor raised (it raises when no API key is set);
- the first reply, its raised error or its content and tool calls;
- one `SearchOutcome` per tool call;
- the final reply, its raised error or its answer text.

The Brave renderer receives the HTTP status and the decoded body. The front ends receive the chunk sequence the generator yields.

Three behaviours of the code worth knowing, which the model follows:

- A tool call with a name other than `brave_search` gets no tool result at all. It does not get an error result.
- The answer always comes from the second completion, even when the first reply asked for no tools. The first reply's content is never streamed.
- The registry is not what the loop uses. The loop hard-codes its one tool as `brave_search`, while the registered tool is named `Brave_search`.

## Model

| member | source | states |
|---|---|---|
| Types.ParseRoleRoundTrip | agent/custom_types.py:12 | each of the four role literals is accepted as exactly its own role, and a string is accepted as a role only when it is that role's literal |
| AgentCitations.CitationManager.constructor | agent/agent.py:56-58 | a fresh tracker has no entries and counter 1 |
| AgentCitations.CitationManager.Add | agent/agent.py:60-62 | appends exactly `"[n] title\nurl"` with the current counter `n`, advances the counter by one, and keeps the entries equal to the numbered history of additions |
| AgentCitations.CitationManager.Format | agent/agent.py:64-65 | the block is empty exactly when nothing was added, and otherwise renders the entries of the additions in order |
| AgentCitations.Render | agent/agent.py:65 | `"\n\nSources:\n" + "\n".join(c) if c else ""`: empty exactly for no entries, else it opens with the "Sources:" header line |
| AgentCitations.EntriesSnoc | agent/agent.py:60-62 | one more addition appends exactly one entry, numbered one past the number of earlier additions |
| AgentCitations.EntriesAfter | agent/agent.py:60-62 | a source added after a batch of others is numbered after all of them (numbering starts at 1 and rises by 1) |
| AgentCitations.EntriesDistinct | agent/agent.py:60-62 | no de-duplication: two different additions give two different entries even for the same title and url |
| AgentCitations.NatToStringInjective | agent/agent.py:61 | different counter values are printed differently |
| UtilCitations.AddAsWritten | agent/utils/citation.py:9-13 | as written, every call of `add` raises `UnboundLocalError` for `citation`, whatever the arguments |
| UtilCitations.CitationManager.constructor | agent/utils/citation.py:5-7 | no records, next number 1 |
| UtilCitations.CitationManager.Add | agent/utils/citation.py:9-13 | returns the number in force, which is one past the number of records, appends exactly the record with that number, title, url and snippet, and advances the counter |
| UtilCitations.CitationManager.AddWithoutSnippet | agent/utils/citation.py:9 | without a snippet argument the record's snippet is the empty string |
| UtilCitations.CitationManager.FormatReference | agent/utils/citation.py:15-21 | the loop-built, newline-joined `lines` list equals the rendering of the records |
| UtilCitations.ReferenceEmpty | agent/utils/citation.py:15-18 | the block is empty exactly when there are no records, and otherwise opens with `"\n\nSources:"` |
| UtilCitations.ReferenceSnoc | agent/utils/citation.py:18-21 | one more record appends a newline and its line group (after the heading for the first record) |
| UtilCitations.NumbersIncrease | agent/utils/citation.py:11-13 | record numbers strictly increase, with no gaps, so a repeated url gets a fresh number |
| Registry.ToolDict.Put | agent/tools/registry.py:10 | dict assignment: the entry is replaced or added, a new key goes last, an existing key keeps its position |
| Registry.ToolRegistry.constructor | agent/tools/registry.py:5 | the class-level dict starts empty |
| Registry.ToolRegistry.Register | agent/tools/registry.py:7-11 | the decorator returns its class argument unchanged and stores its instance, keeping the dict equal to "last registration per name, in first-registration order" |
| Registry.ToolRegistry.GetTools | agent/tools/registry.py:13-15 | `get_tools` hands out the registry's own dict object, not a copy |
| Registry.ToolRegistry.ForLlm | agent/tools/registry.py:17-30 | one `{"type": "function", "function": {name, description, parameters}}` entry per stored name, in first-registration order, built from the latest tool under that name |
| Registry.KeyOrderDistinct | agent/tools/registry.py:10 | the dict key order has each name once, and exactly the registered names |
| Registry.KeyOrderPrefix | agent/tools/registry.py:10 | later registrations never move a name already present: the old key order is a prefix of the new |
| Registry.LatestDomain | agent/tools/registry.py:10 | a name is stored exactly when some registered tool has it |
| Registry.LatestIsLast | agent/tools/registry.py:10 | a later registration under the same name replaces the earlier one |
| Memory.ConversationMemory.constructor | agent/memory/conversation.py:5-6 | the log starts empty |
| Memory.ConversationMemory.Add | agent/memory/conversation.py:8-14 | a valid role appends exactly one message at the end, with `None` tool calls and citations turned into empty lists, and extends the chat format by exactly `{role, content}`; a role outside the four literals is rejected and nothing changes |
| Memory.ConversationMemory.GetOpenAIFormat | agent/memory/conversation.py:16-20 | same length and order as the log, each element the matching message's role and content (it reads the log and changes nothing) |
| BraveSearch.RenderItems | agent/brave/search.py:27-28 | on success, one entry per visited result |
| BraveSearch.Run | agent/brave/search.py:23-30 | the loop of `run` returns or raises exactly what the rendering specifies for this status and body |
| BraveSearch.StatusRaises | agent/brave/search.py:23 | a status outside 2xx raises the status error, whatever the body, and a 2xx status never does |
| BraveSearch.EntryJoin | agent/brave/search.py:28 | an entry is its title, url and snippet lines and an empty last line, joined with newlines, with the text `None` for a missing snippet |
| BraveSearch.RenderItemsSucceeds | agent/brave/search.py:27-28 | rendering raises exactly when a visited result lacks a title or a url, and otherwise the i-th entry is the i-th result's |
| BraveSearch.RenderItemsKeyError | agent/brave/search.py:28 | the only error rendering raises is a missing-key error |
| BraveSearch.NoResultsExactly | agent/brave/search.py:27-30 | a 2xx response yields "No results found" exactly when the results list is missing or empty, whether or not its results carry a title and a url |
| BraveSearch.RenderedLines | agent/brave/search.py:27-30 | with no newline inside the fields, the returned text splits back into title, url, snippet and "" per result, in order, for at most ten results |
| ResearchLoop.RenderTop | agent/agent.py:171-178 | the enumerate loop cites exactly the used results, in order, and builds exactly the numbered result text |
| ResearchLoop.Request | agent/agent.py:126-206 | one search: a success yields the result text, records it under the call id and cites the top results; each failure yields its notice, records its failure output and cites nothing |
| ResearchLoop.HandleCall | agent/agent.py:118-213 | one pass of the tool-call loop yields, records and cites exactly what the call's step specifies |
| ResearchLoop.ToolRound | agent/agent.py:117-213 | the whole tool-call loop yields, records and cites exactly the steps of all calls in call order |
| ResearchLoop.AppendToolMessages | agent/agent.py:232-237 | the append loop extends the log by exactly the tool messages |
| ResearchLoop.RunResearch | agent/agent.py:67-255 | the generator run to completion produces exactly the fragments, message log, citations and escaping exception of the specification |
| ResearchLoop.Finish | agent/agent.py:240-255 | after "Generating answer...": the answer, the sources block and the finished line, or the fatal line and the API-key hint |
| ResearchProps.SearchPairs | agent/agent.py:117-118 | the dispatched calls are calls of the reply named `brave_search`, in call order |
| ResearchProps.StepResult | agent/agent.py:117-213 | a `brave_search` call records exactly one result with its own id; any other name does nothing at all |
| ResearchProps.ToolResultsOfSearchCalls | agent/agent.py:117-213 | the tool results of a round are exactly one per `brave_search` call, in call order, with that call's id and its search's output |
| ResearchProps.SuccessOutputNumbered | agent/agent.py:172-178 | a success output starts with `1. `: result numbering restarts in each call |
| ResearchProps.FailureOutputUnnumbered | agent/agent.py:139-213 | no failure output starts with `1`, so success and failure outputs are distinguishable |
| ResearchProps.FailureOutputInjective | agent/agent.py:139-213 | the failure outputs are pairwise different, except that an empty body and an empty result list both give "No results found" |
| ResearchProps.ResultsListed | agent/agent.py:160-168 | `data.get("web", {}).get("results", [])` after a non-blank 200: "No results found" exactly when `web` or `results` is missing or the list is empty, and otherwise the loop goes on with the provider's list |
| ResearchProps.ClassifyResponded | agent/agent.py:139-168 | a response succeeds exactly when it is a 200 with a non-blank JSON body listing some results, and fails with its status exactly when that is not 200 |
| ResearchProps.CitationNumbering | agent/agent.py:172-177 | citation numbers run on across calls: the j-th source of call k is numbered one past all earlier calls' sources plus j |
| ResearchProps.CitedDefaults | agent/agent.py:172-176 | each cited pair is the result's `title`, or "No title" when it has none, and its `url`, or "" when it has none |
| ResearchProps.StepCitations | agent/agent.py:171-177 | a call cites only on success, and then exactly its first three results at most, in order |
| ResearchProps.MessageLog | agent/agent.py:75-237 | no log when the client constructor raises; otherwise the log is [system, user] without tool calls, and otherwise [system, user, the assistant message listing every call, then one tool message per `brave_search` call in order] |
| ResearchProps.FragmentOpening | agent/agent.py:71-113 | the stream opens with the three preamble fragments, which are all of it when the client constructor raises, and then "Searching the web..." only when the first reply asked for tools |
| ResearchProps.FragmentEnding | agent/agent.py:75-255 | an exception escapes exactly when `AsyncOpenAI(...)` raises outside the `try`, and then the stream is the preamble alone, with no fatal line or hint; the finished line ends the stream exactly when both completions returned, after the answer and the sources block; the API-key hint ends it exactly when a completion raised, after the fatal line |
| ResearchProps.StepFragments | agent/agent.py:118-213 | a search call yields its "Searching for" line and then its result text or failure notice; rejected arguments yield one error line; any other tool yields nothing |
| ResearchProps.NoSearchCallsNoResults | agent/agent.py:118 | a reply naming no `brave_search` call (for instance only `Brave_search`) gives no result, no citation and no per-call fragment |
| ResearchProps.TimeoutStillAnswers | agent/agent.py:187-192 | a timed-out search at any call of any completed run yields "Searching for" and " Search timed out", records "Search timed out" as its tool message at its place in the log, cites nothing, and the answer, the sources block and the finished line still follow |
| ChainlitSources.OnMessage | chainlit_app.py:145-179 | the chunk and line loops give the concatenation of all chunks as the full answer, and the sources of the scanner state machine |
| ChainlitSources.ScanLinesGrow | chainlit_app.py:168-179 | scanning lines never changes the mode and only appends to the sources |
| ChainlitSources.NoSourceBeforeMarker | chainlit_app.py:163-166 | before the first marker chunk nothing changes at all, so no source is recorded |
| ChainlitSources.ModeOnceOn | chainlit_app.py:163-164 | sources mode is on after a stream exactly when it was on before or some chunk carried the marker: it never turns off |
| ChainlitSources.SourcesOnlyGrow | chainlit_app.py:175-179 | later chunks only add sources: the list after a prefix of the stream is a prefix of the final list |
| ChainlitSources.QuietChunks | chainlit_app.py:166-179 | marker-free chunks whose lines start with neither `[` nor `http` leave the scanner as it was, in either mode |
| ChainlitSources.TitleHeld | chainlit_app.py:170-171 | a `[`-line holding a `]` becomes the pending title, whatever was pending before |
| ChainlitSources.UrlTaken | chainlit_app.py:173-179 | an `http` line records the pending title with it and clears it, and is ignored when no title is pending |
| ChainlitSources.LatestTitleWins | chainlit_app.py:170-179 | of two title lines before a url line, only the later one is recorded |
| ChainlitSources.OneLineChunk | chainlit_app.py:166-168 | in sources mode a one-line chunk is scanned as that single line |
| ChainlitSources.TitleAcrossChunks | chainlit_app.py:166-179 | a pending title survives a chunk boundary: a title chunk followed by a url chunk records the pair |
| ChainlitSources.SourcesShaped | chainlit_app.py:170-179 | every recorded source has a non-empty `[`-title holding a `]` and an `http` url, whatever the stream |
| BackendResearch.GetUserAsWritten | backend/routers/research.py:16-23 | as written, `get_user` raises `UnboundLocalError` for `user` on every call |
| BackendResearch.EndpointAsWritten | backend/routers/research.py:35 | as written, the endpoint raises in `get_user` before its first `yield`: nothing of the stream and no `"\n\n[DONE]"` is sent, whatever the stream |
| BackendResearch.Endpoint | backend/routers/research.py:36-71 | with the user known (the evident intent of `get_user`), every chunk is re-yielded in order and then `"\n\n[DONE]"`; the saved answer is the stripped concatenation of the kept chunks; the sources are per-chunk extractions concatenated |
| BackendResearch.ParseChunk | backend/routers/research.py:49-56 | a chunk contributes sources only when it contains "sources:" in any case, and then its line pairs |
| BackendResearch.LinePairs | backend/routers/research.py:51-56 | the `range(1, len(lines), 2)` loop gives exactly the pairs from line 1 on, a last unpaired line skipped |
| BackendResearch.PairAt | backend/routers/research.py:52-56 | a pair gives at most one source, and only when its stripped second line starts with `http` |
| BackendResearch.AllSourcesAppend | backend/routers/research.py:49-56 | no state crosses chunks: the sources of a stream are those of its parts, concatenated |
| BackendResearch.AnswerAppend | backend/routers/research.py:42-47 | the unstripped answer of a stream is that of its parts, concatenated |
| BackendResearch.AnswerOne | backend/routers/research.py:42-47 | a chunk is in the answer exactly when its stripped form starts with neither `http` nor `[` |
| BackendResearch.NoMarkerNoSources | backend/routers/research.py:49 | chunks without "sources:" in any case give no source |
| BackendResearch.PairSourcesSkipsHead | backend/routers/research.py:51 | line 0 of a chunk is never read as a title or url |
| BackendResearch.PairSourcesShape | backend/routers/research.py:51-56 | every saved url starts with `http`, and at most one source comes from each two lines |
| RoundTrip.RenderedBlock | agent/agent.py:61-65 | the block of k ≥ 1 additions is the header then their `[i] title` and url lines, newline-joined |
| RoundTrip.BlockSplit | agent/agent.py:61-65 | the stripped block splits back into the header line and the `[i] title` / url lines |
| RoundTrip.BlockMarked | chainlit_app.py:163 | the block of k ≥ 1 additions carries the "Sources:" marker |
| RoundTrip.MarkerLower | chainlit_app.py:163 | both extractors' marker tests agree with "sources:" in the lowered chunk |
| RoundTrip.FinishedQuiet | agent/agent.py:251 | the finished line carries no marker and no line either scanner acts on |
| RoundTrip.ScanPair | chainlit_app.py:170-179 | a `[k] title` line then its url line record exactly the pair |
| RoundTrip.ScanEntryLines | chainlit_app.py:168-179 | with nothing pending, the entry lines record one source per citation, in order |
| RoundTrip.ChainlitBlock | chainlit_app.py:163-179 | the block turns sources mode on and records one source per citation, leaving nothing pending |
| RoundTrip.ChainlitSeenIs | agent/agent.py:61 | the i-th recorded source is the i-th citation's `[k + i] title` line and url |
| RoundTrip.ChainlitBlockSources | chainlit_app.py:163-179 | the block read from the start records the citations, the empty list included |
| RoundTrip.ChainlitBefore | chainlit_app.py:163-166 | chunks without the marker leave the start state alone |
| RoundTrip.ChainlitAfter | chainlit_app.py:166-179 | quiet chunks after the block change nothing |
| RoundTrip.ChainlitRoundTrip | chainlit_app.py:163-179 | marker-free chunks, the block, then quiet chunks: exactly one source `("[i] title_i", url_i)` per citation, in order |
| RoundTrip.BackendTitle | backend/routers/research.py:53 | `strip("[]1234567890.")` turns `[k] title` into `" title"`: the space stays |
| RoundTrip.BackendPair | backend/routers/research.py:52-56 | a `[k] title` line and its url line give exactly the source `(" title", url)` |
| RoundTrip.PairEntryLines | backend/routers/research.py:51-56 | the pairs over the entry lines give one source per citation, in order |
| RoundTrip.BackendBlock | backend/routers/research.py:49-56 | the block of k ≥ 1 citations gives k sources, the i-th `(" title_i", url_i)` |
| RoundTrip.BackendBlockSources | backend/routers/research.py:49-56 | the same as a one-chunk stream, the empty list included |
| RoundTrip.BackendQuiet | backend/routers/research.py:49 | chunks without "sources:" in any case contribute nothing |
| RoundTrip.BackendRoundTrip | backend/routers/research.py:49-56 | marker-free chunks around the block: exactly the sources `(" title_i", url_i)` in order |
| RoundTrip.ClosingFragments | agent/agent.py:249-251 | a completed run ends with the sources block of its citations and then the finished line |
| RoundTrip.ChainlitReadsResearch | chainlit_app.py:155-179 | over a completed research run whose earlier fragments never mention "sources:", Chainlit saves exactly the run's citations as `("[i] title_i", url_i)` in order |
| RoundTrip.BackendReadsResearch | backend/routers/research.py:39-56 | over the same run, the endpoint saves exactly `(" title_i", url_i)` in order |

## Left out

- The two chat completions, the HTTP requests and the system prompt text (`agent/agent.py:8-52`, `datetime.now()`) are inputs, not performed. The same goes for the Brave client call and the API keys. Model names and vendor parameters are not behaviour.
- The first completion's `message.content` reaches the model only through the assistant message of the log. Its value is passed through unchanged.
- Async generator mechanics, Chainlit's `stream_token`, and the `"🔍 "` thinking token: the thinking token is streamed to the UI but is not part of `full_answer`. Streams are modelled as sequences of chunks.
- Persistence (`save_research`, `save_to_db`, the database models and history routes) is left out. So is the query `get_user` evidently meant to run: only its as-written failure is modelled (see Findings). SSE framing, configuration and the Wikipedia and summarize wrappers are left out too.
- Exceptions raised in the middle of `on_message` (its error-message path) and the endpoint's `StreamingResponse`/`BackgroundTasks` plumbing are left out.
- JSON shapes other than the ones the code expects are left out: a `web` or `results` member that is `null` or not an object or list, and result items that are not string maps. A final answer whose content is `None` is left out too.
- `Text.Lower`: lowers ASCII letters only. For the test `"sources:" in chunk.lower()` this decides the same as Python's full Unicode lowering. No character outside ASCII lowers to one of `s o u r c e :`, and `İ` lowers to two characters, neither of which is ASCII uppercase.
- Three facts about the Brave tool are beyond what a model of its rendering can check:
  - its request host is misspelt `brave.come` (`agent/brave/search.py:17`);
  - it reads the `snippet` field, while the loop reads the provider's `description` field;
  - its f-string nests double quotes, which needs Python 3.12.

  None of this reaches the research loop, which never dispatches the registered `Brave_search` tool.
- `BackendResearch.Endpoint`: models the endpoint from line 36 on, as if `get_user` returned a user. As written the endpoint never gets there (`BackendResearch.EndpointAsWritten`, see Findings).
- `RoundTrip.BackendReadsResearch`: is about the corrected `BackendResearch.Endpoint` for the same reason. The endpoint as written saves no source at all.
- `Registry.ToolRegistry`: one Dafny object stands for the Python class, whose `_tools` dict is a class attribute. Separate instances of the Python class all share that one dict, so they are not modelled as separate objects.
- `RoundTrip.ChainlitRoundTrip`: requires the chunks after the block to be quiet (no marker and no `[`- or `http` line), because the scanner stays in sources mode and would read them. The research stream's finished line is quiet (`RoundTrip.FinishedQuiet`). The answer fragment is before the block and needs only to be marker-free. It also requires (`Cited`, `ChainlitTitles`) titles that are non-empty and do not end in whitespace, and titles and urls with no newline. The urls must start with `http` and not end in whitespace (`Link`). Otherwise `strip()` or `split("\n")` changes what the scanner reads.
- `RoundTrip.ChainlitReadsResearch`: requires that no fragment before the sources block mentions "sources:", in any case. The answer and the search notices are model and provider text, so the property holds only for streams that satisfy this. It requires the same of the cited titles and urls as `RoundTrip.ChainlitRoundTrip`, and a client that was built.
- `RoundTrip.BackendReadsResearch`: the same requirement about earlier fragments, and a client that was built. It also requires (`BackendTitles`, `Cited`) titles whose last character is not in `[]0-9.` (otherwise `strip` eats into them) and that hold no newline. The urls must start with `http`, hold no newline and not end in whitespace (`Link`).
- `RoundTrip.BackendRoundTrip`: requires the same of the titles and urls (`Cited`, `BackendTitles`). The chunks before and after the block must not mention "sources:".
- `UtilCitations.CitationManager.Add`: models the evident intent of `add`, not the `UnboundLocalError` it raises as written (see Findings).

## Findings

| source | as written | input that shows it | evidently intended | confidence | as-written member | corrected member |
|---|---|---|---|---|---|---|
| agent/utils/citation.py:10 | `citation=citation(...)` makes `citation` local to `add`, so the call on the right reads an unbound local | any call, e.g. `add("T", "http://x")` on a fresh manager | build the record with the current number, append it, advance the counter, return the number | high, from Python's scoping rules; not executed | UtilCitations.AddAsWritten | UtilCitations.CitationManager.Add |
| backend/routers/research.py:19 | `if not user:` reads `user`, which line 20 assigns, so `user` is local to `get_user` and the test raises; `research_endpoint` calls it at line 35, before its first `yield` | any request, e.g. the question "q" over any research stream | look up or create the user, then stream every chunk, then `"\n\n[DONE]"`, and save the answer and sources | high, from Python's scoping rules; not executed | BackendResearch.EndpointAsWritten | BackendResearch.Endpoint |
