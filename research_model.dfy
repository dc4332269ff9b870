/**
 * `run_research` of agent/agent.py as a function of its inputs. The client
 * constructor, the two model completions and the search requests are not
 * performed: their outcomes are data (an `Environment`). The result is what
 * the generator yields, the message log handed to the second completion, the
 * tracker's list and the exception that escapes the generator, if any.
 */
module ResearchModel {
  import opened Wrappers
  import opened Text
  import opened Types
  import AgentCitations

  /** The only tool name the loop dispatches on. */
  const SearchToolName: string := "brave_search"

  // Fixed fragments of the stream.
  const Waking: string := "KNOWDEX is waking up...\n\n"
  const Thinking: string := "Thinking...\n\n"
  const SearchingWeb: string := "Searching the web...\n\n"
  const Generating: string := "\n\nGenerating answer...\n\n"
  const Finished: string := "\n\n KNOWDEX has finished\n"
  const CheckKeys: string := "Please check your API keys and try again.\n"

  function QuestionLine(question: string): string {
    "Question: " + question + "\n\n"
  }

  function FatalLine(error: string): string {
    "\n\n Fatal Error: " + error + "\n"
  }

  function SearchingFor(query: string): string {
    "Searching for: " + query + "\n"
  }

  /** `AsyncOpenAI(api_key=...)`, built before the `try`: it is built, or it raises `str(e)` (no key set). */
  datatype ClientOutcome = ClientBuilt | ClientRaised(error: string)

  /** The first completion: it raised `str(e)`, or it replied with content and tool calls. */
  datatype FirstReply = FirstRaised(error: string) | FirstReplied(content: Option<string>, toolCalls: seq<ToolCall>)

  /** The second, tool-less completion. */
  datatype FinalReply = FinalRaised(error: string) | FinalAnswered(answer: string)

  /** The search request of one tool call. */
  datatype HttpOutcome =
    | Responded(status: nat, text: string, body: SearchBody)  // `r.status_code`, `r.text`, `r.json()`
    | TimedOut                                                // `httpx.TimeoutException`
    | TransportFailed(error: string)                          // any other `httpx.HTTPError`
    | Crashed(error: string)                                  // any other exception in the request block

  /** One tool call's argument decoding and search. */
  datatype SearchOutcome =
    | ArgumentsRejected(error: string)                   // `json.loads(arguments)` raised
    | Searched(query: Option<string>, http: HttpOutcome)  // `args.get("query", "")`, then the request

  /** Everything the loop receives from outside. */
  datatype Environment = Environment(
    systemPrompt: string,
    client: ClientOutcome,
    first: FirstReply,
    searches: seq<SearchOutcome>,  // the outcome of the i-th tool call of the first reply
    final: FinalReply)

  /** The message log. */
  datatype LogMessage =
    | SystemMessage(content: string)
    | UserMessage(content: string)
    | AssistantMessage(reply: Option<string>, toolCalls: seq<ToolCall>)
    | ToolMessage(toolCallId: string, content: string)

  /** An entry of `tool_results`. */
  datatype ToolResult = ToolResult(toolCallId: string, output: string)

  /** The ways a search call fails. */
  datatype SearchFailure =
    | BadStatus(code: nat)
    | EmptyBody
    | NoResults
    | Timeout
    | InvalidJson
    | Network(error: string)
    | Crash(error: string)

  /**
   * What the generator produced: what it yielded, the message log, the
   * tracker's list, and the exception that escaped it, if one did.
   */
  datatype Run = Run(fragments: seq<string>, messages: seq<LogMessage>, citations: seq<string>, raised: Option<string>)

  /** The per-call part of a run: fragments yielded, tool results, and (title, url) pairs cited. */
  datatype CallStep = CallStep(fragments: seq<string>, results: seq<ToolResult>, found: seq<(string, string)>)

  /** The branch of the search block an outcome takes, with the result list on success. */
  function Classify(outcome: SearchOutcome): Result<seq<SearchItem>, SearchFailure> {
    match outcome
    case ArgumentsRejected(e) => Failure(Crash(e))
    case Searched(_, http) =>
      match http
      case TimedOut => Failure(Timeout)
      case TransportFailed(e) => Failure(Network(e))
      case Crashed(e) => Failure(Crash(e))
      case Responded(status, text, body) =>
        if status != 200 then Failure(BadStatus(status))
        else if text == "" || Strip(text) == "" then Failure(EmptyBody)
        else match body
          case NotJson => Failure(InvalidJson)
          case JsonObject(web) =>
            var items := WebResults(web);
            if items == [] then Failure(NoResults) else Success(items)
  }

  /** The tool message content that reports a failure. */
  function FailureOutput(f: SearchFailure): string {
    match f
    case BadStatus(code) => "Search failed with status " + NatToString(code)
    case EmptyBody => "No results found"
    case NoResults => "No results found"
    case Timeout => "Search timed out"
    case InvalidJson => "Invalid API response"
    case Network(e) => "Network error: " + e
    case Crash(e) => "Error: " + e
  }

  /** The fragment streamed when a call fails. */
  function FailureNotice(f: SearchFailure): string {
    match f
    case BadStatus(code) => " Search API returned status " + NatToString(code) + "\n"
    case EmptyBody => " Search returned empty response\n"
    case NoResults => "No results found.\n"
    case Timeout => " Search timed out\n"
    case InvalidJson => " Invalid response from search API\n"
    case Network(e) => " Network error: " + e + "\n"
    case Crash(e) => "Error processing search: " + e + "\n"
  }

  function ItemTitle(item: SearchItem): string { Lookup(item, "title", "No title") }
  function ItemUrl(item: SearchItem): string { Lookup(item, "url", "") }
  function ItemSnippet(item: SearchItem): string { Lookup(item, "description", "") }

  /** `results[:3]`. */
  function Top3(items: seq<SearchItem>): (top: seq<SearchItem>)
    ensures |top| == if |items| < 3 then |items| else 3
    ensures top == items[..|top|]
  {
    if |items| < 3 then items else items[..3]
  }

  /** `f"{idx}. {title}\n{snippet}\n{url}\n\n"`. */
  function ResultEntry(idx: nat, item: SearchItem): string {
    NatToString(idx) + ". " + ItemTitle(item) + "\n" + ItemSnippet(item) + "\n" + ItemUrl(item) + "\n\n"
  }

  /** `result_text` for `items`, the first of them numbered `idx`. */
  function ResultText(items: seq<SearchItem>, idx: nat): string
    decreases |items|
  {
    if items == [] then "" else ResultEntry(idx, items[0]) + ResultText(items[1..], idx + 1)
  }

  /** The (title, url) pairs `citations.add` receives for `items`, in order. */
  function Found(items: seq<SearchItem>): (r: seq<(string, string)>)
    ensures |r| == |items|
    ensures forall i :: 0 <= i < |items| ==> r[i] == (ItemTitle(items[i]), ItemUrl(items[i]))
  {
    seq(|items|, i requires 0 <= i < |items| => (ItemTitle(items[i]), ItemUrl(items[i])))
  }

  /** The body of the `for tool_call in message.tool_calls` loop for one call. */
  function Step(call: ToolCall, outcome: SearchOutcome): CallStep {
    if call.name != SearchToolName then CallStep([], [], [])
    else
      var lead := if outcome.Searched? then [SearchingFor(outcome.query.GetOr(""))] else [];
      match Classify(outcome)
      case Success(items) =>
        var text := ResultText(Top3(items), 1);
        CallStep(lead + [text], [ToolResult(call.id, text)], Found(Top3(items)))
      case Failure(f) =>
        CallStep(lead + [FailureNotice(f)], [ToolResult(call.id, FailureOutput(f))], [])
  }

  /** The step of each call, paired with its outcome by position. */
  function CallSteps(calls: seq<ToolCall>, outcomes: seq<SearchOutcome>): (r: seq<CallStep>)
    requires |calls| == |outcomes|
    ensures |r| == |calls|
    ensures forall i :: 0 <= i < |calls| ==> r[i] == Step(calls[i], outcomes[i])
  {
    seq(|calls|, i requires 0 <= i < |calls| => Step(calls[i], outcomes[i]))
  }

  /** Two steps one after the other. */
  function Glue(x: CallStep, y: CallStep): CallStep {
    CallStep(x.fragments + y.fragments, x.results + y.results, x.found + y.found)
  }

  /** A list of steps one after the other. */
  function Gather(parts: seq<CallStep>): CallStep
    decreases |parts|
  {
    if parts == [] then CallStep([], [], []) else Glue(parts[0], Gather(parts[1..]))
  }

  /** The whole tool round: the steps of all calls, in call order. */
  function Steps(calls: seq<ToolCall>, outcomes: seq<SearchOutcome>): CallStep
    requires |calls| == |outcomes|
  {
    Gather(CallSteps(calls, outcomes))
  }

  /** One `{"role": "tool", ...}` message per tool result, in result order. */
  function ToolMessages(results: seq<ToolResult>): (r: seq<LogMessage>)
    ensures |r| == |results|
    ensures forall i :: 0 <= i < |results| ==>
      r[i] == ToolMessage(results[i].toolCallId, results[i].output)
  {
    seq(|results|, i requires 0 <= i < |results| => ToolMessage(results[i].toolCallId, results[i].output))
  }

  predicate WellFormed(env: Environment) {
    env.first.FirstReplied? ==> |env.searches| == |env.first.toolCalls|
  }

  /** The whole generator. */
  function Research(question: string, env: Environment): Run
    requires WellFormed(env)
  {
    var preamble := [Waking, QuestionLine(question), Thinking];
    var seed := [SystemMessage(env.systemPrompt), UserMessage(question)];
    if env.client.ClientRaised? then Run(preamble, [], [], Some(env.client.error))
    else match env.first
    case FirstRaised(e) => Run(preamble + [FatalLine(e), CheckKeys], seed, [], None)
    case FirstReplied(content, calls) =>
      var steps := Steps(calls, env.searches);
      var searching := if calls == [] then [] else [SearchingWeb] + steps.fragments;
      var log := if calls == [] then seed
                 else seed + [AssistantMessage(content, calls)] + ToolMessages(steps.results);
      var cites := AgentCitations.Entries(steps.found);
      var upToAnswer := preamble + searching + [Generating];
      match env.final
      case FinalRaised(e) => Run(upToAnswer + [FatalLine(e), CheckKeys], log, cites, None)
      case FinalAnswered(answer) =>
        Run(upToAnswer + [answer, AgentCitations.Render(cites), Finished], log, cites, None)
  }
}
