/**
 * `run_research` of agent/agent.py as the step-by-step procedure it is: a
 * live `CitationManager`, the `tool_results` and `messages` lists grown by
 * appending, and the yielded fragments collected in order. Each method is
 * proved to produce exactly what ResearchModel specifies.
 */
module ResearchLoop {
  import opened Wrappers
  import opened Text
  import opened Types
  import opened ResearchModel
  import AgentCitations

  /** The `for idx, item in enumerate(results[:3], 1)` loop: cite each item and render it. */
  method RenderTop(items: seq<SearchItem>, citations: AgentCitations.CitationManager) returns (resultText: string)
    requires citations.Valid()
    modifies citations
    ensures citations.Valid()
    ensures citations.added == old(citations.added) + Found(Top3(items))
    ensures resultText == ResultText(Top3(items), 1)
  {
    var top := items[..if |items| < 3 then |items| else 3];
    assert top == Top3(items);
    ghost var before := citations.added;
    resultText := "";
    var i := 0;
    while i < |top|
      invariant 0 <= i <= |top|
      invariant citations.Valid()
      invariant citations.added == before + Found(top[..i])
      invariant resultText + ResultText(top[i..], i + 1) == ResultText(top, 1)
    {
      var item := top[i];
      var title := Lookup(item, "title", "No title");
      var url := Lookup(item, "url", "");
      var snippet := Lookup(item, "description", "");
      citations.Add(title, url);
      var entry := NatToString(i + 1) + ". " + title + "\n" + snippet + "\n" + url + "\n\n";
      assert entry == ResultEntry(i + 1, item);
      ResultTextUnfold(top, i);
      AppendAssoc(resultText, entry, ResultText(top[i + 1..], i + 2));
      resultText := resultText + entry;
      FoundSnoc(top, i);
      AppendAssoc(before, Found(top[..i]), [(title, url)]);
      i := i + 1;
    }
    assert top[..i] == top;
  }

  lemma ResultTextUnfold(top: seq<SearchItem>, i: nat)
    requires i < |top|
    ensures ResultText(top[i..], i + 1) == ResultEntry(i + 1, top[i]) + ResultText(top[i + 1..], i + 2)
  {
    assert top[i..][1..] == top[i + 1..];
  }

  lemma FoundSnoc(top: seq<SearchItem>, i: nat)
    requires i < |top|
    ensures Found(top[..i + 1]) == Found(top[..i]) + [(ItemTitle(top[i]), ItemUrl(top[i]))]
  {
    assert top[..i + 1][..i] == top[..i];
  }

  /**
   * The `async with httpx.AsyncClient()` block of one search call: the
   * fragment it yields and the tool result it appends.
   */
  method Request(call: ToolCall, outcome: SearchOutcome, citations: AgentCitations.CitationManager)
    returns (notice: string, result: ToolResult)
    requires outcome.Searched? && citations.Valid()
    modifies citations
    ensures citations.Valid()
    ensures match Classify(outcome)
      case Success(items) =>
        && notice == ResultText(Top3(items), 1)
        && result == ToolResult(call.id, notice)
        && citations.added == old(citations.added) + Found(Top3(items))
      case Failure(f) =>
        && notice == FailureNotice(f)
        && result == ToolResult(call.id, FailureOutput(f))
        && citations.added == old(citations.added)
  {
    match outcome.http {
      case TimedOut =>
        notice := " Search timed out\n";
        result := ToolResult(call.id, "Search timed out");
      case TransportFailed(e) =>
        notice := " Network error: " + e + "\n";
        result := ToolResult(call.id, "Network error: " + e);
      case Crashed(e) =>
        notice := "Error processing search: " + e + "\n";
        result := ToolResult(call.id, "Error: " + e);
      case Responded(status, text, body) =>
        if status != 200 {
          notice := " Search API returned status " + NatToString(status) + "\n";
          result := ToolResult(call.id, "Search failed with status " + NatToString(status));
        } else if text == "" || Strip(text) == "" {
          notice := " Search returned empty response\n";
          result := ToolResult(call.id, "No results found");
        } else if body.NotJson? {
          notice := " Invalid response from search API\n";
          result := ToolResult(call.id, "Invalid API response");
        } else {
          var items := WebResults(body.web);
          if items == [] {
            notice := "No results found.\n";
            result := ToolResult(call.id, "No results found");
          } else {
            notice := RenderTop(items, citations);
            result := ToolResult(call.id, notice);
          }
        }
    }
  }

  /** One pass of the `for tool_call in message.tool_calls` loop. */
  method HandleCall(call: ToolCall, outcome: SearchOutcome, citations: AgentCitations.CitationManager)
    returns (fragments: seq<string>, results: seq<ToolResult>)
    requires citations.Valid()
    modifies citations
    ensures citations.Valid()
    ensures citations.added == old(citations.added) + Step(call, outcome).found
    ensures fragments == Step(call, outcome).fragments
    ensures results == Step(call, outcome).results
  {
    fragments, results := [], [];
    if call.name != SearchToolName {
      return;
    }
    match outcome {
      case ArgumentsRejected(e) =>
        fragments := ["Error processing search: " + e + "\n"];
        results := [ToolResult(call.id, "Error: " + e)];
      case Searched(query, _) =>
        fragments := [SearchingFor(query.GetOr(""))];
        var notice, result := Request(call, outcome, citations);
        fragments := fragments + [notice];
        results := [result];
    }
  }

  /** The `for tool_call in message.tool_calls` loop over the whole first reply. */
  method ToolRound(calls: seq<ToolCall>, outcomes: seq<SearchOutcome>, citations: AgentCitations.CitationManager)
    returns (fragments: seq<string>, toolResults: seq<ToolResult>)
    requires |calls| == |outcomes| && citations.Valid()
    modifies citations
    ensures citations.Valid()
    ensures citations.added == old(citations.added) + Steps(calls, outcomes).found
    ensures fragments == Steps(calls, outcomes).fragments
    ensures toolResults == Steps(calls, outcomes).results
  {
    ghost var parts := CallSteps(calls, outcomes);
    ghost var all := Gather(parts);
    ghost var before := citations.added;
    fragments, toolResults := [], [];
    ghost var cited: seq<(string, string)> := [];
    var i := 0;
    assert parts[i..] == parts;
    while i < |calls|
      invariant 0 <= i <= |calls|
      invariant citations.Valid()
      invariant fragments + Gather(parts[i..]).fragments == all.fragments
      invariant toolResults + Gather(parts[i..]).results == all.results
      invariant citations.added == before + cited
      invariant cited + Gather(parts[i..]).found == all.found
    {
      ghost var step := parts[i];
      ghost var rest := Gather(parts[i + 1..]);
      GatherUnfold(parts, i);
      var callFragments, callResults := HandleCall(calls[i], outcomes[i], citations);
      AppendAssoc(cited, step.found, rest.found);
      AppendAssoc(before, cited, step.found);
      cited := cited + step.found;
      AppendAssoc(fragments, callFragments, rest.fragments);
      AppendAssoc(toolResults, callResults, rest.results);
      fragments := fragments + callFragments;
      toolResults := toolResults + callResults;
      i := i + 1;
    }
    assert parts[i..] == [];
  }

  lemma GatherUnfold(parts: seq<CallStep>, i: nat)
    requires i < |parts|
    ensures Gather(parts[i..]) == Glue(parts[i], Gather(parts[i + 1..]))
  {
    assert parts[i..][1..] == parts[i + 1..];
  }

  /** The `for result in tool_results: messages.append(...)` loop. */
  method AppendToolMessages(messages: seq<LogMessage>, toolResults: seq<ToolResult>) returns (log: seq<LogMessage>)
    ensures log == messages + ToolMessages(toolResults)
  {
    log := messages;
    for j := 0 to |toolResults|
      invariant log == messages + ToolMessages(toolResults[..j])
    {
      assert ToolMessages(toolResults[..j + 1]) ==
        ToolMessages(toolResults[..j]) + [ToolMessage(toolResults[j].toolCallId, toolResults[j].output)];
      log := log + [ToolMessage(toolResults[j].toolCallId, toolResults[j].output)];
    }
    assert toolResults[..|toolResults|] == toolResults;
  }

  /** The generator, run to completion against the outcomes in `env`. */
  method RunResearch(question: string, env: Environment) returns (run: Run)
    requires WellFormed(env)
    ensures run == Research(question, env)
  {
    var citations := new AgentCitations.CitationManager();
    var fragments := [Waking, QuestionLine(question), Thinking];
    if env.client.ClientRaised? {
      return Run(fragments, [], citations.citations, Some(env.client.error));
    }
    var messages := [SystemMessage(env.systemPrompt), UserMessage(question)];
    if env.first.FirstRaised? {
      fragments := fragments + [FatalLine(env.first.error), CheckKeys];
      return Run(fragments, messages, citations.citations, None);
    }
    var calls := env.first.toolCalls;
    ghost var steps := Steps(calls, env.searches);
    if calls != [] {
      var roundFragments, toolResults := ToolRound(calls, env.searches, citations);
      AppendAssoc(fragments, [SearchingWeb], roundFragments);
      fragments := fragments + ([SearchingWeb] + roundFragments);
      messages := messages + [AssistantMessage(env.first.content, calls)];
      messages := AppendToolMessages(messages, toolResults);
    }
    assert citations.citations == AgentCitations.Entries(steps.found);
    fragments := fragments + [Generating];
    run := Finish(fragments, messages, env.final, citations);
  }

  /** From "Generating answer..." on: the answer and the sources, or the fatal error. */
  method Finish(fragments: seq<string>, messages: seq<LogMessage>, final: FinalReply,
                citations: AgentCitations.CitationManager) returns (run: Run)
    requires citations.Valid()
    ensures run.messages == messages && run.citations == citations.citations && run.raised == None
    ensures match final
      case FinalRaised(e) => run.fragments == fragments + [FatalLine(e), CheckKeys]
      case FinalAnswered(answer) =>
        run.fragments == fragments + [answer, AgentCitations.Render(citations.citations), Finished]
  {
    var out := fragments;
    match final {
      case FinalRaised(e) =>
        out := out + [FatalLine(e), CheckKeys];
      case FinalAnswered(answer) =>
        out := out + [answer];
        out := out + [citations.Format()];
        out := out + [Finished];
    }
    run := Run(out, messages, citations.citations, None);
  }
}
