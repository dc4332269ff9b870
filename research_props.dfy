/**
 * What `run_research` promises, proved about ResearchModel.Research: one tool
 * result per `brave_search` call and none for other names, the fixed failure
 * messages, citation numbers that run on across calls, the shape of the
 * message log and the order of the streamed fragments.
 */
module ResearchProps {
  import opened Wrappers
  import opened Text
  import opened Types
  import opened ResearchModel
  import AgentCitations

  /** The calls the loop dispatches, each with its outcome, in call order. */
  function SearchPairs(calls: seq<ToolCall>, outcomes: seq<SearchOutcome>): (r: seq<(ToolCall, SearchOutcome)>)
    requires |calls| == |outcomes|
    ensures |r| <= |calls|
    ensures forall k :: 0 <= k < |r| ==> r[k].0.name == SearchToolName && r[k].0 in calls
    decreases |calls|
  {
    if calls == [] then []
    else
      var rest := SearchPairs(calls[1..], outcomes[1..]);
      assert forall k :: 0 <= k < |rest| ==> rest[k].0 in calls by {
        forall k | 0 <= k < |rest| ensures rest[k].0 in calls {
          var j :| 0 <= j < |calls[1..]| && calls[1..][j] == rest[k].0;
          assert calls[j + 1] == rest[k].0;
        }
      }
      if calls[0].name == SearchToolName then [(calls[0], outcomes[0])] + rest else rest
  }

  /** The `content` of the tool message a search call produces. */
  function ToolOutput(outcome: SearchOutcome): string {
    match Classify(outcome)
    case Success(items) => ResultText(Top3(items), 1)
    case Failure(f) => FailureOutput(f)
  }

  /** Whether a call's search ended in the result text. */
  predicate Succeeded(outcome: SearchOutcome) {
    Classify(outcome).Success?
  }

  // ------------------------------------------------------------ tool results

  /** A single call: one result carrying its id when it is named `brave_search`, none otherwise. */
  lemma StepResult(call: ToolCall, outcome: SearchOutcome)
    ensures call.name == SearchToolName ==> Step(call, outcome).results == [ToolResult(call.id, ToolOutput(outcome))]
    ensures call.name != SearchToolName ==> Step(call, outcome) == CallStep([], [], [])
  {
  }

  /**
   * The tool results of a round are exactly one per `brave_search` call, in
   * call order, each carrying the call's id and the output of its search.
   */
  lemma {:induction false} ToolResultsOfSearchCalls(calls: seq<ToolCall>, outcomes: seq<SearchOutcome>)
    requires |calls| == |outcomes|
    ensures var results, pairs := Steps(calls, outcomes).results, SearchPairs(calls, outcomes);
      && |results| == |pairs|
      && forall k :: 0 <= k < |pairs| ==> results[k] == ToolResult(pairs[k].0.id, ToolOutput(pairs[k].1))
    decreases |calls|
  {
    if calls != [] {
      StepsCons(calls, outcomes);
      ToolResultsOfSearchCalls(calls[1..], outcomes[1..]);
      StepResult(calls[0], outcomes[0]);
    }
  }

  /** Every success output starts with `1. `: the numbering restarts at 1 in each call. */
  lemma SuccessOutputNumbered(items: seq<SearchItem>)
    requires items != []
    ensures StartsWith(ResultText(Top3(items), 1), "1. ")
  {
    var top := Top3(items);
    var text := ResultText(top, 1);
    assert text == ResultEntry(1, top[0]) + ResultText(top[1..], 2);
    assert NatToString(1) == "1";
    assert text[..3] == "1. ";
  }

  /** No failure output starts with `1`, so a tool message tells a success from a failure. */
  lemma FailureOutputUnnumbered(f: SearchFailure)
    ensures !StartsWith(FailureOutput(f), "1")
  {
    assert FailureOutput(f)[0] in "SNIE";
  }

  /** The failure messages tell all failures apart except an empty body from an empty result list. */
  lemma FailureOutputInjective(f: SearchFailure, g: SearchFailure)
    requires f != g && !(f in {EmptyBody, NoResults} && g in {EmptyBody, NoResults})
    ensures FailureOutput(f) != FailureOutput(g)
  {
    var s, t := FailureOutput(f), FailureOutput(g);
    match f
    case BadStatus(c) =>
      if g.BadStatus? {
        assert s[26..] == NatToString(c);
        assert t[26..] == NatToString(g.code);
        if s == t {
          AgentCitations.NatToStringInjective(c, g.code);
        }
      } else if g.Timeout? {
        assert s[7] != t[7];
      } else {
        assert (s[0], s[1]) != (t[0], t[1]);
      }
    case Network(e) =>
      if g.Network? {
        assert s[15..] == e;
        assert t[15..] == g.error;
      } else {
        assert (s[0], s[1]) != (t[0], t[1]);
      }
    case Crash(e) =>
      if g.Crash? {
        assert s[7..] == e;
        assert t[7..] == g.error;
      } else {
        assert (s[0], s[1]) != (t[0], t[1]);
      }
    case Timeout =>
      if g.BadStatus? {
        assert s[7] != t[7];
      } else {
        assert (s[0], s[1]) != (t[0], t[1]);
      }
    case _ =>
      assert (s[0], s[1]) != (t[0], t[1]);
  }

  /** A response succeeds exactly when it is a 200 with a non-blank JSON body listing some results. */
  lemma ClassifyResponded(query: Option<string>, status: nat, text: string, body: SearchBody)
    ensures Succeeded(Searched(query, Responded(status, text, body))) <==>
      status == 200 && Strip(text) != "" && body.JsonObject? && WebResults(body.web) != []
    ensures Classify(Searched(query, Responded(status, text, body))) == Failure(BadStatus(status)) <==> status != 200
  {
    if text == "" {
      assert Strip(text) == "";
    }
  }

  /**
   * A 200 response with a non-blank JSON body reports "No results found"
   * exactly when `web` is absent, `results` is absent or the list is empty;
   * otherwise the provider's list is what the loop goes on with.
   */
  lemma ResultsListed(query: Option<string>, text: string, web: Option<WebSection>)
    requires Strip(text) != ""
    ensures Classify(Searched(query, Responded(200, text, JsonObject(web)))) == Failure(NoResults) <==>
      web.None? || web.value.results.None? || web.value.results.value == []
    ensures web.Some? && web.value.results.Some? && web.value.results.value != [] ==>
      Classify(Searched(query, Responded(200, text, JsonObject(web)))) == Success(web.value.results.value)
  {
    assert text != "";
  }

  // ---------------------------------------------------------------- citations

  /**
   * The i-th cited pair of a successful call: the result's `title`, or
   * "No title" when it has none, and its `url`, or "" when it has none.
   */
  lemma CitedDefaults(call: ToolCall, outcome: SearchOutcome, i: nat)
    requires call.name == SearchToolName && Succeeded(outcome)
    requires i < |Step(call, outcome).found|
    ensures var item := Classify(outcome).value[i];
      && Step(call, outcome).found[i].0 == (if "title" in item then item["title"] else "No title")
      && Step(call, outcome).found[i].1 == (if "url" in item then item["url"] else "")
  {
    StepCitations(call, outcome);
  }

  lemma GlueAssoc(x: CallStep, y: CallStep, z: CallStep)
    ensures Glue(Glue(x, y), z) == Glue(x, Glue(y, z))
  {
    AppendAssoc(x.fragments, y.fragments, z.fragments);
    AppendAssoc(x.results, y.results, z.results);
    AppendAssoc(x.found, y.found, z.found);
  }

  /** Gathering two lists of steps one after the other is gathering each and gluing. */
  lemma {:induction false} GatherAppend(p: seq<CallStep>, q: seq<CallStep>)
    ensures Gather(p + q) == Glue(Gather(p), Gather(q))
    decreases |p|
  {
    if p == [] {
      assert p + q == q;
      var y := Gather(q);
      assert y.fragments == [] + y.fragments && y.results == [] + y.results && y.found == [] + y.found;
    } else {
      assert (p + q)[1..] == p[1..] + q;
      GatherAppend(p[1..], q);
      GlueAssoc(p[0], Gather(p[1..]), Gather(q));
    }
  }

  /** The steps of a non-empty stretch of calls: its first call's, then the rest's. */
  lemma StepsCons(calls: seq<ToolCall>, outcomes: seq<SearchOutcome>)
    requires |calls| == |outcomes| && calls != []
    ensures Steps(calls, outcomes) == Glue(Step(calls[0], outcomes[0]), Steps(calls[1..], outcomes[1..]))
  {
    assert CallSteps(calls, outcomes)[1..] == CallSteps(calls[1..], outcomes[1..]);
  }

  /** The steps of two consecutive stretches of calls are the two stretches' steps, one after the other. */
  lemma StepsAppend(a: seq<ToolCall>, oa: seq<SearchOutcome>, b: seq<ToolCall>, ob: seq<SearchOutcome>)
    requires |a| == |oa| && |b| == |ob|
    ensures Steps(a + b, oa + ob) == Glue(Steps(a, oa), Steps(b, ob))
  {
    assert CallSteps(a + b, oa + ob) == CallSteps(a, oa) + CallSteps(b, ob);
    GatherAppend(CallSteps(a, oa), CallSteps(b, ob));
  }

  /**
   * Citation numbers run on across calls: the j-th source cited by call k is
   * numbered one past everything the earlier calls cited, plus j.
   */
  lemma CitationNumbering(calls: seq<ToolCall>, outcomes: seq<SearchOutcome>, k: nat, j: nat)
    requires |calls| == |outcomes| && k < |calls|
    requires j < |Step(calls[k], outcomes[k]).found|
    ensures var earlier, pair := |Steps(calls[..k], outcomes[..k]).found|, Step(calls[k], outcomes[k]).found[j];
      var cited := AgentCitations.Entries(Steps(calls, outcomes).found);
      earlier + j < |cited| && cited[earlier + j] == AgentCitations.Entry(earlier + j + 1, pair.0, pair.1)
  {
    FoundAround(calls, outcomes, k);
    AgentCitations.EntriesAfter(Steps(calls[..k], outcomes[..k]).found, Step(calls[k], outcomes[k]).found,
      Steps(calls[k + 1..], outcomes[k + 1..]).found, j);
  }

  /** The steps of the calls before `k`, of call `k` and of the calls after it, in that order. */
  lemma StepsAround(calls: seq<ToolCall>, outcomes: seq<SearchOutcome>, k: nat)
    requires |calls| == |outcomes| && k < |calls|
    ensures Steps(calls, outcomes) == Glue(Steps(calls[..k], outcomes[..k]),
      Glue(Step(calls[k], outcomes[k]), Steps(calls[k + 1..], outcomes[k + 1..])))
  {
    var a, oa, b, ob := calls[..k], outcomes[..k], calls[k..], outcomes[k..];
    assert a + b == calls;
    assert oa + ob == outcomes;
    StepsAppend(a, oa, b, ob);
    StepsCons(b, ob);
    assert b[1..] == calls[k + 1..];
    assert ob[1..] == outcomes[k + 1..];
  }

  /** What the calls before `k`, call `k` and the calls after it cite, in that order. */
  lemma FoundAround(calls: seq<ToolCall>, outcomes: seq<SearchOutcome>, k: nat)
    requires |calls| == |outcomes| && k < |calls|
    ensures Steps(calls, outcomes).found == Steps(calls[..k], outcomes[..k]).found
      + (Step(calls[k], outcomes[k]).found + Steps(calls[k + 1..], outcomes[k + 1..]).found)
  {
    StepsAround(calls, outcomes, k);
  }

  /** A call cites only on success, and then the first three results, in order. */
  lemma StepCitations(call: ToolCall, outcome: SearchOutcome)
    ensures |Step(call, outcome).found| <= 3
    ensures Step(call, outcome).found != [] ==> call.name == SearchToolName && Succeeded(outcome)
    ensures call.name == SearchToolName && Succeeded(outcome) ==>
      var items := Classify(outcome).value;
      && |Step(call, outcome).found| == (if |items| < 3 then |items| else 3)
      && forall i :: 0 <= i < |Step(call, outcome).found| ==>
           Step(call, outcome).found[i] == (ItemTitle(items[i]), ItemUrl(items[i]))
  {
  }

  // ------------------------------------------------------------ message log

  /**
   * The log is empty when the client could not be built (the generator stops
   * before line 77). Otherwise it is [system, user] when the first reply asks
   * for no tools, and [system, user, the assistant message listing every call,
   * then one tool message per `brave_search` call], each naming one of the
   * listed calls.
   */
  lemma MessageLog(question: string, env: Environment)
    requires WellFormed(env)
    ensures env.client.ClientRaised? ==> Research(question, env).messages == []
    ensures env.client.ClientBuilt? ==>
      var log := Research(question, env).messages;
      && |log| >= 2
      && log[..2] == [SystemMessage(env.systemPrompt), UserMessage(question)]
      && (env.first.FirstRaised? || env.first.toolCalls == [] ==> |log| == 2)
      && (env.first.FirstReplied? && env.first.toolCalls != [] ==>
            var calls := env.first.toolCalls;
            var pairs := SearchPairs(calls, env.searches);
            && |log| == 3 + |pairs|
            && log[2] == AssistantMessage(env.first.content, calls)
            && forall k :: 0 <= k < |pairs| ==>
                 && log[3 + k] == ToolMessage(pairs[k].0.id, ToolOutput(pairs[k].1))
                 && pairs[k].0 in calls)
  {
    if env.client.ClientBuilt? && env.first.FirstReplied? && env.first.toolCalls != [] {
      ToolResultsOfSearchCalls(env.first.toolCalls, env.searches);
    }
  }

  // -------------------------------------------------------------- fragments

  /**
   * The stream opens with the three preamble fragments. They are all of it
   * when the client could not be built; otherwise the search notice follows
   * only when the first reply asked for tools.
   */
  lemma FragmentOpening(question: string, env: Environment)
    requires WellFormed(env)
    ensures var f := Research(question, env).fragments;
      && |f| >= 3
      && f[..3] == [Waking, QuestionLine(question), Thinking]
      && (env.client.ClientRaised? ==> |f| == 3)
      && (env.client.ClientBuilt? ==> |f| >= 5)
      && (env.client.ClientBuilt? && env.first.FirstReplied? ==>
            f[3] == if env.first.toolCalls == [] then Generating else SearchingWeb)
  {
    var preamble := [Waking, QuestionLine(question), Thinking];
    if env.client.ClientBuilt? {
      match env.first
      case FirstRaised(e) =>
      case FirstReplied(content, calls) =>
        var searching := if calls == [] then [] else [SearchingWeb] + Steps(calls, env.searches).fragments;
        var upToAnswer := preamble + searching + [Generating];
        assert upToAnswer[..3] == preamble;
        assert upToAnswer[3] == if calls == [] then Generating else SearchingWeb;
    }
  }

  /**
   * How the stream ends. When the client cannot be built, the exception
   * escapes right after the preamble, with no fatal line and no hint; nothing
   * escapes otherwise. The finished sentinel ends the stream exactly when both
   * completions returned, right after the answer and the sources block; the
   * API-key hint ends it exactly when one of the completions raised, after
   * the fatal line.
   */
  lemma FragmentEnding(question: string, env: Environment)
    requires WellFormed(env)
    ensures var run := Research(question, env);
      var f := run.fragments;
      && |f| >= 3
      && (run.raised.Some? <==> env.client.ClientRaised?)
      && (env.client.ClientRaised? ==>
            f == [Waking, QuestionLine(question), Thinking] && run.raised == Some(env.client.error))
      && (f[|f| - 1] == Finished <==> env.client.ClientBuilt? && env.first.FirstReplied? && env.final.FinalAnswered?)
      && (f[|f| - 1] == CheckKeys <==>
            env.client.ClientBuilt? && (env.first.FirstRaised? || env.final.FinalRaised?))
      && (env.client.ClientBuilt? && env.first.FirstRaised? ==>
            f == [Waking, QuestionLine(question), Thinking, FatalLine(env.first.error), CheckKeys])
      && (env.client.ClientBuilt? && env.first.FirstReplied? && env.final.FinalRaised? ==>
            |f| >= 6 && f[|f| - 3..] == [Generating, FatalLine(env.final.error), CheckKeys])
      && (env.client.ClientBuilt? && env.first.FirstReplied? && env.final.FinalAnswered? ==>
            |f| >= 7 &&
            f[|f| - 4..] == [Generating, env.final.answer, AgentCitations.Render(run.citations), Finished])
  {
    var f := Research(question, env).fragments;
    assert Finished != CheckKeys && Thinking != Finished && Thinking != CheckKeys;
    if env.client.ClientBuilt? {
      match env.first
      case FirstRaised(e) =>
      case FirstReplied(content, calls) =>
        var searching := if calls == [] then [] else [SearchingWeb] + Steps(calls, env.searches).fragments;
        var upToAnswer := [Waking, QuestionLine(question), Thinking] + searching + [Generating];
        match env.final
        case FinalRaised(e) =>
          assert f == upToAnswer + [FatalLine(e), CheckKeys];
        case FinalAnswered(answer) =>
          assert f == upToAnswer + [answer, AgentCitations.Render(Research(question, env).citations), Finished];
    }
  }

  /** The fragments of a single call: two for a search, one for rejected arguments, none for other tools. */
  lemma StepFragments(call: ToolCall, outcome: SearchOutcome)
    ensures call.name != SearchToolName ==> Step(call, outcome).fragments == []
    ensures call.name == SearchToolName && outcome.ArgumentsRejected? ==>
      Step(call, outcome).fragments == ["Error processing search: " + outcome.error + "\n"]
    ensures call.name == SearchToolName && outcome.Searched? ==>
      && |Step(call, outcome).fragments| == 2
      && Step(call, outcome).fragments[0] == SearchingFor(outcome.query.GetOr(""))
      && Step(call, outcome).fragments[1] ==
           if Succeeded(outcome) then ToolOutput(outcome) else FailureNotice(Classify(outcome).error)
  {
  }

  /**
   * A first reply that names no `brave_search` call (for instance only the
   * registry's `Brave_search`) produces no tool message, no citation and no
   * per-call fragment.
   */
  lemma {:induction false} NoSearchCallsNoResults(calls: seq<ToolCall>, outcomes: seq<SearchOutcome>)
    requires |calls| == |outcomes|
    requires forall i :: 0 <= i < |calls| ==> calls[i].name != SearchToolName
    ensures Steps(calls, outcomes) == CallStep([], [], [])
    decreases |calls|
  {
    if calls != [] {
      StepsCons(calls, outcomes);
      NoSearchCallsNoResults(calls[1..], outcomes[1..]);
    }
  }

  /**
   * A timed-out search, at any call of any run, is reported only by its own
   * two fragments and its tool output; it cites nothing, its tool message
   * sits in the log at its place, and the answer, the sources block and the
   * finished line still follow.
   */
  lemma TimeoutStillAnswers(question: string, env: Environment, k: nat, q: Option<string>)
    requires WellFormed(env) && env.client.ClientBuilt? && env.first.FirstReplied? && env.final.FinalAnswered?
    requires k < |env.first.toolCalls| && env.first.toolCalls[k].name == SearchToolName
    requires env.searches[k] == Searched(q, TimedOut)
    ensures var calls, call := env.first.toolCalls, env.first.toolCalls[k];
      var step := Step(call, env.searches[k]);
      var before := Steps(calls[..k], env.searches[..k]);
      var run := Research(question, env);
      && step == CallStep([SearchingFor(q.GetOr("")), " Search timed out\n"], [ToolResult(call.id, "Search timed out")], [])
      && Steps(calls, env.searches) == Glue(before, Glue(step, Steps(calls[k + 1..], env.searches[k + 1..])))
      && 3 + |before.results| < |run.messages|
      && run.messages[3 + |before.results|] == ToolMessage(call.id, "Search timed out")
      && |run.fragments| >= 3
      && run.fragments[|run.fragments| - 3..] == [env.final.answer, AgentCitations.Render(run.citations), Finished]
      && run.raised == None
  {
    var calls := env.first.toolCalls;
    StepsAround(calls, env.searches, k);
    var steps := Steps(calls, env.searches);
    var before := Steps(calls[..k], env.searches[..k]);
    AppendAssoc(before.results, Step(calls[k], env.searches[k]).results,
      Steps(calls[k + 1..], env.searches[k + 1..]).results);
    assert steps.results[|before.results|] == ToolResult(calls[k].id, "Search timed out");
    FragmentEnding(question, env);
  }
}
