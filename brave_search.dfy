/**
 * The result rendering of `BraveSearchTool.run` (agent/brave/search.py):
 * after the request, a non-2xx status raises, a body that is not JSON
 * raises, and otherwise the first ten web results become
 * `"{title}\n{url}\n{snippet}\n"` entries joined with newlines, or
 * "No results found" when there are none. The request itself is an input.
 */
module BraveSearch {
  import opened Wrappers
  import opened Text
  import opened Types

  /** `count=10`, and the `[:10]` slice. */
  const MaxResults: nat := 10

  const NoResultsText: string := "No results found"

  /** What escapes `run` instead of a string. */
  datatype RunError =
    | HttpStatusError(status: nat)  // `response.raise_for_status()`
    | JsonDecodeError               // `response.json()`
    | KeyError(key: string)         // `item["title"]`, `item["url"]`

  /** `item.get("snippet")` in an f-string: the text `None` when absent. */
  function SnippetText(item: SearchItem): string {
    if "snippet" in item then item["snippet"] else "None"
  }

  /** One entry, or the `KeyError` of the first missing key, title before url. */
  function RenderItem(item: SearchItem): Result<string, RunError> {
    if "title" !in item then Failure(KeyError("title"))
    else if "url" !in item then Failure(KeyError("url"))
    else Success(item["title"] + "\n" + item["url"] + "\n" + SnippetText(item) + "\n")
  }

  /** `done` followed by what `rest` renders, unless `rest` failed. */
  function Then(done: seq<string>, rest: Result<seq<string>, RunError>): Result<seq<string>, RunError> {
    match rest
    case Failure(e) => Failure(e)
    case Success(entries) => Success(done + entries)
  }

  /** The entries of `items` in order, or the error of the first item that has none. */
  function RenderItems(items: seq<SearchItem>): (r: Result<seq<string>, RunError>)
    ensures r.Success? ==> |r.value| == |items|
    decreases |items|
  {
    if items == [] then Success([])
    else
      match RenderItem(items[0])
      case Failure(e) => Failure(e)
      case Success(entry) => Then([entry], RenderItems(items[1..]))
  }

  /** The results the loop visits: provider order, at most ten. */
  function Visited(items: seq<SearchItem>): (r: seq<SearchItem>)
    ensures |r| == if |items| < MaxResults then |items| else MaxResults
    ensures r == items[..|r|]
  {
    items[..if |items| < MaxResults then |items| else MaxResults]
  }

  /** What `run` returns or raises for a response with this status and body. */
  function Output(status: nat, body: SearchBody): Result<string, RunError> {
    if !(200 <= status < 300) then Failure(HttpStatusError(status))
    else match body
      case NotJson => Failure(JsonDecodeError)
      case JsonObject(web) =>
        match RenderItems(Visited(WebResults(web)))
        case Failure(e) => Failure(e)
        case Success(entries) =>
          var text := Join("\n", entries);
          Success(if text == "" then NoResultsText else text)
  }

  /** The loop of `run` after the request. */
  method Run(status: nat, body: SearchBody) returns (r: Result<string, RunError>)
    ensures r == Output(status, body)
  {
    if !(200 <= status < 300) {
      return Failure(HttpStatusError(status));
    }
    if body.NotJson? {
      return Failure(JsonDecodeError);
    }
    var top := Visited(WebResults(body.web));
    var results: seq<string> := [];
    var i := 0;
    assert top[i..] == top;
    ThenEmpty(RenderItems(top));
    while i < |top|
      invariant 0 <= i <= |top|
      invariant RenderItems(top) == Then(results, RenderItems(top[i..]))
    {
      var item := top[i];
      assert top[i..][1..] == top[i + 1..];
      if "title" !in item {
        return Failure(KeyError("title"));
      }
      if "url" !in item {
        return Failure(KeyError("url"));
      }
      var snippet := if "snippet" in item then item["snippet"] else "None";
      var entry := item["title"] + "\n" + item["url"] + "\n" + snippet + "\n";
      ThenThen(results, entry, RenderItems(top[i + 1..]));
      results := results + [entry];
      i := i + 1;
    }
    assert top[i..] == [];
    assert results + [] == results;
    var text := Join("\n", results);
    r := Success(if text == "" then NoResultsText else text);
  }

  lemma ThenEmpty(rest: Result<seq<string>, RunError>)
    ensures Then([], rest) == rest
  {
    if rest.Success? {
      assert [] + rest.value == rest.value;
    }
  }

  lemma ThenThen(done: seq<string>, entry: string, rest: Result<seq<string>, RunError>)
    ensures Then(done, Then([entry], rest)) == Then(done + [entry], rest)
  {
    if rest.Success? {
      assert done + ([entry] + rest.value) == (done + [entry]) + rest.value;
    }
  }

  // ---------------------------------------------------------------- lemmas

  /** The four lines an entry consists of once split at newlines. */
  function EntryLines(item: SearchItem): seq<string>
    requires "title" in item && "url" in item
  {
    [item["title"], item["url"], SnippetText(item), ""]
  }

  /** An entry is its four lines joined with newlines. */
  lemma EntryJoin(item: SearchItem)
    requires "title" in item && "url" in item
    ensures RenderItem(item) == Success(Join("\n", EntryLines(item)))
  {
    var lines := EntryLines(item);
    assert lines[1..] == [item["url"], SnippetText(item), ""];
    assert lines[1..][1..] == [SnippetText(item), ""];
    assert lines[1..][1..][1..] == [""];
    var t, u, n := item["title"], item["url"], SnippetText(item);
    assert Join("\n", lines[1..][1..]) == n + "\n" + "";
    assert Join("\n", lines[1..]) == u + "\n" + (n + "\n" + "");
    assert Join("\n", lines) == t + "\n" + (u + "\n" + (n + "\n" + ""));
    assert t + "\n" + (u + "\n" + (n + "\n" + "")) == t + "\n" + u + "\n" + n + "\n";
  }

  /** An item renders when it has a title and a url. */
  predicate Complete(items: seq<SearchItem>) {
    forall i :: 0 <= i < |items| ==> "title" in items[i] && "url" in items[i]
  }

  /** The lines of all entries of `items`, in order. */
  function AllLines(items: seq<SearchItem>): seq<string>
    requires Complete(items)
    decreases |items|
  {
    if items == [] then [] else EntryLines(items[0]) + AllLines(items[1..])
  }

  /** Rendering fails exactly when a visited item lacks a title or a url. */
  lemma {:induction false} RenderItemsSucceeds(items: seq<SearchItem>)
    ensures RenderItems(items).Success? <==> Complete(items)
    ensures RenderItems(items).Success? ==>
      forall i :: 0 <= i < |items| ==> RenderItems(items).value[i] == Join("\n", EntryLines(items[i]))
    decreases |items|
  {
    if items != [] {
      RenderItemsSucceeds(items[1..]);
      if Complete(items) {
        var item := items[0];
        EntryJoin(item);
        assert Complete(items[1..]) by {
          forall i | 0 <= i < |items[1..]| ensures "title" in items[1..][i] && "url" in items[1..][i] {
            assert items[1..][i] == items[i + 1];
          }
        }
        var rest := RenderItems(items[1..]).value;
        forall i | 0 <= i < |items| ensures RenderItems(items).value[i] == Join("\n", EntryLines(items[i])) {
          if i > 0 {
            assert RenderItems(items).value[i] == rest[i - 1];
            assert items[1..][i - 1] == items[i];
          }
        }
      } else {
        var k :| 0 <= k < |items| && !("title" in items[k] && "url" in items[k]);
        if k > 0 {
          assert items[1..][k - 1] == items[k];
        }
      }
    }
  }

  /** A status outside 2xx raises, whatever the body; a 2xx status never raises the status error. */
  lemma StatusRaises(status: nat, body: SearchBody)
    ensures Output(status, body) == Failure(HttpStatusError(status)) <==> !(200 <= status < 300)
    ensures 200 <= status < 300 ==> !(Output(status, body).Failure? && Output(status, body).error.HttpStatusError?)
  {
    if 200 <= status < 300 && body.JsonObject? {
      var top := Visited(WebResults(body.web));
      if RenderItems(top).Failure? {
        RenderItemsKeyError(top);
      }
    }
  }

  /** Rendering fails only with a missing key. */
  lemma {:induction false} RenderItemsKeyError(items: seq<SearchItem>)
    ensures RenderItems(items).Failure? ==> RenderItems(items).error.KeyError?
    decreases |items|
  {
    if items != [] && RenderItem(items[0]).Success? {
      RenderItemsKeyError(items[1..]);
    }
  }

  /** "No results found" comes back exactly when there is no result to visit. */
  lemma NoResultsExactly(status: nat, web: Option<WebSection>)
    requires 200 <= status < 300
    ensures Output(status, JsonObject(web)) == Success(NoResultsText) <==> WebResults(web) == []
  {
    var top := Visited(WebResults(web));
    RenderItemsSucceeds(top);
    if top != [] && Complete(top) {
      var entries := RenderItems(top).value;
      JoinEnds("\n", entries);
      var last := entries[|entries| - 1];
      EntryJoin(top[|top| - 1]);
      assert last == RenderItem(top[|top| - 1]).value;
      var text := Join("\n", entries);
      assert last[|last| - 1] == '\n';
      assert text[|text| - 1] == last[|last| - 1];
    }
  }

  /**
   * When no title, url or snippet holds a newline, the text splits back into
   * those fields, four lines per result (the last one empty), in provider
   * order, for at most the first ten results.
   */
  lemma RenderedLines(status: nat, web: Option<WebSection>)
    requires 200 <= status < 300
    requires var top := Visited(WebResults(web));
      && top != [] && Complete(top)
      && forall i :: 0 <= i < |top| ==> forall k :: 0 <= k < 4 ==> '\n' !in EntryLines(top[i])[k]
    ensures Output(status, JsonObject(web)).Success?
    ensures Split(Output(status, JsonObject(web)).value, '\n') == AllLines(Visited(WebResults(web)))
    ensures |AllLines(Visited(WebResults(web)))| == 4 * |Visited(WebResults(web))| <= 4 * MaxResults
  {
    var top := Visited(WebResults(web));
    RenderItemsSucceeds(top);
    var entries := RenderItems(top).value;
    var groups := seq(|top|, i requires 0 <= i < |top| => EntryLines(top[i]));
    assert entries == seq(|groups|, i requires 0 <= i < |groups| => Join("\n", groups[i]));
    JoinGroups("\n", groups);
    AllLinesFlatten(top);
    AllLinesNoNewline(top);
    SplitJoin(AllLines(top), '\n');
    JoinEnds("\n", entries);
  }

  /** AllLines is the flattening of the per-entry line groups. */
  lemma {:induction false} AllLinesFlatten(items: seq<SearchItem>)
    requires Complete(items)
    ensures AllLines(items) == Flatten(seq(|items|, i requires 0 <= i < |items| => EntryLines(items[i])))
    ensures |AllLines(items)| == 4 * |items|
    decreases |items|
  {
    if items != [] {
      AllLinesFlatten(items[1..]);
      var groups := seq(|items|, i requires 0 <= i < |items| => EntryLines(items[i]));
      assert groups[1..] == seq(|items[1..]|, i requires 0 <= i < |items[1..]| => EntryLines(items[1..][i]));
    }
  }

  lemma {:induction false} AllLinesNoNewline(items: seq<SearchItem>)
    requires Complete(items)
    requires forall i :: 0 <= i < |items| ==> forall k :: 0 <= k < 4 ==> '\n' !in EntryLines(items[i])[k]
    ensures forall k :: 0 <= k < |AllLines(items)| ==> '\n' !in AllLines(items)[k]
    decreases |items|
  {
    if items != [] {
      assert forall i :: 0 <= i < |items[1..]| ==> items[1..][i] == items[i + 1];
      AllLinesNoNewline(items[1..]);
      forall k | 0 <= k < |AllLines(items)| ensures '\n' !in AllLines(items)[k] {
        if k >= 4 {
          assert AllLines(items)[k] == AllLines(items[1..])[k - 4];
        } else {
          assert AllLines(items)[k] == EntryLines(items[0])[k];
        }
      }
    }
  }
}
