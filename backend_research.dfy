/**
 * The streaming body of `research_endpoint` (backend/routers/research.py):
 * every chunk of the research stream is passed through, chunks that look
 * like a url or a `[n]` line are kept out of the saved answer, and each
 * chunk that mentions "sources:" is parsed on its own as title/url line
 * pairs.
 *
 * As written, `get_user` (line 19) tests `user` before line 20 assigns it, so
 * Python treats `user` as a local and the test raises `UnboundLocalError`.
 * The endpoint calls it at line 35, before its first `yield`: EndpointAsWritten
 * records that behaviour. Endpoint is the evident intent, the body from line 36
 * on, with the user looked up or created first.
 */
module BackendResearch {
  import opened Wrappers
  import opened Text
  import opened Types

  /** The last thing the endpoint yields. */
  const Done: string := "\n\n[DONE]"

  /** The characters `lines[i].strip("[]1234567890.")` removes. */
  const TitleChars: set<char> := {'[', ']', '0', '1', '2', '3', '4', '5', '6', '7', '8', '9', '.'}

  /** Whether a chunk goes into `full_answer`. */
  predicate Kept(chunk: string) {
    var s := Strip(chunk);
    !StartsWith(s, "http") && !StartsWith(s, "[")
  }

  /** `full_answer` before stripping: the kept chunks, in order. */
  function Answer(chunks: seq<string>): string
    decreases |chunks|
  {
    if chunks == [] then ""
    else (if Kept(chunks[0]) then chunks[0] else "") + Answer(chunks[1..])
  }

  /** `"sources:" in chunk or "sources:" in chunk.lower()`. */
  predicate Marker(chunk: string) {
    Contains(chunk, "sources:") || Contains(Lower(chunk), "sources:")
  }

  /** One pair: the source it gives, if its second line is an `http` line once stripped. */
  function PairAt(titleLine: string, urlLine: string): (r: seq<Source>)
    ensures |r| <= 1
    ensures r != [] ==> StartsWith(r[0].url, "http")
  {
    var url := Strip(urlLine);
    if StartsWith(url, "http") then [Source(Trim(titleLine, TitleChars), url)] else []
  }

  /** The pairs `(lines[i], lines[i + 1])` for `i` in `range(from, len(lines), 2)`; a last unpaired line is skipped. */
  function PairSources(lines: seq<string>, from: nat): seq<Source>
    decreases |lines| - from
  {
    if from >= |lines| then []
    else (if from + 1 < |lines| then PairAt(lines[from], lines[from + 1]) else []) + PairSources(lines, from + 2)
  }

  /** The sources one chunk contributes. */
  function ChunkSources(chunk: string): seq<Source> {
    if Marker(chunk) then PairSources(Split(Strip(chunk), '\n'), 1) else []
  }

  function AllSources(chunks: seq<string>): seq<Source>
    decreases |chunks|
  {
    if chunks == [] then [] else ChunkSources(chunks[0]) + AllSources(chunks[1..])
  }

  /** The user row `get_user` finds or creates; the database is not modelled. */
  datatype User = User(email: string, name: string)

  /** `get_user()` as written: reading the unbound local `user` raises before any query runs. */
  function GetUserAsWritten(): (r: Result<User, PyError>)
    ensures r == Failure(UnboundLocalError("user"))
  {
    Failure(UnboundLocalError("user"))
  }

  /**
   * The endpoint as written, over any stream: `get_user()` raises at line 35,
   * so the exception ends the response before anything is yielded. No chunk of
   * the research stream and no `"\n\n[DONE]"` reaches the client, and nothing
   * is saved.
   */
  method EndpointAsWritten(chunks: seq<string>) returns (out: seq<string>, raised: PyError)
    ensures out == [] && raised == UnboundLocalError("user")
    ensures Done !in out && forall c :: c in chunks ==> c !in out
  {
    out := [];
    var user := GetUserAsWritten();
    raised := user.error;
  }

  /**
   * The endpoint run over a whole stream, once the user is known: what it
   * yields, the answer it saves and the sources it saves.
   */
  method Endpoint(chunks: seq<string>) returns (out: seq<string>, saved: string, sources: seq<Source>)
    ensures out == chunks + [Done]
    ensures saved == Strip(Answer(chunks))
    ensures sources == AllSources(chunks)
  {
    out := [];
    var fullAnswer := "";
    sources := [];
    var c := 0;
    while c < |chunks|
      invariant 0 <= c <= |chunks|
      invariant out == chunks[..c]
      invariant fullAnswer + Answer(chunks[c..]) == Answer(chunks)
      invariant sources + AllSources(chunks[c..]) == AllSources(chunks)
    {
      var chunk := chunks[c];
      StreamStep(chunks, c);
      out := out + [chunk];
      if Kept(chunk) {
        AppendAssoc(fullAnswer, chunk, Answer(chunks[c + 1..]));
        fullAnswer := fullAnswer + chunk;
      } else {
        assert Answer(chunks[c..]) == Answer(chunks[c + 1..]);
      }
      var found := ParseChunk(chunk);
      AppendAssoc(sources, found, AllSources(chunks[c + 1..]));
      sources := sources + found;
      c := c + 1;
    }
    assert chunks[c..] == [];
    assert chunks[..c] == chunks;
    assert fullAnswer + "" == fullAnswer;
    assert sources + [] == sources;
    out := out + [Done];
    saved := Strip(fullAnswer);
  }

  /** The `if "sources:" in chunk ...` block: the sources this chunk adds. */
  method ParseChunk(chunk: string) returns (found: seq<Source>)
    ensures found == ChunkSources(chunk)
  {
    found := [];
    if Contains(chunk, "sources:") || Contains(Lower(chunk), "sources:") {
      found := LinePairs(Split(Strip(chunk), '\n'));
    }
  }

  /** The `for i in range(1, len(lines), 2)` loop over one chunk's lines. */
  method LinePairs(lines: seq<string>) returns (found: seq<Source>)
    ensures found == PairSources(lines, 1)
  {
    found := [];
    var i: nat := 1;
    while i < |lines|
      invariant 1 <= i
      invariant found + PairSources(lines, i) == PairSources(lines, 1)
    {
      ghost var rest := PairSources(lines, i + 2);
      if i + 1 < |lines| {
        var pair := PairAt(lines[i], lines[i + 1]);
        AppendAssoc(found, pair, rest);
        found := found + pair;
      }
      i := i + 2;
    }
    assert found + [] == found;
  }

  /** One step of the stream loop, for each of the three things it builds. */
  lemma StreamStep(chunks: seq<string>, c: nat)
    requires c < |chunks|
    ensures chunks[..c + 1] == chunks[..c] + [chunks[c]]
    ensures Answer(chunks[c..]) == (if Kept(chunks[c]) then chunks[c] else "") + Answer(chunks[c + 1..])
    ensures AllSources(chunks[c..]) == ChunkSources(chunks[c]) + AllSources(chunks[c + 1..])
  {
    assert chunks[c..][1..] == chunks[c + 1..];
  }

  // ---------------------------------------------------------------- lemmas

  /** There is no state across chunks: the sources of a stream are those of its parts, concatenated. */
  lemma {:induction false} AllSourcesAppend(a: seq<string>, b: seq<string>)
    ensures AllSources(a + b) == AllSources(a) + AllSources(b)
    decreases |a|
  {
    if a == [] {
      assert a + b == b;
    } else {
      assert (a + b)[1..] == a[1..] + b;
      AllSourcesAppend(a[1..], b);
      AppendAssoc(ChunkSources(a[0]), AllSources(a[1..]), AllSources(b));
    }
  }

  /** Likewise for the answer. */
  lemma {:induction false} AnswerAppend(a: seq<string>, b: seq<string>)
    ensures Answer(a + b) == Answer(a) + Answer(b)
    decreases |a|
  {
    if a == [] {
      assert a + b == b;
    } else {
      assert (a + b)[1..] == a[1..] + b;
      AnswerAppend(a[1..], b);
      AppendAssoc(if Kept(a[0]) then a[0] else "", Answer(a[1..]), Answer(b));
    }
  }

  /** A chunk without the marker contributes no source. */
  lemma {:induction false} NoMarkerNoSources(chunks: seq<string>)
    requires forall k :: 0 <= k < |chunks| ==> !Marker(chunks[k])
    ensures AllSources(chunks) == []
    decreases |chunks|
  {
    if chunks != [] {
      assert forall k :: 0 <= k < |chunks[1..]| ==> chunks[1..][k] == chunks[k + 1];
      NoMarkerNoSources(chunks[1..]);
    }
  }

  /** The answer is exactly the kept chunks: a single chunk is in it iff it is kept. */
  lemma AnswerOne(chunk: string)
    ensures Answer([chunk]) == (if Kept(chunk) then chunk else "")
  {
    assert [chunk][1..] == [];
  }

  /** Only odd-numbered lines are titles: with `from` odd, the pair parser never reads line 0. */
  lemma {:induction false} PairSourcesSkipsHead(lines: seq<string>, other: string, from: nat)
    requires 1 <= from && |lines| >= 1
    ensures PairSources(lines, from) == PairSources([other] + lines[1..], from)
    decreases |lines| - from
  {
    var swapped := [other] + lines[1..];
    assert |swapped| == |lines|;
    if from < |lines| {
      assert swapped[from] == lines[from];
      if from + 1 < |lines| {
        assert swapped[from + 1] == lines[from + 1];
      }
      PairSourcesSkipsHead(lines, other, from + 2);
    }
  }

  /** Every saved source has an `http` url, and at most one source comes from each two lines. */
  lemma {:induction false} PairSourcesShape(lines: seq<string>, from: nat)
    ensures forall k :: 0 <= k < |PairSources(lines, from)| ==> StartsWith(PairSources(lines, from)[k].url, "http")
    requires from <= |lines| + 1
    ensures 2 * |PairSources(lines, from)| <= |lines| - from + 1
    decreases |lines| - from
  {
    if from < |lines| {
      PairSourcesShape(lines, from + 2);
    }
  }
}
