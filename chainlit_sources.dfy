/**
 * The source extractor inside `on_message` (chainlit_app.py): every chunk of
 * the research stream is appended to the full answer, and once a chunk
 * mentions "sources:" in any case, each later line of each chunk is scanned
 * for a `[n] title` line followed by an `http` line.
 */
module ChainlitSources {
  import opened Text
  import opened Types

  /** `in_sources_section`, `current_source_title` and `sources_list`. */
  datatype ScanState = ScanState(inSources: bool, pending: string, sources: seq<Source>)

  const Start := ScanState(false, "", [])

  /** `"Sources:" in chunk or "sources:" in chunk.lower()`. */
  predicate Marker(chunk: string) {
    Contains(chunk, "Sources:") || Contains(Lower(chunk), "sources:")
  }

  /** One line: a bracketed line becomes the pending title, an `http` line consumes it. */
  function ScanLine(st: ScanState, line: string): ScanState {
    var s := Strip(line);
    if s != "" && s[0] == '[' && ']' in line then st.(pending := s)
    else if StartsWith(s, "http") then
      if st.pending != "" then st.(sources := st.sources + [Source(st.pending, s)], pending := "") else st
    else st
  }

  function ScanLines(st: ScanState, lines: seq<string>): ScanState
    decreases |lines|
  {
    if lines == [] then st else ScanLines(ScanLine(st, lines[0]), lines[1..])
  }

  /** One chunk: the marker switches the mode on, and in that mode the stripped chunk's lines are scanned. */
  function ScanChunk(st: ScanState, chunk: string): ScanState {
    var on := if Marker(chunk) then st.(inSources := true) else st;
    if on.inSources then ScanLines(on, Split(Strip(chunk), '\n')) else on
  }

  function ScanChunks(st: ScanState, chunks: seq<string>): ScanState
    decreases |chunks|
  {
    if chunks == [] then st else ScanChunks(ScanChunk(st, chunks[0]), chunks[1..])
  }

  /** The `async for chunk in run_research(...)` loop: the saved answer and the sources list. */
  method OnMessage(chunks: seq<string>) returns (fullAnswer: string, sources: seq<Source>)
    ensures fullAnswer == Flatten(chunks)
    ensures sources == ScanChunks(Start, chunks).sources
  {
    fullAnswer := "";
    var inSources, pending := false, "";
    sources := [];
    var i := 0;
    while i < |chunks|
      invariant 0 <= i <= |chunks|
      invariant fullAnswer + Flatten(chunks[i..]) == Flatten(chunks)
      invariant ScanChunks(ScanState(inSources, pending, sources), chunks[i..]) == ScanChunks(Start, chunks)
    {
      var chunk := chunks[i];
      assert chunks[i..][1..] == chunks[i + 1..];
      AppendAssoc(fullAnswer, chunk, Flatten(chunks[i + 1..]));
      fullAnswer := fullAnswer + chunk;
      if Contains(chunk, "Sources:") || Contains(Lower(chunk), "sources:") {
        inSources := true;
      }
      if inSources {
        var lines := Split(Strip(chunk), '\n');
        ghost var on := ScanState(inSources, pending, sources);
        var j := 0;
        while j < |lines|
          invariant 0 <= j <= |lines|
          invariant inSources
          invariant ScanLines(ScanState(inSources, pending, sources), lines[j..]) == ScanLines(on, lines)
        {
          var line := lines[j];
          assert lines[j..][1..] == lines[j + 1..];
          var s := Strip(line);
          if s != "" && s[0] == '[' && ']' in line {
            pending := s;
          } else if StartsWith(s, "http") {
            if pending != "" {
              sources := sources + [Source(pending, s)];
              pending := "";
            }
          }
          j := j + 1;
        }
        assert lines[j..] == [];
      }
      i := i + 1;
    }
    assert chunks[i..] == [];
  }

  // ---------------------------------------------------------------- lemmas

  lemma {:induction false} ScanChunksAppend(st: ScanState, a: seq<string>, b: seq<string>)
    ensures ScanChunks(st, a + b) == ScanChunks(ScanChunks(st, a), b)
    decreases |a|
  {
    if a == [] {
      assert a + b == b;
    } else {
      assert (a + b)[1..] == a[1..] + b;
      ScanChunksAppend(ScanChunk(st, a[0]), a[1..], b);
    }
  }

  lemma {:induction false} ScanLinesAppend(st: ScanState, a: seq<string>, b: seq<string>)
    ensures ScanLines(st, a + b) == ScanLines(ScanLines(st, a), b)
    decreases |a|
  {
    if a == [] {
      assert a + b == b;
    } else {
      assert (a + b)[1..] == a[1..] + b;
      ScanLinesAppend(ScanLine(st, a[0]), a[1..], b);
    }
  }

  /** Lines never touch the mode, and the sources found so far stay a prefix. */
  lemma {:induction false} ScanLinesGrow(st: ScanState, lines: seq<string>)
    ensures ScanLines(st, lines).inSources == st.inSources
    ensures var r := ScanLines(st, lines).sources; |st.sources| <= |r| && r[..|st.sources|] == st.sources
    decreases |lines|
  {
    if lines != [] {
      var next := ScanLine(st, lines[0]);
      ScanLinesGrow(next, lines[1..]);
      var r := ScanLines(st, lines).sources;
      assert r[..|next.sources|][..|st.sources|] == r[..|st.sources|];
    }
  }

  /** Before the first marker nothing changes at all: in particular no source is recorded. */
  lemma {:induction false} NoSourceBeforeMarker(st: ScanState, chunks: seq<string>)
    requires !st.inSources
    requires forall k :: 0 <= k < |chunks| ==> !Marker(chunks[k])
    ensures ScanChunks(st, chunks) == st
    decreases |chunks|
  {
    if chunks != [] {
      assert forall k :: 0 <= k < |chunks[1..]| ==> chunks[1..][k] == chunks[k + 1];
      NoSourceBeforeMarker(st, chunks[1..]);
    }
  }

  /** The mode is on after a run exactly when it was on before or some chunk carried the marker. */
  lemma {:induction false} ModeOnceOn(st: ScanState, chunks: seq<string>)
    ensures ScanChunks(st, chunks).inSources <==>
      st.inSources || exists k :: 0 <= k < |chunks| && Marker(chunks[k])
    decreases |chunks|
  {
    if chunks != [] {
      var on := if Marker(chunks[0]) then st.(inSources := true) else st;
      if on.inSources {
        ScanLinesGrow(on, Split(Strip(chunks[0]), '\n'));
      }
      ModeOnceOn(ScanChunk(st, chunks[0]), chunks[1..]);
      if exists k :: 0 <= k < |chunks[1..]| && Marker(chunks[1..][k]) {
        var k :| 0 <= k < |chunks[1..]| && Marker(chunks[1..][k]);
        assert Marker(chunks[k + 1]);
      }
      if exists k :: 0 <= k < |chunks| && Marker(chunks[k]) {
        var k :| 0 <= k < |chunks| && Marker(chunks[k]);
        if k > 0 {
          assert Marker(chunks[1..][k - 1]);
        }
      }
    }
  }

  /** Later chunks only ever add sources: the list after a prefix of the stream is a prefix of the final list. */
  lemma {:induction false} SourcesOnlyGrow(st: ScanState, chunks: seq<string>)
    ensures var r := ScanChunks(st, chunks).sources; |st.sources| <= |r| && r[..|st.sources|] == st.sources
    decreases |chunks|
  {
    if chunks != [] {
      var on := if Marker(chunks[0]) then st.(inSources := true) else st;
      if on.inSources {
        ScanLinesGrow(on, Split(Strip(chunks[0]), '\n'));
      }
      var next := ScanChunk(st, chunks[0]);
      SourcesOnlyGrow(next, chunks[1..]);
      var r := ScanChunks(st, chunks).sources;
      assert r[..|next.sources|][..|st.sources|] == r[..|st.sources|];
    }
  }

  /** A line the scanner passes over: stripped, it starts with neither `[` nor `http`. */
  predicate Inert(line: string) {
    var s := Strip(line);
    !(s != "" && s[0] == '[') && !StartsWith(s, "http")
  }

  lemma {:induction false} InertLines(st: ScanState, lines: seq<string>)
    requires forall j :: 0 <= j < |lines| ==> Inert(lines[j])
    ensures ScanLines(st, lines) == st
    decreases |lines|
  {
    if lines != [] {
      assert forall j :: 0 <= j < |lines[1..]| ==> lines[1..][j] == lines[j + 1];
      InertLines(st, lines[1..]);
    }
  }

  /** Chunks without the marker whose lines are all inert leave the scanner exactly as it was, in either mode. */
  lemma {:induction false} QuietChunks(st: ScanState, chunks: seq<string>)
    requires forall k :: 0 <= k < |chunks| ==> !Marker(chunks[k])
    requires forall k :: 0 <= k < |chunks| ==>
      forall j :: 0 <= j < |Split(Strip(chunks[k]), '\n')| ==> Inert(Split(Strip(chunks[k]), '\n')[j])
    ensures ScanChunks(st, chunks) == st
    decreases |chunks|
  {
    if chunks != [] {
      InertLines(st, Split(Strip(chunks[0]), '\n'));
      assert forall k :: 0 <= k < |chunks[1..]| ==> chunks[1..][k] == chunks[k + 1];
      QuietChunks(st, chunks[1..]);
    }
  }

  /** A title line as it arrives already stripped: starts with `[`, holds a `]`. */
  predicate TitleText(a: string) {
    a != "" && a[0] == '[' && ']' in a && a[|a| - 1] !in Whitespace
  }

  /** A url line as it arrives already stripped. */
  predicate UrlText(u: string) {
    StartsWith(u, "http") && u[|u| - 1] !in Whitespace
  }

  /** A title line becomes the pending title, whatever was pending before. */
  lemma TitleHeld(st: ScanState, a: string)
    requires TitleText(a)
    ensures ScanLine(st, a) == st.(pending := a)
  {
    assert '[' !in Whitespace;
    StripUntouched(a);
  }

  /** A url line records the pending title with it and clears it, and is ignored when nothing is pending. */
  lemma UrlTaken(st: ScanState, u: string)
    requires UrlText(u)
    ensures ScanLine(st, u) == if st.pending != "" then ScanState(st.inSources, "", st.sources + [Source(st.pending, u)]) else st
  {
    assert u[0] == 'h' by {
      assert u[..4] == "http";
    }
    assert 'h' !in Whitespace;
    StripUntouched(u);
  }

  /** Of two title lines before a url line, only the later one is recorded. */
  lemma LatestTitleWins(st: ScanState, a: string, b: string, u: string)
    requires TitleText(a) && TitleText(b) && UrlText(u)
    ensures ScanLines(st, [a, b, u]) == ScanState(st.inSources, "", st.sources + [Source(b, u)])
  {
    var s1 := st.(pending := a);
    var s2 := st.(pending := b);
    TitleHeld(st, a);
    TitleHeld(s1, b);
    UrlTaken(s2, u);
    assert [a, b, u][1..] == [b, u];
    assert [b, u][1..] == [u];
    OneLine(s2, u);
    assert ScanLines(s1, [b, u]) == ScanLines(s2, [u]);
    assert ScanLines(st, [a, b, u]) == ScanLines(s1, [b, u]);
  }

  lemma OneLine(st: ScanState, line: string)
    ensures ScanLines(st, [line]) == ScanLine(st, line)
  {
    assert [line][1..] == [];
  }

  /** In sources mode, a one-line chunk is scanned as that one line. */
  lemma OneLineChunk(st: ScanState, line: string)
    requires st.inSources && '\n' !in line
    requires line != [] && line[0] !in Whitespace && line[|line| - 1] !in Whitespace
    ensures ScanChunk(st, line) == ScanLine(st, line)
  {
    StripUntouched(line);
    SplitNoSeparator(line, '\n');
    assert (if Marker(line) then st.(inSources := true) else st) == st;
    OneLine(st, line);
  }

  /** The pending title survives a chunk boundary: a title chunk and then a url chunk record the pair. */
  lemma TitleAcrossChunks(st: ScanState, a: string, u: string)
    requires st.inSources && TitleText(a) && UrlText(u) && '\n' !in a && '\n' !in u
    ensures ScanChunks(st, [a, u]) == ScanState(true, "", st.sources + [Source(a, u)])
  {
    var held := st.(pending := a);
    FirstChars(a, u);
    OneLineChunk(st, a);
    TitleHeld(st, a);
    OneLineChunk(held, u);
    UrlTaken(held, u);
    TwoChunks(st, a, u);
  }

  lemma FirstChars(a: string, u: string)
    requires TitleText(a) && UrlText(u)
    ensures a[0] !in Whitespace && u[0] !in Whitespace
  {
    assert '[' !in Whitespace;
    assert u[0] == 'h' by {
      assert u[..4] == "http";
    }
    assert 'h' !in Whitespace;
  }

  lemma TwoChunks(st: ScanState, a: string, u: string)
    ensures ScanChunks(st, [a, u]) == ScanChunk(ScanChunk(st, a), u)
  {
    var s1 := ScanChunk(st, a);
    assert [a, u][1..] == [u];
    assert ScanChunks(st, [a, u]) == ScanChunks(s1, [u]);
    assert [u][1..] == [];
    assert ScanChunks(s1, [u]) == ScanChunks(ScanChunk(s1, u), []);
  }

  /** What a recorded source looks like: a stripped `[`-line title and a stripped `http` url. */
  predicate Shaped(src: Source) {
    && src.title != "" && src.title[0] == '[' && ']' in src.title
    && StartsWith(src.url, "http")
  }

  predicate AllShaped(sources: seq<Source>) {
    forall k :: 0 <= k < |sources| ==> Shaped(sources[k])
  }

  predicate StateShaped(st: ScanState) {
    && AllShaped(st.sources)
    && (st.pending != "" ==> st.pending[0] == '[' && ']' in st.pending)
  }

  lemma ScanLineShaped(st: ScanState, line: string)
    requires StateShaped(st)
    ensures StateShaped(ScanLine(st, line))
  {
    var s := Strip(line);
    if s != "" && s[0] == '[' && ']' in line {
      StripKeepsBracket(line);
      assert ScanLine(st, line) == st.(pending := s);
    } else if StartsWith(s, "http") && st.pending != "" {
      var src := Source(st.pending, s);
      assert Shaped(src);
      assert ScanLine(st, line) == ScanState(st.inSources, "", st.sources + [src]);
      assert forall k :: 0 <= k < |st.sources| ==> (st.sources + [src])[k] == st.sources[k];
    } else {
      assert ScanLine(st, line) == st;
    }
  }

  /** `]` in a line whose stripped form starts with `[` is also in the stripped form. */
  lemma StripKeepsBracket(line: string)
    requires Strip(line) != "" && Strip(line)[0] == '[' && ']' in line
    ensures ']' in Strip(line)
  {
    var k :| 0 <= k < |line| && line[k] == ']';
    assert ']' !in Whitespace;
    TrimKeeps(line, Whitespace, k);
  }

  lemma {:induction false} ScanLinesShaped(st: ScanState, lines: seq<string>)
    requires StateShaped(st)
    ensures StateShaped(ScanLines(st, lines))
    decreases |lines|
  {
    if lines != [] {
      ScanLineShaped(st, lines[0]);
      ScanLinesShaped(ScanLine(st, lines[0]), lines[1..]);
    }
  }

  /** Every recorded source has a bracketed title and an `http` url, whatever the stream. */
  lemma {:induction false} SourcesShaped(st: ScanState, chunks: seq<string>)
    requires StateShaped(st)
    ensures AllShaped(ScanChunks(st, chunks).sources)
    ensures StateShaped(ScanChunks(st, chunks))
    decreases |chunks|
  {
    if chunks != [] {
      var on := if Marker(chunks[0]) then st.(inSources := true) else st;
      if on.inSources {
        ScanLinesShaped(on, Split(Strip(chunks[0]), '\n'));
      }
      SourcesShaped(ScanChunk(st, chunks[0]), chunks[1..]);
    }
  }
}
