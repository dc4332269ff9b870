/**
 * What the two front ends recover from the "Sources:" block that
 * `run_research` streams after the answer (agent/agent.py). The block is
 * `"\n\nSources:\n"` followed by the `"[i] title\nurl"` entries joined with
 * newlines; once stripped and split at newlines it is the line "Sources:"
 * followed by a title line and a url line per citation. The Chainlit scanner
 * pairs them up as `("[i] title", url)`; the backend router pairs lines
 * (1, 2), (3, 4), ... and strips the brackets and digits from the title,
 * leaving `(" title", url)`.
 */
module RoundTrip {
  import opened Text
  import opened Types
  import AgentCitations
  import ChainlitSources
  import BackendResearch
  import ResearchModel

  /** `"[k] title"`, the first line of citation number `k`. */
  function TitleLine(k: nat, title: string): string {
    "[" + NatToString(k) + "] " + title
  }

  /** The lines of the citations `added`, numbered from `k`: a title line and a url line each. */
  function EntryLines(added: seq<(string, string)>, k: nat): seq<string>
    decreases |added|
  {
    if added == [] then [] else [TitleLine(k, added[0].0), added[0].1] + EntryLines(added[1..], k + 1)
  }

  /** The rendered entries numbered from `k`. */
  function EntriesFrom(added: seq<(string, string)>, k: nat): seq<string> {
    seq(|added|, i requires 0 <= i < |added| => AgentCitations.Entry(k + i, added[i].0, added[i].1))
  }

  /** A url as the extractors recognise it: an `http` line that `strip()` leaves alone. */
  predicate Link(url: string) {
    StartsWith(url, "http") && url[|url| - 1] !in Whitespace
  }

  /** Citations whose lines survive the round trip: no newline inside, and a recognisable url. */
  predicate Cited(added: seq<(string, string)>) {
    forall i :: 0 <= i < |added| ==> '\n' !in added[i].0 && '\n' !in added[i].1 && Link(added[i].1)
  }

  /** Titles the Chainlit scanner keeps whole: `strip()` must not shorten the title line. */
  predicate ChainlitTitles(added: seq<(string, string)>) {
    forall i :: 0 <= i < |added| ==> added[i].0 != "" && added[i].0[|added[i].0| - 1] !in Whitespace
  }

  /** Titles the backend keeps whole: `strip("[]1234567890.")` must stop at the title's last character. */
  predicate BackendTitles(added: seq<(string, string)>) {
    forall i :: 0 <= i < |added| ==>
      added[i].0 == "" || added[i].0[|added[i].0| - 1] !in BackendResearch.TitleChars
  }

  // ------------------------------------------------------- the rendered block

  lemma EntriesFromOne(added: seq<(string, string)>)
    ensures AgentCitations.Entries(added) == EntriesFrom(added, 1)
  {
  }

  /** The entries joined with newlines are the title and url lines joined with newlines. */
  lemma {:induction false} JoinEntries(added: seq<(string, string)>, k: nat)
    requires added != []
    ensures Join("\n", EntriesFrom(added, k)) == Join("\n", EntryLines(added, k))
    decreases |added|
  {
    var e := EntriesFrom(added, k);
    var t, u := added[0].0, added[0].1;
    var head := [TitleLine(k, t), u];
    assert e[0] == TitleLine(k, t) + "\n" + u;
    assert head[1..] == [u];
    assert Join("\n", head) == e[0];
    if |added| == 1 {
      assert EntryLines(added, k) == head + [];
      assert head + [] == head;
    } else {
      var rest := added[1..];
      assert e[1..] == EntriesFrom(rest, k + 1);
      JoinEntries(rest, k + 1);
      EntryLinesLength(rest, k + 1);
      JoinAppend("\n", head, EntryLines(rest, k + 1));
    }
  }

  lemma {:induction false} EntryLinesLength(added: seq<(string, string)>, k: nat)
    ensures |EntryLines(added, k)| == 2 * |added|
    decreases |added|
  {
    if added != [] {
      EntryLinesLength(added[1..], k + 1);
    }
  }

  /** The last line is the last url. */
  lemma {:induction false} EntryLinesLast(added: seq<(string, string)>, k: nat)
    requires added != []
    ensures |EntryLines(added, k)| >= 2
    ensures EntryLines(added, k)[|EntryLines(added, k)| - 1] == added[|added| - 1].1
    decreases |added|
  {
    EntryLinesLength(added, k);
    if |added| > 1 {
      EntryLinesLast(added[1..], k + 1);
    }
  }

  lemma {:induction false} EntryLinesNoNewline(added: seq<(string, string)>, k: nat)
    requires Cited(added)
    ensures forall j :: 0 <= j < |EntryLines(added, k)| ==> '\n' !in EntryLines(added, k)[j]
    decreases |added|
  {
    if added != [] {
      var rest := added[1..];
      assert Cited(rest) by {
        forall i | 0 <= i < |rest| ensures '\n' !in rest[i].0 && '\n' !in rest[i].1 && Link(rest[i].1) {
          assert rest[i] == added[i + 1];
        }
      }
      EntryLinesNoNewline(rest, k + 1);
      var n := NatToString(k);
      assert forall j :: 0 <= j < |n| ==> n[j] != '\n';
      var lines := EntryLines(added, k);
      forall j | 0 <= j < |lines| ensures '\n' !in lines[j] {
        if j >= 2 {
          assert lines[j] == EntryLines(rest, k + 1)[j - 2];
        }
      }
    }
  }

  /** A header and lines behind blank lines, stripped and split, give the header and the lines back. */
  lemma HeaderedLines(chunk: string, header: string, lines: seq<string>)
    requires chunk == "\n\n" + header + "\n" + Join("\n", lines)
    requires |header| >= 1 && header[0] !in Whitespace && '\n' !in header
    requires |lines| >= 1 && forall j :: 0 <= j < |lines| ==> '\n' !in lines[j]
    requires var last := lines[|lines| - 1]; |last| >= 1 && last[|last| - 1] !in Whitespace
    ensures Split(Strip(chunk), '\n') == [header] + lines
  {
    var block := [header] + lines;
    assert block[1..] == lines;
    var text := Join("\n", block);
    assert text == header + "\n" + Join("\n", lines);
    assert "\n\n" + header + "\n" + Join("\n", lines) == "\n\n" + text;
    JoinEnds("\n", block);
    assert block[|block| - 1] == lines[|lines| - 1];
    assert text[0] == header[0];
    StripLeadingSpace("\n\n", text);
    forall j | 0 <= j < |block| ensures '\n' !in block[j] {
      if j > 0 {
        assert block[j] == lines[j - 1];
      }
    }
    SplitJoin(block, '\n');
  }

  /** The rendered block is the header "Sources:" and the entry lines, behind a blank line. */
  lemma RenderedBlock(added: seq<(string, string)>)
    requires added != []
    ensures AgentCitations.Render(AgentCitations.Entries(added)) == "\n\n" + "Sources:" + "\n" + Join("\n", EntryLines(added, 1))
  {
    EntriesFromOne(added);
    JoinEntries(added, 1);
  }

  /** The rendered block, stripped and split at newlines: "Sources:" and then the entry lines. */
  lemma BlockSplit(added: seq<(string, string)>)
    requires added != [] && Cited(added)
    ensures Split(Strip(AgentCitations.Render(AgentCitations.Entries(added))), '\n') == ["Sources:"] + EntryLines(added, 1)
  {
    RenderedBlock(added);
    EntryLinesLength(added, 1);
    EntryLinesLast(added, 1);
    EntryLinesNoNewline(added, 1);
    var url := added[|added| - 1].1;
    assert Link(url);
    HeaderedLines(AgentCitations.Render(AgentCitations.Entries(added)), "Sources:", EntryLines(added, 1));
  }

  /** A chunk of one line wrapped in whitespace splits back into that line, stripped. */
  lemma WrappedLine(chunk: string, w: string, body: string, v: string)
    requires chunk == w + body + v && '\n' !in body
    requires forall i :: 0 <= i < |w| ==> w[i] in Whitespace
    requires forall i :: 0 <= i < |v| ==> v[i] in Whitespace
    requires |body| >= 1 && body[0] !in Whitespace && body[|body| - 1] !in Whitespace
    ensures Split(Strip(chunk), '\n') == [body]
  {
    StripAround(w, body, v);
    SplitNoSeparator(body, '\n');
  }

  /** The closing "KNOWDEX has finished" chunk strips to one line that neither scanner uses. */
  lemma FinishedLine(fin: string)
    requires fin == ResearchModel.Finished
    ensures Split(Strip(fin), '\n') == ["KNOWDEX has finished"]
  {
    FinishedBody(fin, "KNOWDEX has finished");
  }

  lemma FinishedBody(fin: string, body: string)
    requires fin == "\n\n " + body + "\n" && body == "KNOWDEX has finished"
    ensures Split(Strip(fin), '\n') == [body]
  {
    WrappedLine(fin, "\n\n ", body, "\n");
  }

  /** Nor does it carry a ':'. */
  lemma FinishedColon(fin: string)
    requires fin == ResearchModel.Finished
    ensures ':' !in fin
  {
  }

  lemma InertBody(body: string)
    requires body == "KNOWDEX has finished"
    ensures ChainlitSources.Inert(body)
  {
    StripUntouched(body);
  }

  /** A chunk both front ends pass over: no "sources:" in any case, and only inert lines. */
  predicate Quiet(chunk: string) {
    && !Contains(Lower(chunk), "sources:")
    && forall j :: 0 <= j < |Split(Strip(chunk), '\n')| ==> ChainlitSources.Inert(Split(Strip(chunk), '\n')[j])
  }

  /** The closing chunk is quiet. */
  lemma FinishedQuiet(fin: string)
    requires fin == ResearchModel.Finished
    ensures Quiet(fin)
  {
    FinishedLine(fin);
    FinishedColon(fin);
    NoColonNoMarker(fin);
    MarkerLower(fin);
    InertBody("KNOWDEX has finished");
  }

  /** The rendered block of a non-empty citation list carries the "Sources:" marker. */
  lemma BlockMarked(added: seq<(string, string)>)
    requires added != []
    ensures Contains(AgentCitations.Render(AgentCitations.Entries(added)), "Sources:")
  {
    var j := Join("\n", AgentCitations.Entries(added));
    assert AgentCitations.Render(AgentCitations.Entries(added)) == "\n\n" + "Sources:" + ("\n" + j);
    ContainsInfix("\n\n", "Sources:", "\n" + j);
  }

  /** A chunk without ':' cannot carry the "sources:" marker of either front end. */
  lemma NoColonNoMarker(chunk: string)
    requires ':' !in chunk
    ensures !ChainlitSources.Marker(chunk) && !BackendResearch.Marker(chunk)
  {
    if Contains(chunk, "Sources:") {
      ContainsChar(chunk, "Sources:", ':');
    }
    if Contains(chunk, "sources:") {
      ContainsChar(chunk, "sources:", ':');
    }
    if Contains(Lower(chunk), "sources:") {
      ContainsChar(Lower(chunk), "sources:", ':');
      LowerKeepsNonLetter(chunk, ':');
    }
  }

  /** Both markers come down to "sources:" in the lower-cased chunk. */
  lemma MarkerLower(chunk: string)
    ensures ChainlitSources.Marker(chunk) <==> Contains(Lower(chunk), "sources:")
    ensures BackendResearch.Marker(chunk) <==> Contains(Lower(chunk), "sources:")
  {
    assert Lower("Sources:") == "sources:";
    assert Lower("sources:") == "sources:";
    if Contains(chunk, "Sources:") {
      ContainsLower(chunk, "Sources:");
    }
    if Contains(chunk, "sources:") {
      ContainsLower(chunk, "sources:");
    }
  }

  // ------------------------------------------------------------- Chainlit

  /** The sources the Chainlit scanner records from entry lines numbered from `k`. */
  function ChainlitSeen(added: seq<(string, string)>, k: nat): seq<Source>
    decreases |added|
  {
    if added == [] then [] else [Source(TitleLine(k, added[0].0), added[0].1)] + ChainlitSeen(added[1..], k + 1)
  }

  /** One title line and its url line: the title is held, then recorded with the url. */
  lemma ScanPair(st: ChainlitSources.ScanState, k: nat, t: string, u: string)
    requires st.pending == ""
    requires t != [] && t[|t| - 1] !in Whitespace
    requires Link(u)
    ensures ChainlitSources.ScanLines(st, [TitleLine(k, t), u]) == st.(sources := st.sources + [Source(TitleLine(k, t), u)])
  {
    var title := TitleLine(k, t);
    assert title[0] == '[';
    assert title[|title| - 1] == t[|t| - 1];
    StripUntouched(title);
    assert ']' in title by {
      assert title[|NatToString(k)| + 1] == ']';
    }
    var st1 := ChainlitSources.ScanLine(st, title);
    assert st1 == st.(pending := title);
    assert u[0] == 'h' by {
      assert u[..4] == "http";
    }
    StripUntouched(u);
    var st2 := ChainlitSources.ScanLine(st1, u);
    assert st2 == st.(sources := st.sources + [Source(title, u)]);
    assert ChainlitSources.ScanLines(st1, [u]) == st2;
    assert [title, u][1..] == [u];
  }

  /** With no title pending, each title line is taken up by the url line after it. */
  lemma {:induction false} ScanEntryLines(st: ChainlitSources.ScanState, added: seq<(string, string)>, k: nat)
    requires st.pending == "" && Cited(added) && ChainlitTitles(added)
    ensures ChainlitSources.ScanLines(st, EntryLines(added, k)) == st.(sources := st.sources + ChainlitSeen(added, k))
    decreases |added|
  {
    if added == [] {
      assert st.sources + [] == st.sources;
    } else {
      var t, u := added[0].0, added[0].1;
      var title := TitleLine(k, t);
      var rest := added[1..];
      assert Cited(rest) && ChainlitTitles(rest) by {
        forall i | 0 <= i < |rest| ensures rest[i] == added[i + 1] { }
      }
      ScanPair(st, k, t, u);
      var st2 := st.(sources := st.sources + [Source(title, u)]);
      ChainlitSources.ScanLinesAppend(st, [title, u], EntryLines(rest, k + 1));
      ScanEntryLines(st2, rest, k + 1);
      AppendAssoc(st.sources, [Source(title, u)], ChainlitSeen(rest, k + 1));
    }
  }

  /** The header line of the block changes nothing once the scanner is on. */
  lemma ScanHeader(on: ChainlitSources.ScanState)
    requires on.inSources && on.pending == ""
    ensures ChainlitSources.ScanLine(on, "Sources:") == on
  {
    var header := "Sources:";
    StripUntouched(header);
    assert header[0] == 'S';
    assert !StartsWith(header, "http") by {
      assert header[..4] != "http" by { assert header[0] != 'h'; }
    }
  }

  /** A leading line that leaves the state alone can be dropped. */
  lemma ScanHeaded(st: ChainlitSources.ScanState, header: string, lines: seq<string>)
    requires ChainlitSources.ScanLine(st, header) == st
    ensures ChainlitSources.ScanLines(st, [header] + lines) == ChainlitSources.ScanLines(st, lines)
  {
    assert ([header] + lines)[0] == header;
    assert ([header] + lines)[1..] == lines;
  }

  /** The block itself switches the scanner on and yields one source per citation, with no title left pending. */
  lemma ChainlitBlock(added: seq<(string, string)>)
    requires added != [] && Cited(added) && ChainlitTitles(added)
    ensures ChainlitSources.ScanChunk(ChainlitSources.Start, AgentCitations.Render(AgentCitations.Entries(added)))
            == ChainlitSources.ScanState(true, "", ChainlitSeen(added, 1))
  {
    BlockMarked(added);
    var on := ChainlitSources.ScanState(true, "", []);
    BlockSplit(added);
    ScanHeader(on);
    ScanHeaded(on, "Sources:", EntryLines(added, 1));
    ScanEntryLines(on, added, 1);
  }

  /** The recorded sources, one per citation, numbered from `k`. */
  lemma {:induction false} ChainlitSeenIs(added: seq<(string, string)>, k: nat)
    ensures |ChainlitSeen(added, k)| == |added|
    ensures forall i :: 0 <= i < |added| ==> ChainlitSeen(added, k)[i] == Source(TitleLine(k + i, added[i].0), added[i].1)
    decreases |added|
  {
    if added != [] {
      ChainlitSeenIs(added[1..], k + 1);
      forall i | 1 <= i < |added|
        ensures ChainlitSeen(added, k)[i] == Source(TitleLine(k + i, added[i].0), added[i].1)
      {
        assert ChainlitSeen(added, k)[i] == ChainlitSeen(added[1..], k + 1)[i - 1];
        assert added[1..][i - 1] == added[i];
      }
    }
  }

  /** The `i`-th citation comes back titled by its title line `"[i + 1] title"`. */
  predicate ChainlitRead(sources: seq<Source>, added: seq<(string, string)>) {
    && |sources| == |added|
    && forall i :: 0 <= i < |added| ==> sources[i] == Source(TitleLine(i + 1, added[i].0), added[i].1)
  }

  /** The sources the block yields, for any citation list, the empty one included. */
  lemma ChainlitBlockSources(added: seq<(string, string)>)
    requires Cited(added) && ChainlitTitles(added)
    ensures ChainlitRead(ChainlitSources.ScanChunk(ChainlitSources.Start, AgentCitations.Render(AgentCitations.Entries(added))).sources, added)
  {
    if added == [] {
      assert AgentCitations.Render(AgentCitations.Entries(added)) == "";
    } else {
      ChainlitBlock(added);
      ChainlitSeenIs(added, 1);
    }
  }

  /** Chunks without the marker leave the initial state alone. */
  lemma ChainlitBefore(before: seq<string>)
    requires forall i :: 0 <= i < |before| ==> !Contains(Lower(before[i]), "sources:")
    ensures ChainlitSources.ScanChunks(ChainlitSources.Start, before) == ChainlitSources.Start
  {
    forall i | 0 <= i < |before| ensures !ChainlitSources.Marker(before[i]) {
      MarkerLower(before[i]);
    }
    ChainlitSources.NoSourceBeforeMarker(ChainlitSources.Start, before);
  }

  /** Quiet chunks leave any state alone. */
  lemma ChainlitAfter(st: ChainlitSources.ScanState, after: seq<string>)
    requires forall i :: 0 <= i < |after| ==> Quiet(after[i])
    ensures ChainlitSources.ScanChunks(st, after) == st
  {
    forall i | 0 <= i < |after| ensures !ChainlitSources.Marker(after[i]) {
      MarkerLower(after[i]);
    }
    ChainlitSources.QuietChunks(st, after);
  }

  /**
   * Chainlit round trip: when no chunk before the block mentions "sources:"
   * and the chunks after it are quiet, the scanner records exactly one source
   * per citation, in order, titled `"[i] title"` with the citation's url.
   */
  lemma ChainlitRoundTrip(before: seq<string>, added: seq<(string, string)>, after: seq<string>)
    requires forall i :: 0 <= i < |before| ==> !Contains(Lower(before[i]), "sources:")
    requires forall i :: 0 <= i < |after| ==> Quiet(after[i])
    requires Cited(added) && ChainlitTitles(added)
    ensures ChainlitRead(ChainlitSources.ScanChunks(ChainlitSources.Start,
              before + [AgentCitations.Render(AgentCitations.Entries(added))] + after).sources, added)
  {
    var start := ChainlitSources.Start;
    var block := AgentCitations.Render(AgentCitations.Entries(added));
    ChainlitBefore(before);
    AppendAssoc(before, [block], after);
    ChainlitSources.ScanChunksAppend(start, before, [block] + after);
    assert ([block] + after)[1..] == after;
    var mid := ChainlitSources.ScanChunk(start, block);
    assert ChainlitSources.ScanChunks(start, [block] + after) == ChainlitSources.ScanChunks(mid, after);
    ChainlitAfter(mid, after);
    ChainlitBlockSources(added);
  }

  // -------------------------------------------------------------- backend

  /** Stripping `[`, `]`, digits and `.` off `"[k] title"` leaves `" title"`. */
  lemma BackendTitle(k: nat, title: string)
    requires title == "" || title[|title| - 1] !in BackendResearch.TitleChars
    ensures Trim(TitleLine(k, title), BackendResearch.TitleChars) == " " + title
  {
    var cs := BackendResearch.TitleChars;
    var n := NatToString(k);
    var p := "[" + n + "]";
    assert TitleLine(k, title) == p + (" " + title);
    forall i | 0 <= i < |p| ensures p[i] in cs {
      if 0 < i < |p| - 1 {
        assert p[i] == n[i - 1];
        assert '0' <= n[i - 1] <= '9';
      }
    }
    TrimLeftPrefix(p, " " + title, cs);
  }

  /** One title line and its url line make one source. */
  lemma BackendPair(k: nat, t: string, u: string)
    requires t == "" || t[|t| - 1] !in BackendResearch.TitleChars
    requires Link(u)
    ensures BackendResearch.PairAt(TitleLine(k, t), u) == [Source(" " + t, u)]
  {
    assert u[0] == 'h' by {
      assert u[..4] == "http";
    }
    StripUntouched(u);
    BackendTitle(k, t);
  }

  /** The sources the backend saves from entry lines: `(" " + title, url)` per citation. */
  function BackendSeen(added: seq<(string, string)>): seq<Source>
    decreases |added|
  {
    if added == [] then [] else [Source(" " + added[0].0, added[0].1)] + BackendSeen(added[1..])
  }

  lemma {:induction false} BackendSeenSeq(added: seq<(string, string)>)
    ensures BackendSeen(added) == seq(|added|, i requires 0 <= i < |added| => Source(" " + added[i].0, added[i].1))
    decreases |added|
  {
    if added != [] {
      var rest := added[1..];
      BackendSeenSeq(rest);
      assert seq(|added|, i requires 0 <= i < |added| => Source(" " + added[i].0, added[i].1))
          == [Source(" " + added[0].0, added[0].1)] + seq(|rest|, i requires 0 <= i < |rest| => Source(" " + rest[i].0, rest[i].1));
    }
  }

  /** The pairs `(lines[from], lines[from + 1]), ...` over entry lines give `(" title", url)` per citation. */
  lemma {:induction false} PairEntryLines(lines: seq<string>, from: nat, added: seq<(string, string)>, k: nat)
    requires from <= |lines| && lines[from..] == EntryLines(added, k)
    requires Cited(added) && BackendTitles(added)
    ensures BackendResearch.PairSources(lines, from) == BackendSeen(added)
    decreases |added|
  {
    if added == [] {
      assert |lines[from..]| == 0;
    } else {
      var t, u := added[0].0, added[0].1;
      var rest := added[1..];
      assert lines[from] == TitleLine(k, t);
      assert lines[from + 1] == u;
      assert lines[from + 2..] == lines[from..][2..];
      assert Cited(rest) && BackendTitles(rest) by {
        forall i | 0 <= i < |rest| ensures rest[i] == added[i + 1] { }
      }
      BackendPair(k, t, u);
      PairEntryLines(lines, from + 2, rest, k + 1);
    }
  }

  /** The block gives one source per citation. */
  lemma BackendBlock(added: seq<(string, string)>)
    requires added != [] && Cited(added) && BackendTitles(added)
    ensures BackendResearch.ChunkSources(AgentCitations.Render(AgentCitations.Entries(added)))
            == seq(|added|, i requires 0 <= i < |added| => Source(" " + added[i].0, added[i].1))
  {
    var block := AgentCitations.Render(AgentCitations.Entries(added));
    BlockMarked(added);
    MarkerLower(block);
    BlockSplit(added);
    var lines := ["Sources:"] + EntryLines(added, 1);
    assert lines[1..] == EntryLines(added, 1);
    PairEntryLines(lines, 1, added, 1);
    BackendSeenSeq(added);
  }

  /** The sources of the block, for any citation list, the empty one included. */
  lemma BackendBlockSources(added: seq<(string, string)>)
    requires Cited(added) && BackendTitles(added)
    ensures BackendResearch.AllSources([AgentCitations.Render(AgentCitations.Entries(added))])
            == seq(|added|, i requires 0 <= i < |added| => Source(" " + added[i].0, added[i].1))
  {
    var block := AgentCitations.Render(AgentCitations.Entries(added));
    assert [block][1..] == [];
    assert BackendResearch.AllSources([block]) == BackendResearch.ChunkSources(block) + [];
    if added == [] {
      assert block == "";
    } else {
      BackendBlock(added);
    }
  }

  /** Chunks without the marker contribute nothing. */
  lemma BackendQuiet(chunks: seq<string>)
    requires forall i :: 0 <= i < |chunks| ==> !Contains(Lower(chunks[i]), "sources:")
    ensures BackendResearch.AllSources(chunks) == []
  {
    forall i | 0 <= i < |chunks| ensures !BackendResearch.Marker(chunks[i]) {
      MarkerLower(chunks[i]);
    }
    BackendResearch.NoMarkerNoSources(chunks);
  }

  /**
   * Backend round trip: when no chunk before or after the block mentions
   * "sources:", the router saves exactly one source per citation, in order,
   * with the citation's url and its title behind one space.
   */
  lemma BackendRoundTrip(before: seq<string>, added: seq<(string, string)>, after: seq<string>)
    requires forall i :: 0 <= i < |before| ==> !Contains(Lower(before[i]), "sources:")
    requires forall i :: 0 <= i < |after| ==> !Contains(Lower(after[i]), "sources:")
    requires Cited(added) && BackendTitles(added)
    ensures BackendResearch.AllSources(before + [AgentCitations.Render(AgentCitations.Entries(added))] + after)
            == seq(|added|, i requires 0 <= i < |added| => Source(" " + added[i].0, added[i].1))
  {
    var block := AgentCitations.Render(AgentCitations.Entries(added));
    BackendQuiet(before);
    BackendQuiet(after);
    BackendResearch.AllSourcesAppend(before, [block]);
    BackendResearch.AllSourcesAppend(before + [block], after);
    BackendBlockSources(added);
    assert [] + BackendResearch.AllSources([block]) + [] == BackendResearch.AllSources([block]);
  }

  // ------------------------------------------------- from the research run

  /** A completed run closes with the sources block of the citations it found and the finished line. */
  lemma ClosingFragments(question: string, env: ResearchModel.Environment)
    requires ResearchModel.WellFormed(env) && env.client.ClientBuilt?
    requires env.first.FirstReplied? && env.final.FinalAnswered?
    ensures var f := ResearchModel.Research(question, env).fragments;
      var found := ResearchModel.Steps(env.first.toolCalls, env.searches).found;
      && |f| >= 2
      && f == f[..|f| - 2] + [AgentCitations.Render(AgentCitations.Entries(found))] + [f[|f| - 1]]
      && f[|f| - 1] == ResearchModel.Finished
  {
    var f := ResearchModel.Research(question, env).fragments;
    var found := ResearchModel.Steps(env.first.toolCalls, env.searches).found;
    assert f == f[..|f| - 2] + [AgentCitations.Render(AgentCitations.Entries(found))] + [f[|f| - 1]];
  }

  /** The citations a completed run streams, as the Chainlit front end records them. */
  lemma ChainlitReadsResearch(question: string, env: ResearchModel.Environment)
    requires ResearchModel.WellFormed(env) && env.client.ClientBuilt?
    requires env.first.FirstReplied? && env.final.FinalAnswered?
    requires var f := ResearchModel.Research(question, env).fragments;
      forall i :: 0 <= i < |f| - 2 ==> !Contains(Lower(f[i]), "sources:")
    requires var found := ResearchModel.Steps(env.first.toolCalls, env.searches).found;
      Cited(found) && ChainlitTitles(found)
    ensures var found := ResearchModel.Steps(env.first.toolCalls, env.searches).found;
      ChainlitRead(ChainlitSources.ScanChunks(ChainlitSources.Start, ResearchModel.Research(question, env).fragments).sources, found)
  {
    var f := ResearchModel.Research(question, env).fragments;
    var found := ResearchModel.Steps(env.first.toolCalls, env.searches).found;
    ClosingFragments(question, env);
    FinishedQuiet(f[|f| - 1]);
    ChainlitRoundTrip(f[..|f| - 2], found, [f[|f| - 1]]);
  }

  /** The citations a completed run streams, as the backend router saves them. */
  lemma BackendReadsResearch(question: string, env: ResearchModel.Environment)
    requires ResearchModel.WellFormed(env) && env.client.ClientBuilt?
    requires env.first.FirstReplied? && env.final.FinalAnswered?
    requires var f := ResearchModel.Research(question, env).fragments;
      forall i :: 0 <= i < |f| - 2 ==> !Contains(Lower(f[i]), "sources:")
    requires var found := ResearchModel.Steps(env.first.toolCalls, env.searches).found;
      Cited(found) && BackendTitles(found)
    ensures var found := ResearchModel.Steps(env.first.toolCalls, env.searches).found;
      BackendResearch.AllSources(ResearchModel.Research(question, env).fragments)
      == seq(|found|, i requires 0 <= i < |found| => Source(" " + found[i].0, found[i].1))
  {
    var f := ResearchModel.Research(question, env).fragments;
    var found := ResearchModel.Steps(env.first.toolCalls, env.searches).found;
    ClosingFragments(question, env);
    FinishedQuiet(f[|f| - 1]);
    BackendRoundTrip(f[..|f| - 2], found, [f[|f| - 1]]);
  }
}
