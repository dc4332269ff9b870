/**
 * The second citation tracker, agent/utils/citation.py: numbered citation
 * records kept in order of addition, and a "Sources:" block with one
 * `"[n]title\nurl\n"` group per record.
 *
 * As written, `add` cannot run: it assigns the name `citation`, which makes
 * that name local to `add`, so the call `citation(...)` on the right-hand
 * side reads the local before it is bound and raises `UnboundLocalError`.
 * AddAsWritten records that behaviour; CitationManager.Add is the evident
 * intent (build the record with the current number, append it, advance the
 * counter, return the number).
 */
module UtilCitations {
  import opened Wrappers
  import opened Text
  import opened Types

  /** `f"[{c.number}]{c.title}\n{c.url}\n"`: no space after the bracket. */
  function ReferenceLine(c: Citation): string {
    "[" + IntToString(c.number) + "]" + c.title + "\n" + c.url + "\n"
  }

  /** The lines the loop of `format__reference` appends, one per citation. */
  function ReferenceLines(cs: seq<Citation>): (r: seq<string>)
    ensures |r| == |cs|
    ensures forall i :: 0 <= i < |cs| ==> r[i] == ReferenceLine(cs[i])
  {
    seq(|cs|, i requires 0 <= i < |cs| => ReferenceLine(cs[i]))
  }

  /** The heading line of the block. */
  const SourcesHeading: string := "\n\nSources:"

  /** What `format__reference` returns for the records `cs`. */
  function ReferenceText(cs: seq<Citation>): string {
    if cs == [] then "" else Join("\n", [SourcesHeading] + ReferenceLines(cs))
  }

  /** The i-th record carries number i + 1. */
  predicate Numbered(cs: seq<Citation>) {
    forall i :: 0 <= i < |cs| ==> cs[i].number == i + 1
  }

  /**
   * `add` as written: the local `citation` is read before assignment, so
   * every call raises and nothing is appended.
   */
  function AddAsWritten(citations: seq<Citation>, nextNumber: int, title: string, url: string, snippet: string)
    : (r: Result<(seq<Citation>, int, int), PyError>)
    ensures r.Failure? && r.error == UnboundLocalError("citation")
  {
    Failure(UnboundLocalError("citation"))
  }

  class CitationManager {
    var citations: seq<Citation>
    var nextNumber: int

    ghost predicate Valid()
      reads this
    {
      Numbered(citations) && nextNumber == |citations| + 1
    }

    constructor ()
      ensures Valid() && citations == [] && nextNumber == 1
    {
      citations := [];
      nextNumber := 1;
    }

    /** Records the source under the current number, advances the counter and returns the number. */
    method Add(title: string, url: string, snippet: string) returns (number: int)
      requires Valid()
      modifies this
      ensures Valid()
      ensures number == old(nextNumber) && number == |old(citations)| + 1
      ensures citations == old(citations) + [Citation(number, title, url, snippet)]
      ensures nextNumber == old(nextNumber) + 1
    {
      var c := Citation(nextNumber, title, url, snippet);
      citations := citations + [c];
      nextNumber := nextNumber + 1;
      number := c.number;
    }

    /** `add(title, url)`: the snippet takes its default, the empty string. */
    method AddWithoutSnippet(title: string, url: string) returns (number: int)
      requires Valid()
      modifies this
      ensures Valid()
      ensures number == old(nextNumber)
      ensures citations == old(citations) + [Citation(number, title, url, "")]
      ensures nextNumber == old(nextNumber) + 1
    {
      number := Add(title, url, "");
    }

    /** Builds the `lines` list in a loop and joins it with newlines. */
    method FormatReference() returns (r: string)
      ensures r == ReferenceText(citations)
    {
      var cs := citations;
      if cs == [] {
        return "";
      }
      var lines := [SourcesHeading];
      for i := 0 to |cs|
        invariant lines == [SourcesHeading] + ReferenceLines(cs[..i])
      {
        ReferenceLinesSnoc(cs, i);
        lines := lines + [ReferenceLine(cs[i])];
      }
      assert cs[..|cs|] == cs;
      r := Join("\n", lines);
    }
  }

  lemma ReferenceLinesSnoc(cs: seq<Citation>, i: nat)
    requires i < |cs|
    ensures ReferenceLines(cs[..i + 1]) == ReferenceLines(cs[..i]) + [ReferenceLine(cs[i])]
  {
  }

  // ---------------------------------------------------------------- lemmas

  /** The block is empty exactly when there are no records, and otherwise opens with the heading. */
  lemma ReferenceEmpty(cs: seq<Citation>)
    ensures ReferenceText(cs) == "" <==> cs == []
    ensures cs != [] ==> StartsWith(ReferenceText(cs), SourcesHeading)
  {
    if cs != [] {
      JoinEnds("\n", [SourcesHeading] + ReferenceLines(cs));
    }
  }

  /** Rendering one more record appends a newline and its line group. */
  lemma ReferenceSnoc(cs: seq<Citation>, c: Citation)
    ensures ReferenceText(cs + [c]) ==
      if cs == [] then SourcesHeading + "\n" + ReferenceLine(c)
      else ReferenceText(cs) + "\n" + ReferenceLine(c)
  {
    var heads := [SourcesHeading] + ReferenceLines(cs);
    assert ReferenceLines(cs + [c]) == ReferenceLines(cs) + [ReferenceLine(c)];
    assert [SourcesHeading] + ReferenceLines(cs + [c]) == heads + [ReferenceLine(c)];
    JoinAppend("\n", heads, [ReferenceLine(c)]);
    if cs == [] {
      assert heads == [SourcesHeading];
    }
  }

  /** Numbers rise by one per addition, so no two records share one, even for a repeated url. */
  lemma NumbersIncrease(cs: seq<Citation>, i: nat, j: nat)
    requires Numbered(cs) && i < j < |cs|
    ensures cs[i].number < cs[j].number
    ensures cs[j].number - cs[i].number == j - i
  {
  }
}
