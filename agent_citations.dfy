/**
 * The citation tracker of agent/agent.py: every added source becomes the
 * text `"[n] title\nurl"`, numbered from 1 in the order of addition, with no
 * de-duplication; `format()` renders them as a "Sources:" block.
 */
module AgentCitations {
  import opened Text

  /** `f"[{n}] {title}\n{url}"`. */
  function Entry(number: nat, title: string, url: string): string {
    "[" + NatToString(number) + "] " + title + "\n" + url
  }

  /** The tracker's list after adding the `(title, url)` pairs of `added` in order. */
  function Entries(added: seq<(string, string)>): (r: seq<string>) {
    seq(|added|, i requires 0 <= i < |added| => Entry(i + 1, added[i].0, added[i].1))
  }

  /** `"\n\nSources:\n" + "\n".join(citations) if citations else ""`. */
  function Render(citations: seq<string>): (r: string)
    ensures r == "" <==> citations == []
    ensures citations != [] ==> StartsWith(r, "\n\nSources:\n")
  {
    if citations != [] then "\n\nSources:\n" + Join("\n", citations) else ""
  }

  /** Adding one more pair appends exactly one entry, numbered one past the others. */
  lemma EntriesSnoc(added: seq<(string, string)>, title: string, url: string)
    ensures Entries(added + [(title, url)]) == Entries(added) + [Entry(|added| + 1, title, url)]
  {
    assert |Entries(added + [(title, url)])| == |Entries(added) + [Entry(|added| + 1, title, url)]|;
  }

  /** A source added after the sources of `before` is numbered after all of them. */
  lemma EntriesAfter(before: seq<(string, string)>, here: seq<(string, string)>, after: seq<(string, string)>, j: nat)
    requires j < |here|
    ensures var all := Entries(before + (here + after));
      |before| + j < |all| && all[|before| + j] == Entry(|before| + j + 1, here[j].0, here[j].1)
  {
    assert (before + (here + after))[|before| + j] == here[j];
  }

  /** Each addition gets its own number, even for a url seen before. */
  lemma EntriesDistinct(added: seq<(string, string)>, i: nat, j: nat)
    requires i < j < |added|
    ensures Entries(added)[i] != Entries(added)[j]
  {
    var ei, ej := Entries(added)[i], Entries(added)[j];
    var ni, nj := NatToString(i + 1), NatToString(j + 1);
    if ei == ej {
      assert ei == "[" + ni + "] " + (added[i].0 + "\n" + added[i].1);
      assert ej == "[" + nj + "] " + (added[j].0 + "\n" + added[j].1);
      NumberPrefix(ni, added[i].0 + "\n" + added[i].1, nj, added[j].0 + "\n" + added[j].1);
      NatToStringInjective(i + 1, j + 1);
    }
  }

  /** The digits between `[` and `] ` are determined by the entry. */
  lemma NumberPrefix(a: string, x: string, b: string, y: string)
    requires forall k :: 0 <= k < |a| ==> '0' <= a[k] <= '9'
    requires forall k :: 0 <= k < |b| ==> '0' <= b[k] <= '9'
    requires "[" + a + "] " + x == "[" + b + "] " + y
    ensures a == b
  {
    var s := "[" + a + "] " + x;
    ClosingBracket(a, x);
    ClosingBracket(b, y);
    assert |a| == |b|;
    assert a == s[1..|a| + 1] == b;
  }

  /** In `"[" + a + "] " + x` with `a` all digits, the first `]` is right after `a`. */
  lemma ClosingBracket(a: string, x: string)
    requires forall k :: 0 <= k < |a| ==> '0' <= a[k] <= '9'
    ensures var s := "[" + a + "] " + x;
      s[|a| + 1] == ']' && forall k :: 1 <= k <= |a| ==> s[k] != ']'
  {
    var s := "[" + a + "] " + x;
    forall k | 1 <= k <= |a| ensures s[k] != ']' {
      assert s[k] == a[k - 1];
    }
  }

  /** Different numbers are written differently. */
  lemma {:induction false} NatToStringInjective(m: nat, n: nat)
    requires NatToString(m) == NatToString(n)
    ensures m == n
    decreases m
  {
    if m >= 10 && n >= 10 {
      var sm, sn := NatToString(m), NatToString(n);
      assert sm[..|sm| - 1] == NatToString(m / 10);
      assert sn[..|sn| - 1] == NatToString(n / 10);
      NatToStringInjective(m / 10, n / 10);
      assert DigitChar(m % 10) == sm[|sm| - 1] == DigitChar(n % 10);
      assert "0123456789"[m % 10] == "0123456789"[n % 10];
    } else if m < 10 && n < 10 {
      assert "0123456789"[m] == "0123456789"[n];
    }
  }

  /**
   * The tracker object: `self.citations` (the rendered entries) and the
   * counter `self.n`. The ghost `added` is the history of `add` calls.
   */
  class CitationManager {
    var citations: seq<string>
    var n: nat
    ghost var added: seq<(string, string)>

    ghost predicate Valid()
      reads this
    {
      n == |added| + 1 && citations == Entries(added)
    }

    constructor ()
      ensures Valid() && added == [] && citations == [] && n == 1
    {
      citations := [];
      n := 1;
      added := [];
    }

    /** Appends `"[n] title\nurl"` with the current counter and advances it. */
    method Add(title: string, url: string)
      requires Valid()
      modifies this
      ensures Valid()
      ensures added == old(added) + [(title, url)]
      ensures citations == old(citations) + [Entry(old(n), title, url)]
      ensures n == old(n) + 1
    {
      EntriesSnoc(added, title, url);
      citations := citations + [Entry(n, title, url)];
      n := n + 1;
      added := added + [(title, url)];
    }

    /** The sources block: empty exactly when nothing was added. */
    function Format(): (r: string)
      reads this
      requires Valid()
      ensures r == "" <==> added == []
      ensures r == Render(Entries(added))
    {
      Render(citations)
    }
  }
}
