/**
 * The Markdown report `SeinfeldRAGTool._format_results` builds from search
 * hits: a header with the query and the number of hits, then one numbered
 * example block per hit.
 */
module Report {
  import opened Wrappers
  import opened Decimal
  import opened PyStr

  /**
   * One search hit as the formatter reads it: the `title` and `description`
   * of its metadata when present, its `text` (`""` when absent) and its
   * `score`, kept as the string Python would print.
   */
  datatype Hit = Hit(title: Option<string>, description: Option<string>, text: string, score: Option<string>)

  /** Dialogue longer than this many characters is cut. */
  const MaxDialogue: nat := 1000
  const Ellipsis: string := "..."
  const MissingScore: string := "N/A"
  const Separator: string := "---\n\n"

  function Min(a: nat, b: nat): nat {
    if a <= b then a else b
  }

  // The fixed text of the header and of the dialogue fence is written as
  // functions of no arguments rather than consts: the solver then expands a
  // literal only where a proof needs its characters, which keeps the loop of
  // `_format_results` and the lemmas below within the resource limit.

  /** The title line of the report. */
  function Banner(): string {
    "## Seinfeld Script Search Results\n"
  }

  /** The line that repeats the query. */
  function QueryLine(query: string): string {
    "**Query:** " + query + "\n"
  }

  /** The line that gives the number of examples found. */
  function CountLine(count: nat): string {
    FoundLabel() + DecimalString(count) + FoundTail()
  }

  function FoundLabel(): string {
    "**Found "
  }

  function FoundTail(): string {
    " relevant examples:**\n\n"
  }

  /** The three header lines. */
  function Header(query: string, count: nat): string {
    Banner() + QueryLine(query) + CountLine(count)
  }

  /** `### Example n`, the first line of the n-th block. */
  function Heading(number: nat): string {
    "### Example " + DecimalString(number) + "\n"
  }

  /** The dialogue as shown: `text[:1000]`, followed by `...` when the text is longer. */
  function Excerpt(text: string): (r: string)
    ensures |text| <= MaxDialogue ==> r == text
    ensures |text| > MaxDialogue ==>
      |r| == MaxDialogue + |Ellipsis| && r[..MaxDialogue] == text[..MaxDialogue] && r[MaxDialogue..] == Ellipsis
  {
    text[..Min(|text|, MaxDialogue)] + (if |text| > MaxDialogue then Ellipsis else "")
  }

  /** The label and opening fence of the dialogue block. */
  function DialogueOpen(): string {
    "**Dialogue:**\n```\n"
  }

  /** The closing fence of the dialogue block. */
  function DialogueClose(): string {
    "\n```\n"
  }

  /**
   * The fenced dialogue block; nothing at all for an empty text. Between the
   * fences stands the excerpt and nothing else.
   */
  function DialogueBlock(text: string): (r: string)
    ensures text == [] <==> r == []
    ensures text != [] ==> StartsWith(r, DialogueOpen()) && EndsWith(r, DialogueClose())
    ensures text != [] ==>
      |r| == |DialogueOpen()| + |Excerpt(text)| + |DialogueClose()| &&
      r[|DialogueOpen()|..|r| - |DialogueClose()|] == Excerpt(text)
  {
    if text == [] then []
    else
      Middle(DialogueOpen(), Excerpt(text), DialogueClose());
      Framed(DialogueOpen(), Excerpt(text), [], [], DialogueClose());
      DialogueOpen() + Excerpt(text) + DialogueClose()
  }

  /** The optional `**Episode:**` and `**Context:**` lines. */
  function MetadataLines(title: Option<string>, description: Option<string>): (r: string)
    ensures r == [] <==> title.None? && description.None?
    ensures title.Some? ==> StartsWith(r, "**Episode:** " + title.value + "\n")
    ensures description.Some? ==> EndsWith(r, "**Context:** " + description.value + "\n")
    ensures title.None? ==> r == (if description.Some? then "**Context:** " + description.value + "\n" else [])
    ensures description.None? ==> r == (if title.Some? then "**Episode:** " + title.value + "\n" else [])
    ensures |r| == (if title.Some? then |"**Episode:** " + title.value + "\n"| else 0)
                 + (if description.Some? then |"**Context:** " + description.value + "\n"| else 0)
  {
    (if title.Some? then "**Episode:** " + title.value + "\n" else [])
    + (if description.Some? then "**Context:** " + description.value + "\n" else [])
  }

  /** The score line; `N/A` stands in for a missing score. */
  function ScoreLine(score: Option<string>): (r: string)
    ensures score.None? ==> r == "**Relevance Score:** N/A\n\n"
    ensures score.Some? ==> r == "**Relevance Score:** " + score.value + "\n\n"
  {
    "**Relevance Score:** " + score.GetOr(MissingScore) + "\n\n"
  }

  /** The block for the hit numbered `number`. */
  function Example(number: nat, hit: Hit): string {
    Heading(number) + MetadataLines(hit.title, hit.description) + DialogueBlock(hit.text)
    + ScoreLine(hit.score) + Separator
  }

  /** The example blocks, numbered from 1 in the order of the hits. */
  function Examples(hits: seq<Hit>): (blocks: seq<string>)
    ensures |blocks| == |hits|
  {
    seq(|hits|, j requires 0 <= j < |hits| => Example(j + 1, hits[j]))
  }

  /** The parts written one after the other. */
  function Concat(parts: seq<string>): string {
    if parts == [] then [] else Concat(parts[..|parts| - 1]) + parts[|parts| - 1]
  }

  /** What `_format_results(results, query)` returns. */
  function FormattedReport(hits: seq<Hit>, query: string): string {
    Header(query, |hits|) + Concat(Examples(hits))
  }

  /** Every example block opens with its numbered heading and closes with the separator. */
  lemma ExampleLayout(number: nat, hit: Hit)
    ensures StartsWith(Example(number, hit), Heading(number))
    ensures EndsWith(Example(number, hit), Separator)
  {
    Framed(Heading(number), MetadataLines(hit.title, hit.description), DialogueBlock(hit.text),
           ScoreLine(hit.score), Separator);
  }

  lemma Framed(a: string, b: string, c: string, d: string, e: string)
    ensures StartsWith(a + b + c + d + e, a) && EndsWith(a + b + c + d + e, e)
  {
    assert (a + b + c + d + e)[..|a|] == a;
    assert (a + b + c + d + e)[|a + b + c + d|..] == e;
  }

  /** Every block of the report opens with its own number, counting from 1, and closes with the separator. */
  lemma ExamplesLayout(hits: seq<Hit>)
    ensures forall j | 0 <= j < |hits| ::
      StartsWith(Examples(hits)[j], Heading(j + 1)) && EndsWith(Examples(hits)[j], Separator)
  {
    forall j | 0 <= j < |hits|
      ensures StartsWith(Examples(hits)[j], Heading(j + 1)) && EndsWith(Examples(hits)[j], Separator)
    {
      ExampleLayout(j + 1, hits[j]);
    }
  }

  /**
   * The report opens with the title, the query and the count line, and the
   * digits between `**Found ` and ` relevant examples:**` read back as the
   * number of hits.
   */
  lemma ReportOpening(hits: seq<Hit>, query: string)
    ensures StartsWith(FormattedReport(hits, query), Banner() + QueryLine(query) + CountLine(|hits|))
    ensures var line := CountLine(|hits|);
      |FoundLabel()| + |FoundTail()| <= |line| &&
      var digits := line[|FoundLabel()|..|line| - |FoundTail()|];
      AllDigits(digits) && ParseDecimal(digits) == |hits|
  {
    var r := FormattedReport(hits, query);
    assert r[..|Header(query, |hits|)|] == Header(query, |hits|);
    Middle(FoundLabel(), DecimalString(|hits|), FoundTail());
    ParseDecimalString(|hits|);
  }

  /** The middle of three parts, cut out again. */
  lemma Middle(a: string, d: string, b: string)
    ensures (a + d + b)[|a|..|a + d + b| - |b|] == d
  {
  }

  /** Different numbers give different headings, so no two blocks share a number. */
  lemma HeadingsDistinct(m: nat, n: nat)
    requires Heading(m) == Heading(n)
    ensures m == n
  {
    var p := "### Example ";
    assert DecimalString(m) == Heading(m)[|p|..|Heading(m)| - 1];
    assert DecimalString(n) == Heading(n)[|p|..|Heading(n)| - 1];
    DecimalInjective(m, n);
  }

  /**
   * One more hit adds one more block at the end, numbered after the others,
   * and raises the count in the header; the blocks before it are unchanged.
   */
  lemma ReportAppend(hits: seq<Hit>, hit: Hit, query: string)
    ensures FormattedReport(hits + [hit], query)
      == Header(query, |hits| + 1) + Concat(Examples(hits)) + Example(|hits| + 1, hit)
  {
    var all := Examples(hits + [hit]);
    assert all[..|hits|] == Examples(hits);
    assert all[|hits|] == Example(|hits| + 1, hit);
  }

  /**
   * Writing the five parts of block `i` after the first `i` blocks writes
   * the first `i + 1` blocks.
   */
  lemma ConcatNext(prefix: string, blocks: seq<string>, i: nat,
                   a: string, b: string, c: string, d: string, e: string)
    requires i < |blocks| && blocks[i] == a + b + c + d + e
    ensures prefix + Concat(blocks[..i]) + a + b + c + d + e == prefix + Concat(blocks[..i + 1])
  {
    var written := prefix + Concat(blocks[..i]);
    assert written + a + b + c + d + e == written + (a + b + c + d + e);
    assert blocks[..i + 1][..i] == blocks[..i];
    assert written + blocks[i] == prefix + (Concat(blocks[..i]) + blocks[i]);
  }
}
