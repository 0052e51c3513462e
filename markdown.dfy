/**
 * The two line primitives both renderers write with, `println` and
 * `header`, over a buffer of chunks that spells out the page's text.
 */
module Markdown {
  import opened Documents

  /**
   * One write: `Line(t)` is `println(t)`, the text and a newline;
   * `Heading(l, t)` is `header(l, t)`, the title behind l hash marks and a
   * space, then a blank line.
   */
  datatype Chunk = Line(text: string) | Heading(level: nat, title: string)

  /** `"#".repeat(n)` */
  function Hashes(n: nat): (r: string)
    ensures |r| == n
    ensures forall i :: 0 <= i < n ==> r[i] == '#'
  {
    if n == 0 then "" else Hashes(n - 1) + "#"
  }

  function ChunkText(c: Chunk): string
  {
    match c
    case Line(t) => t + "\n"
    case Heading(l, t) => Hashes(l) + " " + t + "\n\n"
  }

  /** The characters a page's chunks put in its file. */
  function PageText(cs: seq<Chunk>): string
  {
    if |cs| == 0 then "" else PageText(cs[..|cs| - 1]) + ChunkText(cs[|cs| - 1])
  }

  /** Writing two runs of chunks one after the other writes the two texts one after the other. */
  lemma {:induction false} PageTextConcat(a: seq<Chunk>, b: seq<Chunk>)
    ensures PageText(a + b) == PageText(a) + PageText(b)
    decreases |b|
  {
    if |b| == 0 {
      assert a + b == a;
    } else {
      var k := |b| - 1;
      assert (a + b)[..|a + b| - 1] == a + b[..k];
      PageTextConcat(a, b[..k]);
      AppendTwice(PageText(a), PageText(b[..k]), ChunkText(b[k]));
    }
  }

  /** `println(s)` adds s and a newline to the page's text; an empty s adds only the newline. */
  lemma LineText(cs: seq<Chunk>, s: string)
    ensures PageText(cs + [Line(s)]) == PageText(cs) + s + "\n"
  {
    assert (cs + [Line(s)])[..|cs|] == cs;
  }

  /** `header(l, s)` adds l hash marks, a space, s and two newlines to the page's text. */
  lemma HeadingText(cs: seq<Chunk>, level: nat, title: string)
    ensures PageText(cs + [Heading(level, title)]) == PageText(cs) + Hashes(level) + " " + title + "\n\n"
  {
    assert (cs + [Heading(level, title)])[..|cs|] == cs;
  }

  /** The headings of a page, in order, as (level, title) pairs. */
  function Outline(cs: seq<Chunk>): seq<(nat, string)>
  {
    if |cs| == 0 then []
    else
      Outline(cs[..|cs| - 1]) + match cs[|cs| - 1] {
        case Heading(l, t) => [(l, t)]
        case Line(_) => []
      }
  }

  lemma {:induction false} OutlineConcat(a: seq<Chunk>, b: seq<Chunk>)
    ensures Outline(a + b) == Outline(a) + Outline(b)
    decreases |b|
  {
    if |b| == 0 {
      assert a + b == a;
    } else {
      assert (a + b)[..|a + b| - 1] == a + b[..|b| - 1];
      OutlineConcat(a, b[..|b| - 1]);
    }
  }

  /** A page made only of lines has no headings. */
  lemma {:induction false} OutlineOfLines(cs: seq<Chunk>)
    requires AllLines(cs)
    ensures Outline(cs) == []
    decreases |cs|
  {
    if |cs| > 0 {
      assert AllLines(cs[..|cs| - 1]);
      OutlineOfLines(cs[..|cs| - 1]);
    }
  }

  /** `header(level, title)` followed by the body's writes. */
  function Titled(level: nat, title: string, body: seq<Chunk>): seq<Chunk>
  {
    [Heading(level, title)] + body
  }

  /** A titled part is its heading followed by the body, chunk for chunk. */
  lemma TitledShape(level: nat, title: string, body: seq<Chunk>)
    ensures |Titled(level, title, body)| == |body| + 1
    ensures Titled(level, title, body)[0] == Heading(level, title)
    ensures forall i :: 0 <= i < |body| ==> Titled(level, title, body)[i + 1] == body[i]
  {
  }

  predicate AllLines(cs: seq<Chunk>)
  {
    forall i :: 0 <= i < |cs| ==> cs[i].Line?
  }

  lemma HeadingOutline(level: nat, title: string)
    ensures Outline([Heading(level, title)]) == [(level, title)]
  {
    assert [Heading(level, title)][..0] == [];
  }

  /** A heading over lines contributes exactly that heading to the outline. */
  lemma TitledOutline(level: nat, title: string, body: seq<Chunk>)
    requires AllLines(body)
    ensures Outline(Titled(level, title, body)) == [(level, title)]
  {
    OutlineConcat([Heading(level, title)], body);
    OutlineOfLines(body);
    HeadingOutline(level, title);
  }

  /** Every heading one level deeper; lines unchanged. */
  function Deepen(cs: seq<Chunk>): (r: seq<Chunk>)
    ensures |r| == |cs|
  {
    seq(|cs|, i requires 0 <= i < |cs| =>
      match cs[i] {
        case Heading(l, t) => Heading(l + 1, t)
        case Line(t) => Line(t)
      })
  }

  /**
   * A proof hint only: appending in two steps appends the concatenation,
   * which the renderers need because they write their chunks piece by piece.
   */
  lemma AppendTwice<T>(a: seq<T>, b: seq<T>, c: seq<T>)
    ensures a + b + c == a + (b + c)
  {
  }

  /** A proof hint only: the same for four pieces written one after another. */
  lemma AppendFour(s: seq<Chunk>, a: seq<Chunk>, b: seq<Chunk>, c: seq<Chunk>, d: seq<Chunk>)
    ensures s + a + b + c + d == s + (a + (b + c + d))
  {
    AppendTwice(s, a, b);
    AppendTwice(s, a + b, c);
    AppendTwice(s, a + b + c, d);
    AppendTwice(a, b, c);
    AppendTwice(a, b + c, d);
  }

  lemma DeepenConcat(a: seq<Chunk>, b: seq<Chunk>)
    ensures Deepen(a + b) == Deepen(a) + Deepen(b)
  {
    assert forall i :: 0 <= i < |a| + |b| ==> Deepen(a + b)[i] == (Deepen(a) + Deepen(b))[i];
  }

  /** Lines are unchanged by deepening. */
  lemma DeepenLines(cs: seq<Chunk>)
    requires AllLines(cs)
    ensures Deepen(cs) == cs
  {
  }

  lemma DeepenTitled(level: nat, title: string, body: seq<Chunk>)
    requires AllLines(body)
    ensures Deepen(Titled(level, title, body)) == Titled(level + 1, title, body)
  {
    DeepenConcat([Heading(level, title)], body);
    DeepenLines(body);
  }

  /**
   * The output stream of one page. The source attaches `println` and
   * `header` to a file stream; here the stream is the chunks written so far.
   */
  class PageWriter {
    var chunks: seq<Chunk>

    constructor ()
      ensures chunks == []
    {
      chunks := [];
    }

    /** `println(s)` for a string: writes s (nothing when it is empty), then a newline. */
    method PrintLn(s: string)
      modifies this
      ensures chunks == old(chunks) + [Line(s)]
    {
      chunks := chunks + [Line(s)];
    }

    /** `header(level, s)` */
    method Header(level: nat, title: string)
      modifies this
      ensures chunks == old(chunks) + [Heading(level, title)]
    {
      chunks := chunks + [Heading(level, title)];
    }
  }
}
