/**
 * Named-placeholder templates, the part of `text/template` the two embedded
 * service definitions use: every placeholder is a bare `{{.Field}}`.
 *
 * A template is kept line by line, each line a sequence of literal pieces and
 * holes. The holes range over an enumeration `F` of the fields of the value
 * the template is executed with, so rendering cannot meet an unknown field.
 */
module Template {
  import opened Text

  datatype Piece<F> = Lit(text: string) | Hole(field: F)

  /** The template whose line `k` is `line(k)`, for `k` below `n`. */
  function Lines<F>(n: nat, line: int -> seq<Piece<F>>): (t: seq<seq<Piece<F>>>)
    ensures |t| == n && forall k :: 0 <= k < n ==> t[k] == line(k)
  {
    seq(n, k requires 0 <= k < n => line(k))
  }

  /** One line, with every hole replaced by the value of its field. */
  function RenderLine<F>(line: seq<Piece<F>>, value: F -> string): string
    decreases |line|
  {
    if line == [] then ""
    else
      var head := match line[0]
        case Lit(text) => text
        case Hole(f) => value(f);
      head + RenderLine(line[1..], value)
  }

  /** The rendered lines of a template, in order. */
  function RenderedLines<F>(t: seq<seq<Piece<F>>>, value: F -> string): (r: seq<string>)
    ensures |r| == |t|
    ensures forall k :: 0 <= k < |t| ==> r[k] == RenderLine(t[k], value)
  {
    seq(|t|, k requires 0 <= k < |t| => RenderLine(t[k], value))
  }

  /** The whole rendered text: the rendered lines separated by newlines. */
  function Render<F>(t: seq<seq<Piece<F>>>, value: F -> string): string {
    Join(RenderedLines(t, value), "\n")
  }

  /** `s` as a whole line of a text: between the newline ending the line before and its own. */
  function WholeLine(s: string): string {
    "\n" + s + "\n"
  }

  /** No literal of the template contains a newline. */
  predicate LiteralsSingleLine<F>(t: seq<seq<Piece<F>>>) {
    forall k, j :: 0 <= k < |t| && 0 <= j < |t[k]| && t[k][j].Lit? ==> '\n' !in t[k][j].text
  }

  lemma {:induction false} RenderLineSingleLine<F>(line: seq<Piece<F>>, value: F -> string)
    requires forall j :: 0 <= j < |line| && line[j].Lit? ==> '\n' !in line[j].text
    requires forall j :: 0 <= j < |line| && line[j].Hole? ==> '\n' !in value(line[j].field)
    ensures '\n' !in RenderLine(line, value)
    decreases |line|
  {
    if line != [] {
      RenderLineSingleLine(line[1..], value);
      assert forall j :: 1 <= j < |line| ==> line[1..][j - 1] == line[j];
    }
  }

  /**
   * Substitution never shifts lines: when neither the literals nor the
   * field values contain a newline, line `k` of the rendered text is exactly
   * line `k` of the template with its holes filled.
   */
  lemma RenderKeepsLines<F>(t: seq<seq<Piece<F>>>, value: F -> string)
    requires |t| > 0
    requires LiteralsSingleLine(t)
    requires forall k, j :: 0 <= k < |t| && 0 <= j < |t[k]| && t[k][j].Hole? ==> '\n' !in value(t[k][j].field)
    ensures Split(Render(t, value), '\n') == RenderedLines(t, value)
  {
    var lines := RenderedLines(t, value);
    forall k | 0 <= k < |t|
      ensures '\n' !in lines[k]
    {
      RenderLineSingleLine(t[k], value);
    }
    SplitJoin(lines, '\n');
  }

  /** How the line shapes the embedded templates use render. */
  lemma RenderLineShapes<F>(value: F -> string)
    ensures RenderLine([], value) == ""
    ensures forall a :: RenderLine([Lit(a)], value) == a
    ensures forall a, f :: RenderLine([Lit(a), Hole(f)], value) == a + value(f)
    ensures forall a, f, b :: RenderLine([Lit(a), Hole(f), Lit(b)], value) == a + value(f) + b
  {
    forall a
      ensures RenderLine([Lit(a)], value) == a
    {
      var line: seq<Piece<F>> := [Lit(a)];
      assert line[1..] == [];
    }
    forall a, f
      ensures RenderLine([Lit(a), Hole(f)], value) == a + value(f)
    {
      var line: seq<Piece<F>> := [Lit(a), Hole(f)];
      assert line[1..] == [Hole(f)] && line[1..][1..] == [];
    }
    forall a, f, b
      ensures RenderLine([Lit(a), Hole(f), Lit(b)], value) == a + value(f) + b
    {
      var line: seq<Piece<F>> := [Lit(a), Hole(f), Lit(b)];
      assert line[1..] == [Hole(f), Lit(b)] && line[1..][1..] == [Lit(b)] && line[1..][1..][1..] == [];
      assert RenderLine(line[1..][1..], value) == b + "";
      assert RenderLine(line[1..], value) == value(f) + b;
      assert RenderLine(line, value) == a + (value(f) + b) == a + value(f) + b;
    }
  }

  /**
   * A line `a{{.f}}b` of a template, neither the first nor the last, renders
   * to `a`, the value of `f`, and `b`, and stands in the rendered text as a
   * whole line, between two newlines.
   */
  lemma RenderHasFilledLine<F>(t: seq<seq<Piece<F>>>, value: F -> string, k: nat, a: string, f: F, b: string)
    requires 0 < k && k + 1 < |t| && t[k] == [Lit(a), Hole(f), Lit(b)]
    ensures Occurs(Render(t, value), WholeLine(a + value(f) + b))
  {
    RenderHasInnerLine(t, value, k);
    RenderLineShapes(value);
  }

  /**
   * A line `a{{.f}}` of a template, neither the first nor the last, renders
   * to `a` followed by the value of `f`, and stands in the rendered text as
   * a whole line, between two newlines.
   */
  lemma RenderHasPrefixedLine<F>(t: seq<seq<Piece<F>>>, value: F -> string, k: nat, a: string, f: F)
    requires 0 < k && k + 1 < |t| && t[k] == [Lit(a), Hole(f)]
    ensures Occurs(Render(t, value), WholeLine(a + value(f)))
  {
    RenderHasInnerLine(t, value, k);
    RenderLineShapes(value);
  }

  /** Every rendered template line but the first and the last stands in the rendered text between two newlines. */
  lemma RenderHasInnerLine<F>(t: seq<seq<Piece<F>>>, value: F -> string, k: nat)
    requires 0 < k && k + 1 < |t|
    ensures Occurs(Render(t, value), WholeLine(RenderLine(t[k], value)))
  {
    JoinHasInner(RenderedLines(t, value), "\n", k);
  }

  /** Every rendered template line appears in the rendered text. */
  lemma RenderHasLine<F>(t: seq<seq<Piece<F>>>, value: F -> string, k: nat)
    requires k < |t|
    ensures Occurs(Render(t, value), RenderLine(t[k], value))
  {
    JoinHasElement(RenderedLines(t, value), "\n", k);
  }
}
