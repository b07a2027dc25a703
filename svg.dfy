/**
 * Description text for the cards: the word-wrapped lines are cut to three,
 * the third gets an ellipsis, and each line becomes a `tspan` element.
 */
module Svg {
  import opened Text

  /** The index of the last line kept. */
  const MaxLines := 2
  /** The column the description is wrapped at. */
  const WrapColumns := 60
  const Ellipsis := "..."

  /** The markup of one line; the text is not escaped. */
  function Tspan(line: string): string {
    "<tspan dy=\"1.25em\" x=\"0\">" + line + "</tspan>"
  }

  /** The text of the wrapped line at index `idx` once the ellipsis rule is applied. */
  function Marked(line: string, idx: nat): string {
    if idx == MaxLines then line + Ellipsis else line
  }

  function Min(a: int, b: int): int {
    if a <= b then a else b
  }

  /**
   * The lines of `lines`, the first of which sits at index `idx` of the wrap,
   * that are kept (index at most MaxLines), each with the ellipsis rule applied.
   */
  function KeptFrom(lines: seq<string>, idx: nat): (kept: seq<string>)
    ensures |kept| == if idx > MaxLines then 0 else Min(|lines|, MaxLines + 1 - idx)
    ensures forall i :: 0 <= i < |kept| ==> kept[i] == Marked(lines[i], idx + i)
    decreases |lines|
  {
    if lines == [] then []
    else
      var rest := KeptFrom(lines[1..], idx + 1);
      if idx <= MaxLines then [Marked(lines[0], idx)] + rest else rest
  }

  /** The wrapped description as markup: kept lines as `tspan`s joined by newlines. */
  function WrapText(textWrap: (string, nat) -> seq<string>, text: string): (markup: string)
  {
    var kept := KeptFrom(textWrap(text, WrapColumns), 0);
    Join(seq(|kept|, i requires 0 <= i < |kept| => Tspan(kept[i])), "\n")
  }

  /**
   * Reading the markup back line by line gives one `tspan` per kept line: at most
   * three, in wrap order, the text unchanged except for the ellipsis on the line at
   * index 2, which it gets even when nothing was cut.
   */
  lemma {:induction false} WrapTextLines(textWrap: (string, nat) -> seq<string>, text: string)
    requires |textWrap(text, WrapColumns)| > 0
    requires forall i :: 0 <= i < |textWrap(text, WrapColumns)| ==> '\n' !in textWrap(text, WrapColumns)[i]
    ensures var lines := textWrap(text, WrapColumns);
      var out := Split(WrapText(textWrap, text), '\n');
      |out| == Min(|lines|, MaxLines + 1) &&
      forall i :: 0 <= i < |out| ==>
        out[i] == Tspan(if i == MaxLines then lines[i] + Ellipsis else lines[i])
  {
    var lines := textWrap(text, WrapColumns);
    var kept := KeptFrom(lines, 0);
    var parts := seq(|kept|, i requires 0 <= i < |kept| => Tspan(kept[i]));
    forall i | 0 <= i < |parts|
      ensures '\n' !in parts[i]
    {
      assert '\n' !in lines[i];
      assert parts[i] == "<tspan dy=\"1.25em\" x=\"0\">" + Marked(lines[i], i) + "</tspan>";
    }
    SplitJoin(parts, '\n');
  }
}
