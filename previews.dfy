/** Data-preview handling shared by the three front ends: classifying a raw
    preview block as a markdown table or as rows, and finding the first
    non-empty block, which is the only one any front end displays. */
module Previews {
  import opened Common
  import opened Text

  datatype PreviewBlock = Table(markdown: string) | Rows(lines: seq<string>)

  /** `len(preview) == 1 and '\n' in preview[0] and '|' in preview[0]`. */
  predicate IsTableBlock(p: seq<string>) {
    |p| == 1 && '\n' in p[0] && '|' in p[0]
  }

  /** A single string holding both a newline and a pipe is a table, kept
      verbatim; anything else is a list of rows, kept as it came. */
  function Classify(p: seq<string>): (b: PreviewBlock)
    ensures b.Table? <==> IsTableBlock(p)
    ensures b.Table? ==> [b.markdown] == p
    ensures b.Rows? ==> b.lines == p
  {
    if IsTableBlock(p) then Table(p[0]) else Rows(p)
  }

  /** One displayed line: plain, or prefixed by its 1-based number. */
  datatype Line = Plain(text: string) | Numbered(number: nat, text: string)

  /** What a front end shows of a preview: its lines, and the count in the
      "... and N more" note, 0 when no note is shown. */
  datatype Display = Display(lines: seq<Line>, more: nat)

  /** Each text as a plain line, in order. */
  function PlainLines(texts: seq<string>): (ls: seq<Line>)
    ensures |ls| == |texts|
    ensures forall k :: 0 <= k < |ls| ==> ls[k] == Plain(texts[k])
    ensures forall l :: l in ls <==> l.Plain? && l.text in texts
  {
    if texts == [] then [] else [Plain(texts[0])] + PlainLines(texts[1..])
  }

  /** The lines shown from `items` under a limit: at most `limit` of them, in
      order, with the count of those left out. */
  function Capped(items: seq<string>, limit: nat): (d: Display)
    ensures |d.lines| == if |items| <= limit then |items| else limit
    ensures forall k :: 0 <= k < |d.lines| ==> d.lines[k] == Plain(items[k])
    ensures d.more == if |items| > limit then |items| - limit else 0
  {
    var shown := if |items| <= limit then items else items[..limit];
    Display(PlainLines(shown),
            if |items| > limit then |items| - limit else 0)
  }

  predicate NonEmpty(p: seq<string>) {
    p != []
  }

  /** Index of the first non-empty preview block (`if preview: ... break`). */
  function FirstNonEmpty(ps: seq<seq<string>>): (r: Option<nat>)
    ensures r.None? <==> forall i :: 0 <= i < |ps| ==> ps[i] == []
    ensures r.Some? ==> r.value < |ps| && ps[r.value] != []
    ensures r.Some? ==> forall j :: 0 <= j < r.value ==> ps[j] == []
  {
    FirstWhere(ps, NonEmpty)
  }

  /** The `for preview in previews: if preview: ...; break` scan. */
  method FindFirstNonEmpty(ps: seq<seq<string>>) returns (found: Option<nat>)
    ensures found == FirstNonEmpty(ps)
  {
    found := None;
    var i := 0;
    while i < |ps|
      invariant 0 <= i <= |ps|
      invariant forall j :: 0 <= j < i ==> ps[j] == []
    {
      if ps[i] != [] {
        found := Some(i);
        break;
      }
      i := i + 1;
    }
  }

  /** Blocks after the first non-empty one are never looked at. */
  lemma FirstNonEmptyIgnoresLater(ps: seq<seq<string>>, later: seq<seq<string>>)
    requires FirstNonEmpty(ps).Some?
    ensures FirstNonEmpty(ps + later) == FirstNonEmpty(ps)
  {
    FirstWhereIgnoresSuffix(ps, later, NonEmpty);
  }

  /** The table preview `["col1|col2\nval1|val2"]` is a table, kept verbatim. */
  lemma TableExample()
    ensures Classify(["col1|col2\nval1|val2"]) == Table("col1|col2\nval1|val2")
  {
    assert "col1|col2\nval1|val2"[4] == '|' && "col1|col2\nval1|val2"[9] == '\n';
  }
}
