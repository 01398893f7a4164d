/**
 * The line list the patch and edit blocks display: each line is an
 * addition, a deletion or context, and a collapsed block shows only its
 * first lines with a count of the rest.
 */
module DiffLines {
  import opened Js

  datatype LineKind = Add | Del | Ctx

  datatype DiffLine = DiffLine(kind: LineKind, content: string)

  /** How many lines a collapsed block shows. */
  const CollapsedLines: nat := 5

  /** The number of lines of kind `k`. */
  function CountOf(lines: seq<DiffLine>, k: LineKind): nat
    decreases |lines|
  {
    if |lines| == 0 then 0
    else CountOf(lines[..|lines| - 1], k) + (if lines[|lines| - 1].kind == k then 1 else 0)
  }

  lemma {:induction false} CountAppend(xs: seq<DiffLine>, ys: seq<DiffLine>, k: LineKind)
    ensures CountOf(xs + ys, k) == CountOf(xs, k) + CountOf(ys, k)
    decreases |ys|
  {
    if |ys| == 0 {
      assert xs + ys == xs;
    } else {
      var zs := xs + ys;
      assert zs[..|zs| - 1] == xs + ys[..|ys| - 1];
      CountAppend(xs, ys[..|ys| - 1], k);
    }
  }

  /** The lines shown: all of them when expanded, the first five when
    * collapsed. */
  function Displayed(lines: seq<DiffLine>, collapsed: bool): (r: seq<DiffLine>)
    ensures r <= lines
    ensures !collapsed ==> r == lines
    ensures collapsed ==> |r| == if |lines| < CollapsedLines then |lines| else CollapsedLines
  {
    if collapsed && |lines| > CollapsedLines then lines[..CollapsedLines] else lines
  }

  /** The "... n more lines ..." button of a collapsed block: it appears
    * only when lines are hidden, and counts exactly the hidden ones. */
  function MoreLines(lines: seq<DiffLine>, collapsed: bool): (r: Option<nat>)
    ensures r.Some? <==> collapsed && |lines| > CollapsedLines
    ensures r.Some? ==> r.value > 0 && |Displayed(lines, collapsed)| + r.value == |lines|
    ensures r.None? ==> Displayed(lines, collapsed) == lines
  {
    if collapsed && |lines| > CollapsedLines then Some(|lines| - CollapsedLines) else None
  }
}
