/**
 * The file-diff view's text: every edit's old lines prefixed "- ", then
 * its new lines prefixed "+ ", all joined with newlines.
 */
module FileDiff {
  import opened Js
  import opened Strings
  import opened Folds
  import opened ThreadParsers

  /** Each piece with `prefix` in front. */
  function Prefixed(prefix: string, pieces: seq<string>): (r: seq<string>)
    ensures |r| == |pieces|
    ensures forall i :: 0 <= i < |pieces| ==> r[i] == prefix + pieces[i]
    decreases |pieces|
  {
    if |pieces| == 0 then [] else Prefixed(prefix, pieces[..|pieces| - 1]) + [prefix + pieces[|pieces| - 1]]
  }

  /** The lines of one text: none for an empty or absent text, one per
    * line of a string; splitting any other value throws. */
  function TextLines(text: Prop, prefix: string): (r: JsResult<seq<string>>)
    ensures !Truthy(text) ==> r == Ok([])
    ensures Truthy(text) && text.value.JStr? ==> r == Ok(Prefixed(prefix, Split(text.value.s, '\n')))
    ensures Truthy(text) && !text.value.JStr? ==> r.Err?
  {
    if !Truthy(text) then Ok([])
    else if text.value.JStr? then Ok(Prefixed(prefix, Split(text.value.s, '\n')))
    else Err(TypeError)
  }

  /** One edit's lines: removals before additions. */
  function EditDiffLines(e: TextEdit): JsResult<seq<string>>
  {
    var removed :- TextLines(e.oldText, "- ");
    var added :- TextLines(e.newText, "+ ");
    Ok(removed + added)
  }

  function Flatten(xss: seq<seq<string>>): seq<string>
    decreases |xss|
  {
    if |xss| == 0 then [] else Flatten(xss[..|xss| - 1]) + xss[|xss| - 1]
  }

  /** `diffContent`: the lines of all edits, in edit order, joined with
    * newlines; the empty string when there are no edits. */
  function DiffContent(edits: Option<seq<TextEdit>>): (r: JsResult<string>)
    ensures edits.None? || edits.value == [] ==> r == Ok("")
  {
    if edits.None? then Ok("")
    else
      var perEdit :- MapResult(EditDiffLines, edits.value);
      Ok(Join(Flatten(perEdit), "\n"))
  }

  /** The diff is shown only outside the compact view and when there is text. */
  predicate ShowsDiff(isCompact: bool, content: string)
  {
    !isCompact && content != ""
  }

  // ----- What the diff text guarantees -----

  lemma PrefixedNoNewline(prefix: string, pieces: seq<string>)
    requires '\n' !in prefix
    requires forall i :: 0 <= i < |pieces| ==> '\n' !in pieces[i]
    ensures forall i :: 0 <= i < |pieces| ==> '\n' !in Prefixed(prefix, pieces)[i]
  {
  }

  /** No line of an edit holds a newline. */
  lemma EditLinesNoNewline(e: TextEdit)
    requires EditDiffLines(e).Ok?
    ensures var ls := EditDiffLines(e).value; forall i :: 0 <= i < |ls| ==> '\n' !in ls[i]
  {
    if Truthy(e.oldText) {
      SplitPieces(e.oldText.value.s, '\n');
      PrefixedNoNewline("- ", Split(e.oldText.value.s, '\n'));
    }
    if Truthy(e.newText) {
      SplitPieces(e.newText.value.s, '\n');
      PrefixedNoNewline("+ ", Split(e.newText.value.s, '\n'));
    }
  }

  lemma {:induction false} FlattenNoNewline(xss: seq<seq<string>>)
    requires forall k, i :: 0 <= k < |xss| && 0 <= i < |xss[k]| ==> '\n' !in xss[k][i]
    ensures forall i :: 0 <= i < |Flatten(xss)| ==> '\n' !in Flatten(xss)[i]
    decreases |xss|
  {
    if |xss| > 0 {
      var n := |xss| - 1;
      forall k, i | 0 <= k < n && 0 <= i < |xss[..n][k]| ensures '\n' !in xss[..n][k][i] {
        assert xss[..n][k] == xss[k];
      }
      FlattenNoNewline(xss[..n]);
      var f := Flatten(xss);
      forall i | 0 <= i < |f| ensures '\n' !in f[i] {
        if i >= |Flatten(xss[..n])| {
          assert f[i] == xss[n][i - |Flatten(xss[..n])|];
        }
      }
    }
  }

  /** Reading the diff text back line by line gives exactly the edits'
    * lines, in order. */
  lemma DiffContentLines(edits: seq<TextEdit>)
    requires MapResult(EditDiffLines, edits).Ok?
    requires |Flatten(MapResult(EditDiffLines, edits).value)| >= 1
    ensures var lines := Flatten(MapResult(EditDiffLines, edits).value);
      DiffContent(Some(edits)) == Ok(Join(lines, "\n")) && Split(Join(lines, "\n"), '\n') == lines
  {
    var perEdit := MapResult(EditDiffLines, edits).value;
    forall k, i | 0 <= k < |perEdit| && 0 <= i < |perEdit[k]| ensures '\n' !in perEdit[k][i] {
      EditLinesNoNewline(edits[k]);
    }
    FlattenNoNewline(perEdit);
    SplitJoin(Flatten(perEdit), '\n');
  }
}
