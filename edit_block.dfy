/**
 * The edit block's conversion of a line diff (the `Change` list the diff
 * library computes from the old and new text) into displayed lines, with
 * the added and removed line counts.
 */
module EditBlock {
  import opened Strings
  import opened DiffLines

  /** One change of the diff: a run of lines, added, removed or common. */
  datatype Change = Change(value: string, added: bool, removed: bool)

  /** `value.replace(/\n$/, "")`: one trailing newline removed. */
  function StripTrailingNewline(s: string): (r: string)
    ensures EndsWith(s, "\n") ==> r + "\n" == s
    ensures !EndsWith(s, "\n") ==> r == s
  {
    if EndsWith(s, "\n") then s[..|s| - 1] else s
  }

  /** The lines of a change's value. */
  function Pieces(c: Change): (r: seq<string>)
    ensures |r| >= 1
  {
    Split(StripTrailingNewline(c.value), '\n')
  }

  function KindOf(c: Change): LineKind
  {
    if c.added then Add else if c.removed then Del else Ctx
  }

  /** Each piece as a line of the given kind. */
  function Tagged(k: LineKind, pieces: seq<string>): (r: seq<DiffLine>)
    ensures |r| == |pieces|
    decreases |pieces|
  {
    if |pieces| == 0 then [] else Tagged(k, pieces[..|pieces| - 1]) + [DiffLine(k, pieces[|pieces| - 1])]
  }

  /** Each line carries the kind and its piece. */
  lemma {:induction false} TaggedAt(k: LineKind, pieces: seq<string>)
    ensures forall i :: 0 <= i < |pieces| ==> Tagged(k, pieces)[i] == DiffLine(k, pieces[i])
    decreases |pieces|
  {
    if |pieces| > 0 {
      var n := |pieces| - 1;
      TaggedAt(k, pieces[..n]);
      forall i | 0 <= i < n ensures Tagged(k, pieces)[i] == DiffLine(k, pieces[i]) {
        assert Tagged(k, pieces)[i] == Tagged(k, pieces[..n])[i];
      }
    }
  }

  /** All changes' lines, in change order. */
  function EditLines(changes: seq<Change>): seq<DiffLine>
    decreases |changes|
  {
    if |changes| == 0 then []
    else
      var c := changes[|changes| - 1];
      EditLines(changes[..|changes| - 1]) + Tagged(KindOf(c), Pieces(c))
  }

  /** The sum of the line counts of the changes of kind `k`. */
  function LinesOfKind(changes: seq<Change>, k: LineKind): nat
    decreases |changes|
  {
    if |changes| == 0 then 0
    else
      var c := changes[|changes| - 1];
      LinesOfKind(changes[..|changes| - 1], k) + (if KindOf(c) == k then |Pieces(c)| else 0)
  }

  /** The `forEach` over the changes: lines pushed, counters increased by
    * each change's line count. */
  method ConvertChanges(changes: seq<Change>) returns (lines: seq<DiffLine>, additions: nat, deletions: nat)
    ensures lines == EditLines(changes)
    ensures additions == LinesOfKind(changes, Add) && deletions == LinesOfKind(changes, Del)
  {
    lines, additions, deletions := [], 0, 0;
    var i := 0;
    while i < |changes|
      invariant 0 <= i <= |changes|
      invariant lines == EditLines(changes[..i])
      invariant additions == LinesOfKind(changes[..i], Add) && deletions == LinesOfKind(changes[..i], Del)
    {
      ghost var before := (additions, deletions);
      lines, additions, deletions := ConvertChange(changes[i], lines, additions, deletions);
      LinesStep(changes, i);
      CountStep(changes, i, before.0, before.1, additions, deletions);
      i := i + 1;
    }
    assert changes[..i] == changes;
  }

  /** The `forEach` callback for one change. */
  method ConvertChange(change: Change, lines: seq<DiffLine>, additions: nat, deletions: nat)
    returns (lines': seq<DiffLine>, additions': nat, deletions': nat)
    ensures lines' == lines + Tagged(KindOf(change), Pieces(change))
    ensures additions' == additions + (if change.added then |Pieces(change)| else 0)
    ensures deletions' == deletions + (if !change.added && change.removed then |Pieces(change)| else 0)
  {
    var pieces := Pieces(change);
    additions', deletions' := additions, deletions;
    if change.added {
      additions' := additions + |pieces|;
      lines' := PushLines(lines, Add, pieces);
    } else if change.removed {
      deletions' := deletions + |pieces|;
      lines' := PushLines(lines, Del, pieces);
    } else {
      lines' := PushLines(lines, Ctx, pieces);
    }
  }

  /** One more change converted: its lines follow those before. */
  lemma LinesStep(changes: seq<Change>, i: nat)
    requires i < |changes|
    ensures EditLines(changes[..i + 1]) == EditLines(changes[..i]) + Tagged(KindOf(changes[i]), Pieces(changes[i]))
  {
    assert changes[..i + 1][..i] == changes[..i];
  }

  /** One more change counted: only its own kind's counter grows. */
  lemma CountStep(changes: seq<Change>, i: nat, a: nat, d: nat, a': nat, d': nat)
    requires i < |changes|
    requires a == LinesOfKind(changes[..i], Add) && d == LinesOfKind(changes[..i], Del)
    requires a' == a + (if changes[i].added then |Pieces(changes[i])| else 0)
    requires d' == d + (if !changes[i].added && changes[i].removed then |Pieces(changes[i])| else 0)
    ensures a' == LinesOfKind(changes[..i + 1], Add) && d' == LinesOfKind(changes[..i + 1], Del)
  {
    assert changes[..i + 1][..i] == changes[..i];
  }

  /** `content.split("\n").forEach(line => lines.push(...))` */
  method PushLines(lines: seq<DiffLine>, k: LineKind, pieces: seq<string>) returns (r: seq<DiffLine>)
    ensures r == lines + Tagged(k, pieces)
  {
    r := lines;
    var j := 0;
    while j < |pieces|
      invariant 0 <= j <= |pieces|
      invariant r == lines + Tagged(k, pieces[..j])
    {
      assert pieces[..j + 1][..j] == pieces[..j];
      r := r + [DiffLine(k, pieces[j])];
      j := j + 1;
    }
    assert pieces[..j] == pieces;
  }

  // ----- What the conversion guarantees -----

  lemma {:induction false} TaggedCount(k: LineKind, pieces: seq<string>, q: LineKind)
    ensures CountOf(Tagged(k, pieces), q) == if k == q then |pieces| else 0
    decreases |pieces|
  {
    if |pieces| > 0 {
      var t := Tagged(k, pieces);
      assert t[..|t| - 1] == Tagged(k, pieces[..|pieces| - 1]);
      TaggedCount(k, pieces[..|pieces| - 1], q);
    }
  }

  /** The header's counters are the numbers of added and deleted lines shown. */
  lemma {:induction false} EditCounts(changes: seq<Change>, k: LineKind)
    ensures LinesOfKind(changes, k) == CountOf(EditLines(changes), k)
    decreases |changes|
  {
    if |changes| > 0 {
      var c := changes[|changes| - 1];
      EditCounts(changes[..|changes| - 1], k);
      CountAppend(EditLines(changes[..|changes| - 1]), Tagged(KindOf(c), Pieces(c)), k);
      TaggedCount(KindOf(c), Pieces(c), k);
    }
  }

  /** A change contributes one line per piece of its value, and joining its
    * lines back with newlines gives the value without its final newline;
    * an empty value makes exactly one empty line. */
  lemma ChangeLines(c: Change)
    ensures var ls := Tagged(KindOf(c), Pieces(c));
      (forall i :: 0 <= i < |ls| ==> ls[i].kind == KindOf(c) && '\n' !in ls[i].content) &&
      Join(Pieces(c), "\n") == StripTrailingNewline(c.value) &&
      (c.value == "" || c.value == "\n" ==> ls == [DiffLine(KindOf(c), "")])
  {
    JoinSplit(StripTrailingNewline(c.value), '\n');
    TaggedAt(KindOf(c), Pieces(c));
    SplitPieces(StripTrailingNewline(c.value), '\n');
    if c.value == "" || c.value == "\n" {
      assert StripTrailingNewline(c.value) == "";
    }
  }
}
