/**
 * The patch block's parser for the "*** Update File:" patch format: it
 * finds the file path, enters the body on an "@@" line and leaves it on
 * "*** End Patch", and turns each body line into an added, deleted or
 * context line while counting additions and deletions.
 */
module PatchBlock {
  import opened Js
  import opened Strings
  import opened Folds
  import opened DiffLines

  const UpdateMarker := "*** Update File: "

  /** The parser's state after some lines. */
  datatype PatchState = PatchState(filePath: string, lines: seq<DiffLine>, additions: nat, deletions: nat, isBody: bool)

  const Start := PatchState("", [], 0, 0, false)

  /** A line that names the file or opens or closes the body. */
  predicate IsMarker(line: string)
  {
    StartsWith(line, UpdateMarker) || Trim(line) == "@@" || Trim(line) == "*** End Patch"
  }

  /** A body line: "+" adds, "-" deletes, " " is context, each without its
    * first character; any other line is context as it stands. */
  function BodyLine(line: string): (r: DiffLine)
    ensures r.kind == Add <==> StartsWith(line, "+")
    ensures r.kind == Del <==> StartsWith(line, "-")
    ensures (r.kind == Ctx && StartsWith(line, " ")) || r.kind != Ctx ==> [line[0]] + r.content == line
    ensures r.kind == Ctx && !StartsWith(line, " ") ==> r.content == line
  {
    if StartsWith(line, "+") then DiffLine(Add, line[1..])
    else if StartsWith(line, "-") then DiffLine(Del, line[1..])
    else if StartsWith(line, " ") then DiffLine(Ctx, line[1..])
    else DiffLine(Ctx, line)
  }

  /** The path an update line names: the rest of the line, trimmed. */
  function UpdatedPath(line: string): (r: string)
    requires StartsWith(line, UpdateMarker)
    ensures r == Trim(line[|UpdateMarker|..])
  {
    assert OccursAt(line, UpdateMarker, 0);
    assert IndexOf(line, UpdateMarker, 0) == 0;
    assert line[..0] + "" + line[|UpdateMarker|..] == line[|UpdateMarker|..];
    Trim(ReplaceFirst(line, UpdateMarker, ""))
  }

  /** One iteration of the loop over the patch's lines. */
  function PatchStep(st: PatchState, line: string): PatchState
  {
    if StartsWith(line, UpdateMarker) then st.(filePath := UpdatedPath(line))
    else if Trim(line) == "@@" then st.(isBody := true)
    else if Trim(line) == "*** End Patch" then st.(isBody := false)
    else if st.isBody then
      var d := BodyLine(line);
      st.(lines := st.lines + [d],
          additions := st.additions + (if d.kind == Add then 1 else 0),
          deletions := st.deletions + (if d.kind == Del then 1 else 0))
    else st
  }

  function ParsePatch(patch: string): PatchState
  {
    Foldl(PatchStep, Start, Split(patch, '\n'))
  }

  /** The `useMemo` loop: the file path, the lines and the two counters. */
  method ParsePatchLines(patch: string) returns (filePath: string, lines: seq<DiffLine>, additions: nat, deletions: nat)
    ensures var st := ParsePatch(patch);
      filePath == st.filePath && lines == st.lines && additions == st.additions && deletions == st.deletions
  {
    var rawLines := Split(patch, '\n');
    filePath, lines, additions, deletions := "", [], 0, 0;
    var isBody := false;
    var i := 0;
    while i < |rawLines|
      invariant 0 <= i <= |rawLines|
      invariant Foldl(PatchStep, Start, rawLines[..i]) == PatchState(filePath, lines, additions, deletions, isBody)
    {
      FoldlStep(PatchStep, Start, rawLines, i);
      ghost var st := PatchState(filePath, lines, additions, deletions, isBody);
      var line := rawLines[i];
      i := i + 1;
      if StartsWith(line, UpdateMarker) {
        filePath := UpdatedPath(line);
        continue;
      }
      if Trim(line) == "@@" {
        isBody := true;
        continue;
      }
      if Trim(line) == "*** End Patch" {
        isBody := false;
        continue;
      }
      if isBody {
        BodyStep(st, line);
        if StartsWith(line, "+") {
          additions := additions + 1;
          lines := lines + [DiffLine(Add, line[1..])];
        } else if StartsWith(line, "-") {
          deletions := deletions + 1;
          lines := lines + [DiffLine(Del, line[1..])];
        } else if StartsWith(line, " ") {
          lines := lines + [DiffLine(Ctx, line[1..])];
        } else {
          lines := lines + [DiffLine(Ctx, line)];
        }
      }
    }
    assert rawLines[..i] == rawLines;
  }

  /** A body line read while the body is open is appended and counted. */
  lemma BodyStep(st: PatchState, line: string)
    requires !IsMarker(line) && st.isBody
    ensures var d := BodyLine(line);
      PatchStep(st, line) == st.(lines := st.lines + [d],
        additions := st.additions + (if d.kind == Add then 1 else 0),
        deletions := st.deletions + (if d.kind == Del then 1 else 0))
  {
  }

  /** The header shows "Unknown File" when no path was found. */
  function DisplayPath(filePath: string): (r: string)
    ensures filePath != "" ==> r == filePath
    ensures filePath == "" ==> r == "Unknown File"
  {
    if filePath != "" then filePath else "Unknown File"
  }

  // ----- What the parser guarantees -----

  /** The counters count the lines they describe. */
  lemma {:induction false} PatchCounts(raw: seq<string>)
    ensures var st := Foldl(PatchStep, Start, raw);
      st.additions == CountOf(st.lines, Add) && st.deletions == CountOf(st.lines, Del)
    decreases |raw|
  {
    if |raw| > 0 {
      var prev := Foldl(PatchStep, Start, raw[..|raw| - 1]);
      PatchCounts(raw[..|raw| - 1]);
      var line := raw[|raw| - 1];
      if !IsMarker(line) && prev.isBody {
        var d := BodyLine(line);
        CountAppend(prev.lines, [d], Add);
        CountAppend(prev.lines, [d], Del);
        assert [d][..0] == [];
      }
    }
  }

  /** The last update line's path ("" when there is none). */
  function LastUpdatedPath(raw: seq<string>): string
    decreases |raw|
  {
    if |raw| == 0 then ""
    else if StartsWith(raw[|raw| - 1], UpdateMarker) then Trim(raw[|raw| - 1][|UpdateMarker|..])
    else LastUpdatedPath(raw[..|raw| - 1])
  }

  /** The file path is the one the last update line names, even when that
    * line is inside the body. */
  lemma {:induction false} PatchPath(raw: seq<string>)
    ensures Foldl(PatchStep, Start, raw).filePath == LastUpdatedPath(raw)
    decreases |raw|
  {
    if |raw| > 0 {
      PatchPath(raw[..|raw| - 1]);
    }
  }

  /** Whether the body is open after the lines: the last "@@" or
    * "*** End Patch" line decides. */
  function OpenAfter(raw: seq<string>): bool
    decreases |raw|
  {
    if |raw| == 0 then false
    else
      var line := raw[|raw| - 1];
      if !StartsWith(line, UpdateMarker) && Trim(line) == "@@" then true
      else if !StartsWith(line, UpdateMarker) && Trim(line) == "*** End Patch" then false
      else OpenAfter(raw[..|raw| - 1])
  }

  /** The lines emitted: one per non-marker line read while the body is
    * open, in order. */
  function BodyLines(raw: seq<string>): seq<DiffLine>
    decreases |raw|
  {
    if |raw| == 0 then []
    else
      var prefix := raw[..|raw| - 1];
      var line := raw[|raw| - 1];
      BodyLines(prefix) + (if OpenAfter(prefix) && !IsMarker(line) then [BodyLine(line)] else [])
  }

  /** The emitted lines are exactly the body lines, marker lines never
    * among them. */
  lemma {:induction false} PatchLines(raw: seq<string>)
    ensures Foldl(PatchStep, Start, raw).isBody == OpenAfter(raw)
    ensures Foldl(PatchStep, Start, raw).lines == BodyLines(raw)
    decreases |raw|
  {
    if |raw| > 0 {
      PatchLines(raw[..|raw| - 1]);
    }
  }

  /** Without an "@@" line nothing is emitted. */
  lemma {:induction false} NoBodyNoLines(raw: seq<string>)
    requires forall i :: 0 <= i < |raw| ==> Trim(raw[i]) != "@@"
    ensures BodyLines(raw) == [] && !OpenAfter(raw)
    decreases |raw|
  {
    if |raw| > 0 {
      var n := |raw| - 1;
      forall i | 0 <= i < n ensures Trim(raw[..n][i]) != "@@" {
        assert raw[..n][i] == raw[i];
      }
      NoBodyNoLines(raw[..n]);
    }
  }
}
