/**
 * The thread component: each normalised message rendered by role, with an
 * assistant message's tool calls, its edit groups (headed by their added
 * and deleted line totals) and its attachments; and the rendering of one
 * tool call (terminal command first, else an invocation line).
 */
module ThreadMessages {
  import opened Js
  import opened Strings
  import opened Folds
  import opened ThreadParsers
  import opened FileDiff

  // ----- One tool call -----

  datatype ToolView =
    | TerminalView(command: Prop)
    | InvocationView(icon: string, status: string, text: Prop)

  /** A truthy terminal command is shown as such; otherwise the first
    * truthy message (falling back to "Tool invocation"), marked completed
    * only for a completed call. */
  function ToolCallView(t: ToolCallData): (r: ToolView)
    ensures r.TerminalView? <==> Truthy(t.terminalCommand)
    ensures r.TerminalView? ==> r.command == t.terminalCommand
    ensures r.InvocationView? ==> (r.status == "completed" <==> t.status == Completed)
    ensures r.InvocationView? ==> (r.status == "completed" || r.status == "running")
    ensures r.InvocationView? ==> (r.icon == "✓" <==> r.status == "completed") && (r.icon == "✓" || r.icon == "○")
    ensures r.InvocationView? ==> Truthy(r.text)
    ensures r.InvocationView? ==>
      (Truthy(t.pastTenseMessage) ==> r.text == t.pastTenseMessage) &&
      (!Truthy(t.pastTenseMessage) && Truthy(t.invocationMessage) ==> r.text == t.invocationMessage) &&
      (!Truthy(t.pastTenseMessage) && !Truthy(t.invocationMessage) && Truthy(t.toolName) ==> r.text == t.toolName) &&
      (!Truthy(t.pastTenseMessage) && !Truthy(t.invocationMessage) && !Truthy(t.toolName) ==> r.text == Str("Tool invocation"))
  {
    if Truthy(t.terminalCommand) then TerminalView(t.terminalCommand)
    else
      var status := if t.status == Completed then "completed" else "running";
      var text := Or(t.pastTenseMessage, Or(t.invocationMessage, Or(t.toolName, Str("Tool invocation"))));
      var icon := if t.status == Completed then "✓" else "○";
      InvocationView(icon, status, text)
  }

  // ----- Line totals of an edit group -----

  datatype Side = NewSide | OldSide

  function TextOf(e: TextEdit, side: Side): Prop
  {
    if side == NewSide then e.newText else e.oldText
  }

  /** `text?.split("\n").length || 0`: no lines for an absent text, one more
    * than its newlines for a string (so "" counts one); splitting any other
    * value throws. */
  function LineCount(p: Prop): (r: JsResult<nat>)
    ensures r == Ok(0) <==> Nullish(p)
    ensures IsString(p) ==> r == Ok(Count(p.value.s, '\n') + 1)
    ensures r.Err? <==> !Nullish(p) && !IsString(p)
  {
    if Nullish(p) then Ok(0)
    else if p.value.JStr? then SplitCount(p.value.s, '\n'); Ok(|Split(p.value.s, '\n')|)
    else Err(TypeError)
  }

  /** The `reduce` summing the line counts of one side of the edits. */
  function LineTotal(edits: seq<TextEdit>, side: Side): JsResult<nat>
    decreases |edits|
  {
    if |edits| == 0 then Ok(0)
    else
      var n := |edits| - 1;
      var sum :- LineTotal(edits[..n], side);
      var count :- LineCount(TextOf(edits[n], side));
      Ok(sum + count)
  }

  /** The sum succeeds exactly when every edit's line count does. */
  lemma {:induction false} LineTotalOk(edits: seq<TextEdit>, side: Side)
    ensures LineTotal(edits, side).Ok? <==> forall i :: 0 <= i < |edits| ==> LineCount(TextOf(edits[i], side)).Ok?
    decreases |edits|
  {
    if |edits| > 0 {
      var n := |edits| - 1;
      LineTotalOk(edits[..n], side);
      assert forall i :: 0 <= i < n ==> edits[..n][i] == edits[i];
    }
  }

  datatype DiffView = DiffView(path: JValue, additions: nat, deletions: nat, edits: seq<TextEdit>)

  /** One edit group's header: additions from the new texts, deletions
    * from the old texts. */
  function DiffViewOf(g: EditGroup): (r: JsResult<DiffView>)
    ensures r.Ok? <==> LineTotal(g.edits, NewSide).Ok? && LineTotal(g.edits, OldSide).Ok?
    ensures r.Ok? ==> r.value == DiffView(g.filePath, LineTotal(g.edits, NewSide).value, LineTotal(g.edits, OldSide).value, g.edits)
  {
    var additions :- LineTotal(g.edits, NewSide);
    var deletions :- LineTotal(g.edits, OldSide);
    Ok(DiffView(g.filePath, additions, deletions, g.edits))
  }

  // ----- One message -----

  datatype MessageView =
    | UserView(prompt: Prop)
    | AssistantView(text: Prop, tools: seq<ToolView>, diffs: seq<DiffView>, attachments: seq<Attachment>)
    | SystemView(text: Prop)

  function OrEmpty<T>(o: Option<seq<T>>): seq<T>
  {
    if o.Some? then o.value else []
  }

  function Tools(calls: seq<ToolCallData>): (r: seq<ToolView>)
    ensures |r| == |calls|
    ensures forall i :: 0 <= i < |calls| ==> r[i] == ToolCallView(calls[i])
    decreases |calls|
  {
    if |calls| == 0 then [] else Tools(calls[..|calls| - 1]) + [ToolCallView(calls[|calls| - 1])]
  }

  /** A user message shows `text ?? ""`; an assistant message its truthy
    * text, then its tool calls, edit groups and attachments, in that order;
    * any other role is a system message. */
  function MessageViewOf(m: NormalizedMessage): (r: JsResult<MessageView>)
    ensures m.role == User ==> r == Ok(UserView(Coalesce(m.text, Str(""))))
    ensures m.role == System ==> r == Ok(SystemView(m.text))
    ensures m.role == Assistant ==>
      (r.Ok? <==> forall i :: 0 <= i < |OrEmpty(m.edits)| ==> DiffViewOf(OrEmpty(m.edits)[i]).Ok?)
    ensures m.role == Assistant && r.Ok? ==> (r.value.AssistantView? &&
      (r.value.text.Some? <==> Truthy(m.text)) && (r.value.text.Some? ==> r.value.text == m.text) &&
      |r.value.tools| == |OrEmpty(m.toolCalls)| &&
      (forall i :: 0 <= i < |r.value.tools| ==> r.value.tools[i] == ToolCallView(OrEmpty(m.toolCalls)[i])) &&
      |r.value.diffs| == |OrEmpty(m.edits)| &&
      (forall i :: 0 <= i < |r.value.diffs| ==> Ok(r.value.diffs[i]) == DiffViewOf(OrEmpty(m.edits)[i])) &&
      r.value.attachments == OrEmpty(m.attachments))
  {
    match m.role
    case User => Ok(UserView(Coalesce(m.text, Str(""))))
    case Assistant =>
      var diffs :- MapResult(DiffViewOf, OrEmpty(m.edits));
      Ok(AssistantView(if Truthy(m.text) then m.text else None, Tools(OrEmpty(m.toolCalls)), diffs, OrEmpty(m.attachments)))
    case System => Ok(SystemView(m.text))
  }

  /** The thread: one view per message, in order. */
  function ThreadViews(thread: ParsedThread): (r: JsResult<seq<MessageView>>)
    ensures r.Ok? ==> |r.value| == |thread.messages|
    ensures r.Ok? ==> forall i :: 0 <= i < |thread.messages| ==> MessageViewOf(thread.messages[i]) == Ok(r.value[i])
    ensures r.Ok? <==> forall i :: 0 <= i < |thread.messages| ==> MessageViewOf(thread.messages[i]).Ok?
  {
    MapResult(MessageViewOf, thread.messages)
  }

  // ----- Totals against the diff shown -----

  /** The number of diff lines one side of the edits shows. */
  function ShownLines(edits: seq<TextEdit>, side: Side): nat
    decreases |edits|
  {
    if |edits| == 0 then 0
    else
      var n := |edits| - 1;
      var shown := TextLines(TextOf(edits[n], side), "");
      ShownLines(edits[..n], side) + (if shown.Ok? then |shown.value| else 0)
  }

  /** When no text on the side is "" and none throws, the header total is
    * the number of lines the diff shows on that side; an empty text is
    * where the two part: it counts one line and shows none. */
  lemma {:induction false} TotalsMatchDiff(edits: seq<TextEdit>, side: Side)
    requires forall i :: 0 <= i < |edits| ==> Nullish(TextOf(edits[i], side)) || (IsString(TextOf(edits[i], side)) && TextOf(edits[i], side) != Str(""))
    ensures LineTotal(edits, side).Ok? && LineTotal(edits, side).value == ShownLines(edits, side)
    decreases |edits|
  {
    if |edits| > 0 {
      var n := |edits| - 1;
      forall i | 0 <= i < n
        ensures Nullish(TextOf(edits[..n][i], side)) || (IsString(TextOf(edits[..n][i], side)) && TextOf(edits[..n][i], side) != Str(""))
      {
        assert edits[..n][i] == edits[i];
      }
      TotalsMatchDiff(edits[..n], side);
      CountMatchesShown(TextOf(edits[n], side));
      TotalStep(edits, side);
    }
  }

  /** The totals agree on the edits when they agree without the last one
    * and the last one counts as many lines as it shows. */
  lemma TotalStep(edits: seq<TextEdit>, side: Side)
    requires |edits| > 0
    requires var n := |edits| - 1;
      LineTotal(edits[..n], side).Ok? && LineTotal(edits[..n], side).value == ShownLines(edits[..n], side)
    requires var p := TextOf(edits[|edits| - 1], side);
      LineCount(p).Ok? && TextLines(p, "").Ok? && LineCount(p).value == |TextLines(p, "").value|
    ensures LineTotal(edits, side).Ok? && LineTotal(edits, side).value == ShownLines(edits, side)
  {
    var n := |edits| - 1;
    var p := TextOf(edits[n], side);
    LineTotalStep(edits, side, ShownLines(edits[..n], side), LineCount(p).value);
    assert ShownLines(edits, side) == ShownLines(edits[..n], side) + |TextLines(p, "").value|;
  }

  lemma LineTotalStep(edits: seq<TextEdit>, side: Side, sum: nat, count: nat)
    requires |edits| > 0
    requires LineTotal(edits[..|edits| - 1], side) == Ok(sum)
    requires LineCount(TextOf(edits[|edits| - 1], side)) == Ok(count)
    ensures LineTotal(edits, side).Ok? && LineTotal(edits, side).value == sum + count
  {
  }

  /** An absent or non-empty text counts as many lines as it shows. */
  lemma CountMatchesShown(p: Prop)
    requires Nullish(p) || (IsString(p) && p != Str(""))
    ensures LineCount(p).Ok? && TextLines(p, "").Ok? && LineCount(p).value == |TextLines(p, "").value|
  {
    if IsString(p) {
      SplitCount(p.value.s, '\n');
    }
  }

  lemma EmptyTextParts()
    ensures LineCount(Str("")) == Ok(1) && TextLines(Str(""), "+ ") == Ok([])
    ensures LineCount(None) == Ok(0) && TextLines(None, "+ ") == Ok([])
  {
    assert Count("", '\n') == 0;
  }
}
