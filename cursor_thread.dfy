/**
 * The Cursor renderer: one entry per message of the rebuilt thread. A
 * user bubble (type 1) shows its text as a prompt; an assistant bubble
 * (type 2) shows its text, then its tool call; anything else shows nothing.
 * The thread arrives untyped, so fields are read with JavaScript's rules.
 */
module CursorThread {
  import opened Js
  import opened Folds
  import opened Blocks

  datatype Entry = UserEntry(prompt: Prop) | ModelEntry(blocks: seq<Block>)

  /** The block of a tool call, chosen by its `tool` name; a known tool
    * without `params` falls back to the generic block. */
  function ToolBlock(toolCall: JValue): (r: Block)
    ensures var params := Get(toolCall, "params");
      var result := Get(toolCall, "result");
      var tool := Get(toolCall, "tool");
      (tool == Str("read_file") && Truthy(params) ==>
        r == Read(Get(params.value, "targetFile"), Or(OptGet(result, "content"), Str("")), None, None)) &&
      ((tool == Str("edit_file") || tool == Str("write_file")) && Truthy(params) ==>
        r == Edit(Get(params.value, "relative_workspace_path"), Str(""),
                  Or(Get(params.value, "edit_content"), Get(params.value, "content")))) &&
      (tool == Str("run_terminal_command") && Truthy(params) ==>
        r == Shell(Get(params.value, "command"), OptGet(result, "output"), None)) &&
      (tool !in {Str("read_file"), Str("edit_file"), Str("write_file"), Str("run_terminal_command")} || !Truthy(params) ==>
        r == Generic(tool, params, None))
  {
    var tool := Get(toolCall, "tool");
    var params := Get(toolCall, "params");
    var result := Get(toolCall, "result");
    if StrictEquals(tool, Str("read_file")) && Truthy(params) then
      Read(Get(params.value, "targetFile"), Or(OptGet(result, "content"), Str("")), None, None)
    else if (StrictEquals(tool, Str("edit_file")) || StrictEquals(tool, Str("write_file"))) && Truthy(params) then
      Edit(Get(params.value, "relative_workspace_path"), Str(""), Or(Get(params.value, "edit_content"), Get(params.value, "content")))
    else if StrictEquals(tool, Str("run_terminal_command")) && Truthy(params) then
      Shell(Get(params.value, "command"), OptGet(result, "output"), None)
    else
      // the generic block shows the tool name and the parameters as JSON
      Generic(tool, params, None)
  }

  /** The items of an assistant bubble: its text when truthy, then its tool
    * call when present. */
  function ModelItems(text: Prop, toolCall: Prop): seq<Block>
  {
    (if Truthy(text) then [Text(text, [])] else []) + (if Truthy(toolCall) then [ToolBlock(toolCall.value)] else [])
  }

  /** What one message renders; reading `type` of a `null` message throws. */
  function MessageEntry(m: JValue): (r: JsResult<Option<Entry>>)
    ensures r.Err? <==> m.JNull?
    ensures r.Ok? && Get(m, "type") == Some(JNum(1)) ==> r.value == Some(UserEntry(Get(m, "text")))
    ensures r.Ok? && Get(m, "type") == Some(JNum(2)) ==>
      (r.value.None? <==> !Truthy(Get(m, "text")) && !Truthy(Get(m, "toolCall")))
    ensures r.Ok? && r.value.Some? && r.value.value.ModelEntry? ==>
      var bs := r.value.value.blocks;
      1 <= |bs| <= 2 &&
      (Truthy(Get(m, "text")) <==> bs[0].Text?) &&
      (Truthy(Get(m, "text")) ==> bs[0] == Text(Get(m, "text"), [])) &&
      (Truthy(Get(m, "toolCall")) ==> bs[|bs| - 1] == ToolBlock(Get(m, "toolCall").value))
    ensures r.Ok? && Get(m, "type") != Some(JNum(1)) && Get(m, "type") != Some(JNum(2)) ==> r.value.None?
  {
    var kind :- Member(Some(m), "type");
    if StrictEquals(kind, Some(JNum(1))) then Ok(Some(UserEntry(Get(m, "text"))))
    else if StrictEquals(kind, Some(JNum(2))) then
      var text := Get(m, "text");
      var toolCall := Get(m, "toolCall");
      if !Truthy(text) && !Truthy(toolCall) then Ok(None)
      else Ok(Some(ModelEntry(ModelItems(text, toolCall))))
    else Ok(None)
  }

  /** `thread.messages.map(...)`: one entry per message, or the exception. */
  function ThreadEntries(thread: JValue): (r: JsResult<seq<Option<Entry>>>)
  {
    var messages :- Member(Some(thread), "messages");
    var items :- Elements(messages);
    MapResult(MessageEntry, items)
  }

  /** Rendering throws exactly when the thread is `null`, its messages are
    * not an array, or one message is `null`; otherwise there is one entry
    * per message, at its position. */
  lemma ThreadEntriesSpec(thread: JValue)
    ensures ThreadEntries(thread).Ok? <==>
      !thread.JNull? && IsArray(Get(thread, "messages")) &&
      forall i :: 0 <= i < |Get(thread, "messages").value.items| ==> !Get(thread, "messages").value.items[i].JNull?
    ensures ThreadEntries(thread).Ok? ==>
      var items := Get(thread, "messages").value.items;
      |ThreadEntries(thread).value| == |items| &&
      forall i :: 0 <= i < |items| ==> MessageEntry(items[i]) == Ok(ThreadEntries(thread).value[i])
  {
  }
}
