/**
 * The conversation items the thread renderers produce, one constructor per
 * display component, carrying that component's props. A prop the renderer
 * does not pass is `None`.
 */
module Blocks {
  import opened Js

  /** One entry of a todo list: its text and its status. */
  datatype Todo = Todo(content: Prop, status: Prop)

  /** A file attached to a user prompt. */
  datatype FileRef = FileRef(id: Prop, name: Prop, kind: Prop, value: Prop)

  /** One step of a plan and its status. */
  datatype PlanItem = PlanItem(step: string, status: string)

  /** A list of untracked paths as a snapshot shows it: the first entries,
    * the full count, and whether an ellipsis marks the entries left out. */
  datatype Untracked = Untracked(shown: seq<string>, total: nat, ellipsis: bool)

  datatype Block =
    | Text(text: Prop, refs: seq<JValue>)
    | Thinking(thinking: Prop, subject: Prop)
    | Shell(command: Prop, result: Prop, explanation: Prop)
    | Edit(filePath: Prop, oldString: Prop, newString: Prop)
    | Read(filePath: Prop, content: Prop, extra: Prop, title: Prop)
    | Patch(patch: Prop)
    | Todos(todos: seq<Todo>)
    | Mcp(serverName: Prop, toolName: Prop, input: Prop, result: Prop)
    | Plan(items: seq<PlanItem>, output: Prop)
    | GhostSnapshot(commit: string, parent: Option<string>, untrackedFiles: Option<Untracked>, untrackedDirs: Option<Untracked>)
    | Generic(name: Prop, detail: Prop, result: Prop)
    | Prompt(prompt: Prop, files: seq<FileRef>)
    | ToolResult(content: Prop)

  /** No block of `bs` is markdown text. */
  predicate NoText(bs: seq<Block>)
  {
    forall i :: 0 <= i < |bs| ==> !bs[i].Text?
  }

  /** The entries React renders: `null` entries show nothing. */
  function Present(bs: seq<Option<Block>>): (r: seq<Block>)
    ensures |r| <= |bs|
    ensures forall b :: b in r <==> Some(b) in bs
    ensures (forall i :: 0 <= i < |bs| && bs[i].Some? ==> !bs[i].value.Text?) ==> NoText(r)
  {
    if |bs| == 0 then []
    else (if bs[0].Some? then [bs[0].value] else []) + Present(bs[1..])
  }
}
