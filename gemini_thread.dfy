/**
 * The Gemini renderer: one entry per chat message. A user message shows
 * its content as a prompt. A model message shows its thoughts, then its
 * text, then one block per tool call, chosen by the tool's name.
 */
module GeminiThread {
  import opened Js
  import opened Folds
  import opened Blocks

  /** One reasoning step of a model message. */
  datatype Thought = Thought(subject: string, description: string)

  /** `functionResponse.response` of one result fragment: the fields the
    * renderer reads, absent when the recorded object lacks them. */
  datatype Response = Response(output: Prop, error: Prop)

  /** A tool call. Its arguments are an object of unknown shape, read
    * field by field. */
  datatype ToolCall = ToolCall(
    name: string,
    args: seq<Field>,
    result: seq<Response>,
    status: string,
    displayName: string,
    description: string)

  /** A chat message: `kind` is its `type` field. */
  datatype GeminiMessage = GeminiMessage(
    kind: string,
    content: string,
    thoughts: Option<seq<Thought>>,
    toolCalls: Option<seq<ToolCall>>)

  /** What one message renders as. */
  datatype Entry = UserEntry(prompt: string) | ModelEntry(blocks: seq<Block>)

  function Outputs(result: seq<Response>): (r: seq<Prop>)
    ensures |r| == |result|
    ensures forall i :: 0 <= i < |result| ==> r[i] == result[i].output
  {
    if |result| == 0 then [] else [result[0].output] + Outputs(result[1..])
  }

  /** A shell fragment shows its output, or its error when the output is falsy. */
  function ShellOutputs(result: seq<Response>): (r: seq<Prop>)
    ensures |r| == |result|
    ensures forall i :: 0 <= i < |result| ==> r[i] == Or(result[i].output, result[i].error)
  {
    if |result| == 0 then [] else [Or(result[0].output, result[0].error)] + ShellOutputs(result[1..])
  }

  /** One todo: `description` becomes the content, `status` passes through;
    * reading a field of `null` or `undefined` throws. */
  function TodoOf(todo: JValue): (r: JsResult<Todo>)
    ensures r.Err? <==> todo.JNull?
    ensures r.Ok? ==> r.value == Todo(Get(todo, "description"), Get(todo, "status"))
  {
    if todo.JNull? then Err(TypeError)
    else Ok(Todo(Get(todo, "description"), Get(todo, "status")))
  }

  /** The block of one tool call, or the exception rendering it throws. */
  function ToolCallBlock(call: ToolCall): JsResult<Block>
  {
    var args := call.args;
    if call.name == "write_file" then
      Ok(Edit(Lookup(args, "file_path"), Str(""), Lookup(args, "content")))
    else if call.name == "list_directory" then
      Ok(Shell(Str("List " + ToStr(Lookup(args, "dir_path"))), Str(JoinProps(Outputs(call.result), "\n")), None))
    else if call.name == "read_file" then
      // `joined || ""` is the joined text itself
      Ok(Read(Lookup(args, "file_path"), Str(JoinProps(Outputs(call.result), "\n")), None, None))
    else if call.name == "write_todos" then
      var items :- Elements(Lookup(args, "todos"));
      var todos :- MapResult(TodoOf, items);
      Ok(Todos(todos))
    else if call.name == "replace" then
      Ok(Edit(Lookup(args, "file_path"), Lookup(args, "old_string"), Lookup(args, "new_string")))
    else if call.name == "run_shell_command" then
      Ok(Shell(Lookup(args, "command"), Str(JoinProps(ShellOutputs(call.result), "\n")), Lookup(args, "description")))
    else
      Ok(Generic(Str(call.displayName), Str(call.description), Str(call.status)))
  }

  /** Each of the six known tool names gets its own view of the arguments
    * and results, any other call its display name, description and status;
    * only `write_todos` throws, exactly when `todos` is not an array or
    * holds `null`. */
  lemma ToolCallBlockCases(call: ToolCall)
    ensures ToolCallBlock(call).Err? <==> (call.name == "write_todos" &&
      (!IsArray(Lookup(call.args, "todos")) ||
       exists i :: 0 <= i < |Lookup(call.args, "todos").value.items| && Lookup(call.args, "todos").value.items[i].JNull?))
    ensures call.name == "write_file" ==>
      ToolCallBlock(call) == Ok(Edit(Lookup(call.args, "file_path"), Str(""), Lookup(call.args, "content")))
    ensures call.name == "replace" ==>
      ToolCallBlock(call) == Ok(Edit(Lookup(call.args, "file_path"), Lookup(call.args, "old_string"), Lookup(call.args, "new_string")))
    ensures call.name == "list_directory" ==>
      ToolCallBlock(call) == Ok(Shell(Str("List " + ToStr(Lookup(call.args, "dir_path"))), Str(JoinProps(Outputs(call.result), "\n")), None))
    ensures call.name == "read_file" ==>
      ToolCallBlock(call) == Ok(Read(Lookup(call.args, "file_path"), Str(JoinProps(Outputs(call.result), "\n")), None, None))
    ensures call.name == "run_shell_command" ==>
      ToolCallBlock(call) == Ok(Shell(Lookup(call.args, "command"), Str(JoinProps(ShellOutputs(call.result), "\n")), Lookup(call.args, "description")))
    ensures call.name == "write_todos" && ToolCallBlock(call).Ok? ==>
      var items := Lookup(call.args, "todos").value.items;
      ToolCallBlock(call).value.Todos? && |ToolCallBlock(call).value.todos| == |items| &&
      forall i :: 0 <= i < |items| ==> ToolCallBlock(call).value.todos[i] == Todo(Get(items[i], "description"), Get(items[i], "status"))
    ensures call.name !in {"write_file", "list_directory", "read_file", "write_todos", "replace", "run_shell_command"} ==>
      ToolCallBlock(call) == Ok(Generic(Str(call.displayName), Str(call.description), Str(call.status)))
  {
  }

  function ThoughtBlock(t: Thought): Block
  {
    Thinking(Str(t.description), Str(t.subject))
  }

  /** One thinking block per thought, in order. */
  function ThoughtBlocks(ts: seq<Thought>): (r: seq<Block>)
    ensures |r| == |ts|
    ensures forall i :: 0 <= i < |ts| ==> r[i] == ThoughtBlock(ts[i])
    decreases |ts|
  {
    if |ts| == 0 then [] else ThoughtBlocks(ts[..|ts| - 1]) + [ThoughtBlock(ts[|ts| - 1])]
  }

  /** The thoughts of a message; none when the field is absent. */
  function ThoughtsOf(m: GeminiMessage): seq<Thought>
  {
    if m.thoughts.Some? then m.thoughts.value else []
  }

  /** The tool calls of a message; none when the field is absent. */
  function CallsOf(m: GeminiMessage): seq<ToolCall>
  {
    if m.toolCalls.Some? then m.toolCalls.value else []
  }

  /** The text block of a message: present only for non-empty content. */
  function ContentBlock(m: GeminiMessage): seq<Block>
  {
    if m.content != "" then [Text(Str(m.content), [])] else []
  }

  /** The blocks of a model message: thoughts, then the text when it is
    * non-empty, then one block per tool call. */
  function ModelBlocks(m: GeminiMessage): JsResult<seq<Block>>
  {
    var calls :- MapResult(ToolCallBlock, CallsOf(m));
    Ok(ThoughtBlocks(ThoughtsOf(m)) + ContentBlock(m) + calls)
  }

  /** The `renderedItems` of a model message, pushed as the source does. */
  method RenderModelMessage(m: GeminiMessage) returns (r: JsResult<seq<Block>>)
    ensures r == ModelBlocks(m)
  {
    var renderedItems: seq<Block> := [];
    if m.thoughts.Some? {
      renderedItems := PushThoughts(renderedItems, m.thoughts.value);
    }
    if m.content != "" {
      renderedItems := renderedItems + [Text(Str(m.content), [])];
    }
    assert renderedItems == ThoughtBlocks(ThoughtsOf(m)) + ContentBlock(m);
    if m.toolCalls.Some? {
      r := PushToolCalls(renderedItems, m.toolCalls.value);
    } else {
      assert MapResult(ToolCallBlock, []) == Ok([]);
      assert renderedItems + [] == renderedItems;
      r := Ok(renderedItems);
    }
  }

  /** `thoughts.forEach(...)`: a thinking block pushed per thought. */
  method PushThoughts(items: seq<Block>, thoughts: seq<Thought>) returns (r: seq<Block>)
    ensures r == items + ThoughtBlocks(thoughts)
  {
    r := items;
    var i := 0;
    while i < |thoughts|
      invariant 0 <= i <= |thoughts|
      invariant r == items + ThoughtBlocks(thoughts[..i])
    {
      assert thoughts[..i + 1][..i] == thoughts[..i];
      r := r + [Thinking(Str(thoughts[i].description), Str(thoughts[i].subject))];
      i := i + 1;
    }
    assert thoughts[..i] == thoughts;
  }

  /** `toolCalls.forEach(...)`: a block pushed per call until one throws. */
  method PushToolCalls(items: seq<Block>, calls: seq<ToolCall>) returns (r: JsResult<seq<Block>>)
    ensures r == match MapResult(ToolCallBlock, calls) case Ok(bs) => Ok(items + bs) case Err(e) => Err(e)
  {
    var pushed := items;
    var j := 0;
    while j < |calls|
      invariant 0 <= j <= |calls|
      invariant MapResult(ToolCallBlock, calls[..j]).Ok?
      invariant pushed == items + MapResult(ToolCallBlock, calls[..j]).value
    {
      MapResultStep(ToolCallBlock, calls, j);
      var b := ToolCallBlock(calls[j]);
      if b.Err? {
        MapResultErrPrefix(ToolCallBlock, calls, j + 1);
        return Err(b.error);
      }
      pushed := pushed + [b.value];
      j := j + 1;
    }
    assert calls[..j] == calls;
    r := Ok(pushed);
  }

  /** What one message renders: nothing for a type other than "user" and
    * "gemini". */
  function MessageEntry(m: GeminiMessage): (r: JsResult<Option<Entry>>)
    ensures m.kind == "user" ==> r == Ok(Some(UserEntry(m.content)))
    ensures m.kind != "user" && m.kind != "gemini" ==> r == Ok(None)
  {
    if m.kind == "user" then Ok(Some(UserEntry(m.content)))
    else if m.kind == "gemini" then
      var blocks :- ModelBlocks(m);
      Ok(Some(ModelEntry(blocks)))
    else Ok(None)
  }

  /** `messages.map(...)`: one entry per message, or the first exception. */
  function ThreadEntries(messages: seq<GeminiMessage>): (r: JsResult<seq<Option<Entry>>>)
    ensures r.Ok? ==> |r.value| == |messages|
  {
    MapResult(MessageEntry, messages)
  }

  /** A model message's blocks: its thoughts first, in order, then its text
    * when non-empty, then one block per tool call, in call order; it throws
    * exactly when one of its calls does. */
  lemma ModelBlocksOrder(m: GeminiMessage)
    ensures ModelBlocks(m).Ok? <==> forall i :: 0 <= i < |CallsOf(m)| ==> ToolCallBlock(CallsOf(m)[i]).Ok?
    ensures ModelBlocks(m).Ok? ==>
      |ModelBlocks(m).value| == |ThoughtsOf(m)| + |ContentBlock(m)| + |CallsOf(m)|
    ensures ModelBlocks(m).Ok? ==>
      forall i :: 0 <= i < |ThoughtsOf(m)| ==> ModelBlocks(m).value[i] == ThoughtBlock(ThoughtsOf(m)[i])
    ensures ModelBlocks(m).Ok? && m.content != "" ==>
      |ContentBlock(m)| == 1 && ModelBlocks(m).value[|ThoughtsOf(m)|] == Text(Str(m.content), [])
    ensures ModelBlocks(m).Ok? ==> forall i :: 0 <= i < |CallsOf(m)| ==>
      ToolCallBlock(CallsOf(m)[i]) == Ok(ModelBlocks(m).value[|ThoughtsOf(m)| + |ContentBlock(m)| + i])
  {
    if ModelBlocks(m).Ok? {
      var lead := ThoughtBlocks(ThoughtsOf(m)) + ContentBlock(m);
      assert ModelBlocks(m).value == lead + MapResult(ToolCallBlock, CallsOf(m)).value;
      TailMapped(ToolCallBlock, lead, CallsOf(m));
    }
  }

  /** What `f` maps `xs` to sits after any leading blocks. */
  lemma TailMapped<T, B>(f: T -> JsResult<B>, lead: seq<B>, xs: seq<T>)
    requires MapResult(f, xs).Ok?
    ensures forall i :: 0 <= i < |xs| ==> f(xs[i]) == Ok((lead + MapResult(f, xs).value)[|lead| + i])
  {
  }

  /** The entry of every message is at its position: a user message is its
    * prompt, a model message its blocks, any other type nothing. */
  lemma {:induction false} ThreadEntriesSpec(messages: seq<GeminiMessage>, i: nat)
    requires i < |messages| && ThreadEntries(messages).Ok?
    ensures var e := ThreadEntries(messages).value[i];
      var m := messages[i];
      (m.kind == "user" ==> e == Some(UserEntry(m.content))) &&
      (m.kind == "gemini" ==> ModelBlocks(m).Ok? && e == Some(ModelEntry(ModelBlocks(m).value))) &&
      (m.kind != "user" && m.kind != "gemini" ==> e.None?)
  {
    assert MessageEntry(messages[i]) == Ok(ThreadEntries(messages).value[i]);
  }

  /** One tool call that throws makes the whole thread throw. */
  lemma ThreadThrows(messages: seq<GeminiMessage>, i: nat, k: nat)
    requires i < |messages| && messages[i].kind == "gemini"
    requires messages[i].toolCalls.Some? && k < |messages[i].toolCalls.value|
    requires ToolCallBlock(messages[i].toolCalls.value[k]).Err?
    ensures ThreadEntries(messages).Err?
  {
    ModelBlocksOrder(messages[i]);
  }
}
