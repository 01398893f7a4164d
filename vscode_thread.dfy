/**
 * The VS Code thread renderer. For every request it first runs a pass over
 * the response items that assigns `kind = "toolInvocationSerialized"` to
 * every item (the filter callback is an assignment, not a comparison) and
 * records, for the k-th item with a truthy `toolId`, the k-th tool-call
 * round with each call's result filled in. It then walks the items,
 * accumulating text and inline references and flushing them before any
 * other item, and dispatches tool invocations by `toolId`.
 */
module VSCodeThread {
  import opened Strings
  import opened Js
  import opened Folds
  import opened Blocks
  import opened VSCodeTypes
  import opened VSCodeTools

  const ToolKind := "toolInvocationSerialized"

  /** The code fence that is not treated as text. */
  const Fence := "\n```\n"

  // ---------------------------------------------------------------------
  // Item predicates

  /** A response item with a string `value` other than the bare fence. */
  predicate IsTextResponse(item: JObject)
  {
    IsString(Get(item, "value")) && Get(item, "value") != Str(Fence)
  }

  predicate IsFileInlineReference(item: JObject)
  {
    var reference := Get(item, "inlineReference");
    IsStr(Get(item, "kind"), "inlineReference") && IsObjectType(reference)
    && IsStr(OptGet(OptGet(OptGet(reference, "location"), "uri"), "scheme"), "file")
  }

  /** The item has a `toolId` key and the tool-invocation kind. */
  predicate IsToolCall(item: JObject)
  {
    Get(item, "toolId").Some? && IsStr(Get(item, "kind"), ToolKind)
  }

  predicate IsThinkingResponse(item: JObject)
  {
    IsStr(Get(item, "kind"), "thinking")
  }

  /** The terminal check compares with `==`. */
  predicate IsShellToolCall(item: JObject)
  {
    IsToolCall(item) && LooseEqualsText(Get(item, "toolId"), "run_in_terminal")
  }

  predicate IsTool(item: JObject, toolId: string)
  {
    IsToolCall(item) && IsStr(Get(item, "toolId"), toolId)
  }

  predicate IsTodoList(item: JObject)
  {
    IsTool(item, "manage_todo_list") && IsStr(OptGet(Get(item, "toolSpecificData"), "kind"), "todoList")
  }

  /** `"source" in item && "type" in item.source && item.source.type === "mcp"`:
    * asking `in` of a primitive source throws. */
  function IsMcpToolCall(item: JObject): (r: JsResult<bool>)
    ensures r == Ok(true) <==> IsToolCall(item) && IsStr(OptGet(Get(item, "source"), "type"), "mcp")
    ensures r.Err? <==> IsToolCall(item) && Get(item, "source").Some? && !Get(item, "source").value.JObj? && !Get(item, "source").value.JArr?
  {
    if !IsToolCall(item) || Get(item, "source").None? then Ok(false)
    else
      var hasType :- In("type", Get(item, "source"));
      Ok(hasType && IsStr(OptGet(Get(item, "source"), "type"), "mcp"))
  }

  // ---------------------------------------------------------------------
  // The pre-pass

  /** `r.kind = "toolInvocationSerialized"` */
  function Tag(item: JObject): JObject
  {
    JObj(SetField(item.fields, "kind", JStr(ToolKind)))
  }

  /** Tagging sets `kind` and leaves every other property as it was. */
  lemma TagFields(item: JObject, k: string)
    ensures Get(Tag(item), "kind") == Str(ToolKind)
    ensures k != "kind" ==> Get(Tag(item), k) == Get(item, k)
  {
  }

  function TagAll(items: seq<JObject>): (r: seq<JObject>)
    ensures |r| == |items|
    ensures forall i :: 0 <= i < |items| ==> r[i] == Tag(items[i])
  {
    if |items| == 0 then [] else TagAll(items[..|items| - 1]) + [Tag(items[|items| - 1])]
  }

  /** The number of items with a truthy `toolId`. */
  function CountToolIds(items: seq<JObject>): (r: nat)
    ensures r <= |items|
  {
    if |items| == 0 then 0
    else CountToolIds(items[..|items| - 1]) + (if Truthy(Get(items[|items| - 1], "toolId")) then 1 else 0)
  }

  /** An item that reaches the walk's tool dispatch as a tool call. */
  predicate WalkedToolCall(item: JObject)
  {
    !IsThinkingResponse(item) && !IsTextResponse(item) && !IsFileInlineReference(item) && IsToolCall(item)
  }

  /** The number of items the walk counts as tool calls. */
  function CountToolCalls(items: seq<JObject>): (r: nat)
    ensures r <= |items|
  {
    if |items| == 0 then 0
    else CountToolCalls(items[..|items| - 1]) + (if WalkedToolCall(items[|items| - 1]) then 1 else 0)
  }

  /** `toolCallResults?.[id]` */
  function ResultFor(results: Option<map<string, CallResult>>, id: string): (r: Option<CallResult>)
    ensures r.Some? <==> results.Some? && id in results.value
    ensures r.Some? ==> r.value == results.value[id]
  {
    if results.Some? && id in results.value then Some(results.value[id]) else None
  }

  /** Every call gets the result recorded under its id, or none. */
  function FillResults(calls: seq<ToolCall>, results: Option<map<string, CallResult>>): (r: seq<ToolCall>)
    ensures |r| == |calls|
    ensures forall i :: 0 <= i < |calls| ==> r[i] == calls[i].(result := ResultFor(results, calls[i].id))
  {
    if |calls| == 0 then []
    else [calls[0].(result := ResultFor(results, calls[0].id))] + FillResults(calls[1..], results)
  }

  /** `request.result?.metadata.toolCallRounds?.[k]` after its calls got their results. */
  function RoundAt(meta: Option<ResultMetadata>, k: nat): (r: Option<Round>)
    ensures r.Some? <==> meta.Some? && meta.value.toolCallRounds.Some? && k < |meta.value.toolCallRounds.value|
  {
    if meta.None? || meta.value.toolCallRounds.None? || k >= |meta.value.toolCallRounds.value| then None
    else
      var round := meta.value.toolCallRounds.value[k];
      Some(round.(toolCalls := FillResults(round.toolCalls, meta.value.toolCallResults)))
  }

  /** The map key `${kind}-${index}` of a tagged item. */
  function ToolKey(k: nat): string
  {
    ToolKind + "-" + NatToString(k)
  }

  /** The map the pre-pass builds for `n` items with a truthy `toolId`. */
  function RoundMap(n: nat, meta: Option<ResultMetadata>): map<string, Option<Round>>
  {
    if n == 0 then map[] else RoundMap(n - 1, meta)[ToolKey(n - 1) := RoundAt(meta, n - 1)]
  }

  /** `toolCallsMap.get(key)`: a missing key and a stored `undefined` look alike. */
  function MapGet(m: map<string, Option<Round>>, key: string): (r: Option<Round>)
    ensures key !in m ==> r.None?
    ensures key in m ==> r == m[key]
  {
    if key in m then m[key] else None
  }

  lemma ToolKeyInjective(j: nat, k: nat)
    requires ToolKey(j) == ToolKey(k)
    ensures j == k
  {
    var p := ToolKind + "-";
    assert ToolKey(j)[|p|..] == NatToString(j);
    assert ToolKey(k)[|p|..] == NatToString(k);
    NatToStringInjective(j, k);
  }

  /** The map holds exactly the keys of the first `n` indices, and index `k`
    * holds the k-th round. */
  lemma {:induction false} RoundMapLookup(n: nat, meta: Option<ResultMetadata>, k: nat)
    ensures ToolKey(k) in RoundMap(n, meta) <==> k < n
    ensures k < n ==> RoundMap(n, meta)[ToolKey(k)] == RoundAt(meta, k)
  {
    if n > 0 {
      RoundMapLookup(n - 1, meta, k);
      if k != n - 1 && ToolKey(k) == ToolKey(n - 1) {
        ToolKeyInjective(k, n - 1);
      }
    }
  }

  /** The assigning `filter` of the pre-pass: every item's `kind` is overwritten. */
  method TagItems(items: array<JObject>)
    modifies items
    ensures items[..] == TagAll(old(items[..]))
  {
    ghost var before := items[..];
    var i := 0;
    while i < items.Length
      invariant 0 <= i <= items.Length
      invariant items[..i] == TagAll(before[..i])
      invariant items[i..] == before[i..]
    {
      assert before[..i + 1][..i] == before[..i];
      assert items[i] == before[i] by { assert items[i..][0] == items[i]; }
      items[i] := Tag(items[i]);
      assert items[..i + 1] == items[..i] + [items[i]];
      i := i + 1;
    }
    assert items[..] == items[..i] && before[..i] == before;
  }

  /** The `toolId` filter and the `forEach` of the pre-pass: the k-th item
    * with a truthy `toolId` is recorded under key k. */
  method CollectRounds(items: array<JObject>, meta: Option<ResultMetadata>) returns (toolCallsMap: map<string, Option<Round>>)
    ensures toolCallsMap == RoundMap(CountToolIds(items[..]), meta)
  {
    toolCallsMap := map[];
    var index := 0;
    var i := 0;
    while i < items.Length
      invariant 0 <= i <= items.Length
      invariant index == CountToolIds(items[..i])
      invariant toolCallsMap == RoundMap(index, meta)
    {
      assert items[..i + 1][..i] == items[..i];
      if Truthy(Get(items[i], "toolId")) {
        toolCallsMap := toolCallsMap[ToolKey(index) := RoundAt(meta, index)];
        index := index + 1;
      }
      i := i + 1;
    }
    assert items[..i] == items[..];
  }

  /** The pre-pass over the request's response items. */
  method PrePass(items: array<JObject>, meta: Option<ResultMetadata>) returns (toolCallsMap: map<string, Option<Round>>)
    modifies items
    ensures items[..] == TagAll(old(items[..]))
    ensures toolCallsMap == RoundMap(CountToolIds(items[..]), meta)
  {
    TagItems(items);
    toolCallsMap := CollectRounds(items, meta);
  }

  /** After the pre-pass no item is a thinking item or an inline reference,
    * whatever it was before. */
  lemma TaggedItemsLoseTheirKind(items: seq<JObject>, i: nat)
    requires i < |items|
    ensures !IsThinkingResponse(TagAll(items)[i]) && !IsFileInlineReference(TagAll(items)[i])
    ensures IsToolCall(TagAll(items)[i]) <==> Get(items[i], "toolId").Some?
  {
    TagFields(items[i], "toolId");
  }

  // ---------------------------------------------------------------------
  // Blocks of one tool invocation

  function RoundCalls(round: Option<Round>): seq<ToolCall>
  {
    if round.Some? then round.value.toolCalls else []
  }

  /** The round's thinking, shown before its calls. */
  function RoundThinking(round: Option<Round>): (r: seq<Block>)
    ensures |r| <= 1
    ensures |r| == 1 <==> round.Some? && round.value.thinking.Some?
    ensures |r| == 1 ==> r[0] == Thinking(Str(round.value.thinking.value.text), None)
  {
    if round.Some? && round.value.thinking.Some? then [Thinking(Str(round.value.thinking.value.text), None)] else []
  }

  /** `c.value` of every content entry. */
  function ContentValues(content: seq<JObject>): (r: seq<Prop>)
    ensures |r| == |content|
    ensures forall i :: 0 <= i < |content| ==> r[i] == Get(content[i], "value")
  {
    if |content| == 0 then [] else [Get(content[0], "value")] + ContentValues(content[1..])
  }

  /** `call.result?.content.map((c) => c.value).join("\n") ?? ""` */
  function CallResultText(result: Option<CallResult>): (r: string)
    ensures result.None? ==> r == ""
    ensures result.Some? ==> r == JoinProps(ContentValues(result.value.content), "\n")
  {
    if result.None? then "" else JoinProps(ContentValues(result.value.content), "\n")
  }

  const UnknownCommand := "Unknown command executed in terminal"

  function ShellCallBlock(call: ToolCall, parse: Parser): (r: JsResult<Block>)
    ensures r.Ok? <==> Destructure(parse, ArgsText(call.arguments)).Ok?
    ensures r.Ok? ==> r.value.Shell? && r.value.result == Str(CallResultText(call.result))
    ensures r.Ok? ==> var command := Get(Destructure(parse, ArgsText(call.arguments)).value, "command");
                      r.value.command == if Nullish(command) then Str(UnknownCommand) else command
  {
    var args :- Destructure(parse, ArgsText(call.arguments));
    Ok(Shell(Coalesce(Get(args, "command"), Str(UnknownCommand)), Str(CallResultText(call.result)), None))
  }

  /** A terminal round: its thinking first, then one shell block per call. */
  function ShellBlocks(round: Option<Round>, parse: Parser): (r: JsResult<seq<Block>>)
    ensures r.Ok? <==> forall i :: 0 <= i < |RoundCalls(round)| ==> ShellCallBlock(RoundCalls(round)[i], parse).Ok?
    ensures r.Ok? ==> |r.value| == |RoundThinking(round)| + |RoundCalls(round)|
    ensures r.Ok? ==> r.value[..|RoundThinking(round)|] == RoundThinking(round)
    ensures r.Ok? ==> forall i :: 0 <= i < |RoundCalls(round)| ==>
              Ok(r.value[|RoundThinking(round)| + i]) == ShellCallBlock(RoundCalls(round)[i], parse)
  {
    var shells :- MapResult((call: ToolCall) => ShellCallBlock(call, parse), RoundCalls(round));
    Ok(RoundThinking(round) + shells)
  }

  /** The arguments of the round's first call, or `"{}"`. */
  function PatchArgs(round: Option<Round>): string
  {
    ArgsText(if round.Some? && |round.value.toolCalls| > 0 then round.value.toolCalls[0].arguments else None)
  }

  function ReplaceStringEdit(call: ToolCall, parse: Parser): (r: JsResult<Block>)
    ensures r.Ok? <==> Destructure(parse, ArgsText(call.arguments)).Ok?
    ensures r.Ok? ==> var args := Destructure(parse, ArgsText(call.arguments)).value;
              r.value == Edit(Get(args, "filePath"), Or(Get(args, "oldString"), Str("")), Or(Get(args, "newString"), Str("")))
  {
    var args :- Destructure(parse, ArgsText(call.arguments));
    Ok(Edit(Get(args, "filePath"), Or(Get(args, "oldString"), Str("")), Or(Get(args, "newString"), Str(""))))
  }

  function InsertEdit(call: ToolCall, parse: Parser): (r: JsResult<Block>)
    ensures r.Ok? <==> Destructure(parse, ArgsText(call.arguments)).Ok?
    ensures r.Ok? ==> var args := Destructure(parse, ArgsText(call.arguments)).value;
              r.value == Edit(Get(args, "filePath"), Str(""), Get(args, "code"))
  {
    var args :- Destructure(parse, ArgsText(call.arguments));
    Ok(Edit(Get(args, "filePath"), Str(""), Get(args, "code")))
  }

  /** `uri.path` of every search result (`({ uri }) => uri.path`). */
  function ResultPaths(entries: seq<JValue>): (r: JsResult<seq<Prop>>)
    ensures r.Ok? <==> forall i :: 0 <= i < |entries| ==> !Nullish(Get(entries[i], "uri"))
    ensures r.Ok? ==> |r.value| == |entries| && forall i :: 0 <= i < |entries| ==> r.value[i] == OptGet(Get(entries[i], "uri"), "path")
  {
    MapResult((e: JValue) => Member(Get(e, "uri"), "path"), entries)
  }

  /** A text search: the past-tense message and the matched paths, one per line. */
  function FindTextBlock(item: JObject): (r: JsResult<Block>)
    ensures r.Ok? ==> r.value.Shell? && r.value.command == Or(OptGet(Get(item, "pastTenseMessage"), "value"), Str(""))
    ensures Nullish(Get(item, "resultDetails")) ==> r.Ok? && r.value.result == Str("")
    ensures !Nullish(Get(item, "resultDetails")) && !IsArray(Get(item, "resultDetails")) ==> r == Err(TypeError)
    ensures IsArray(Get(item, "resultDetails")) ==>
      (r.Ok? <==> ResultPaths(Get(item, "resultDetails").value.items).Ok?)
      && (r.Ok? ==> r.value.result == Str(JoinProps(ResultPaths(Get(item, "resultDetails").value.items).value, "\n")))
  {
    var entries :- ElementsOrEmpty(Get(item, "resultDetails"));
    var paths :- ResultPaths(entries);
    Ok(Shell(Or(OptGet(Get(item, "pastTenseMessage"), "value"), Str("")), Str(JoinProps(paths, "\n")), None))
  }

  /** The todo statuses of VS Code mapped to the todo block's statuses. */
  function TodoStatus(status: Prop): (r: string)
    ensures IsStr(status, "in-progress") <==> r == "in_progress"
    ensures IsStr(status, "completed") <==> r == "completed"
    ensures !IsStr(status, "in-progress") && !IsStr(status, "completed") <==> r == "pending"
  {
    if IsStr(status, "in-progress") then "in_progress"
    else if IsStr(status, "completed") then "completed"
    else "pending"
  }

  function TodoOf(t: JValue): (r: JsResult<Todo>)
    ensures r.Err? <==> t.JNull?
    ensures r.Ok? ==> r.value == Todo(Get(t, "title"), Str(TodoStatus(Get(t, "status"))))
  {
    if t.JNull? then Err(TypeError) else Ok(Todo(Get(t, "title"), Str(TodoStatus(Get(t, "status")))))
  }

  /** One todo per entry of `toolSpecificData.todoList`, in order. */
  function TodoBlock(item: JObject): (r: JsResult<Block>)
    ensures r.Ok? ==> r.value.Todos?
    ensures r.Ok? ==> var list := OptGet(Get(item, "toolSpecificData"), "todoList");
              IsArray(list) && |r.value.todos| == |list.value.items|
              && forall i :: 0 <= i < |list.value.items| ==> Ok(r.value.todos[i]) == TodoOf(list.value.items[i])
  {
    var list :- Elements(OptGet(Get(item, "toolSpecificData"), "todoList"));
    var todos :- MapResult(TodoOf, list);
    Ok(Todos(todos))
  }

  function McpBlock(item: JObject): (r: JsResult<Block>)
    ensures r.Ok? ==> r.value.Mcp?
    ensures r.Ok? ==> r.value.serverName == OptGet(Get(item, "source"), "label")
    ensures r.Ok? ==> r.value.toolName == Or(OptGet(Get(item, "pastTenseMessage"), "value"), Get(item, "toolId"))
    ensures r.Ok? ==> r.value.input == Coalesce(OptGet(Get(item, "resultDetails"), "input"), Str(""))
    ensures Nullish(OptGet(Get(item, "resultDetails"), "output")) ==> r.Ok? && r.value.result == Str("")
    ensures !Nullish(OptGet(Get(item, "resultDetails"), "output")) && !IsArray(OptGet(Get(item, "resultDetails"), "output")) ==>
      r == Err(TypeError)
    ensures IsArray(OptGet(Get(item, "resultDetails"), "output")) ==>
      (r.Ok? <==> OutputValues(OptGet(Get(item, "resultDetails"), "output").value.items).Ok?)
      && (r.Ok? ==> r.value.result == Str(JoinProps(OutputValues(OptGet(Get(item, "resultDetails"), "output").value.items).value, "\n")))
  {
    var details := Get(item, "resultDetails");
    var outputs :- ElementsOrEmpty(OptGet(details, "output"));
    var values :- OutputValues(outputs);
    Ok(Mcp(OptGet(Get(item, "source"), "label"),
           Or(OptGet(Get(item, "pastTenseMessage"), "value"), Get(item, "toolId")),
           Coalesce(OptGet(details, "input"), Str("")),
           Str(JoinProps(values, "\n"))))
  }

  /** The edit blocks of a replace-string round: one per call, in order. */
  function ReplaceStringEdits(round: Option<Round>, parse: Parser): (r: JsResult<seq<Block>>)
    ensures r.Ok? <==> forall i :: 0 <= i < |RoundCalls(round)| ==> ReplaceStringEdit(RoundCalls(round)[i], parse).Ok?
    ensures r.Ok? ==> (|r.value| == |RoundCalls(round)|
      && forall i :: 0 <= i < |RoundCalls(round)| ==> ReplaceStringEdit(RoundCalls(round)[i], parse) == Ok(r.value[i]))
  {
    MapResult((call: ToolCall) => ReplaceStringEdit(call, parse), RoundCalls(round))
  }

  /** The edit blocks of an insert-edit round: one per call, in order. */
  function InsertEdits(round: Option<Round>, parse: Parser): (r: JsResult<seq<Block>>)
    ensures r.Ok? <==> forall i :: 0 <= i < |RoundCalls(round)| ==> InsertEdit(RoundCalls(round)[i], parse).Ok?
    ensures r.Ok? ==> (|r.value| == |RoundCalls(round)|
      && forall i :: 0 <= i < |RoundCalls(round)| ==> InsertEdit(RoundCalls(round)[i], parse) == Ok(r.value[i]))
  {
    MapResult((call: ToolCall) => InsertEdit(call, parse), RoundCalls(round))
  }

  /** The tail of the dispatch, from the glob search on. */
  function LaterToolBlocks(item: JObject, round: Option<Round>, parse: Parser): (r: JsResult<seq<Block>>)
    ensures !IsToolCall(item) ==> r == Ok([])
    ensures r.Ok? ==> NoText(r.value)
  {
    if IsTool(item, "copilot_findFiles") then
      Ok([Shell(Or(OptGet(Get(item, "pastTenseMessage"), "value"), Str("glob search")), None, None)])
    else if IsTool(item, "copilot_readFile") then
      ReadFileCall(round, parse)
    else
      var mcp :- IsMcpToolCall(item);
      if mcp then
        var b :- McpBlock(item);
        Ok([b])
      else if IsToolCall(item) then
        ToolCallView(item, round, parse)
      else Ok([])
  }

  /** What an item that is neither thinking, text nor an inline reference
    * renders, given the round it was matched with. Only tool invocations
    * render anything, and none of it is markdown text. */
  function ToolBlocks(item: JObject, round: Option<Round>, parse: Parser): (r: JsResult<seq<Block>>)
    ensures !IsToolCall(item) ==> r == Ok([])
    ensures r.Ok? ==> NoText(r.value)
  {
    if IsShellToolCall(item) then ShellBlocks(round, parse)
    else if IsTool(item, "copilot_applyPatch") then
      var patch :- Destructure(parse, PatchArgs(round));
      Ok([Patch(Get(patch, "input"))])
    else if IsTool(item, "copilot_replaceString") then ReplaceStringEdits(round, parse)
    else if IsTool(item, "vscode_editFile_internal") then Ok([])
    else if IsTool(item, "copilot_insertEdit") then
      var edits :- InsertEdits(round, parse);
      Ok(RoundThinking(round) + edits)
    else if IsTool(item, "copilot_findTextInFiles") then
      var b :- FindTextBlock(item);
      Ok([b])
    else if IsTodoList(item) then
      var b :- TodoBlock(item);
      Ok([b])
    else LaterToolBlocks(item, round, parse)
  }

  /** A terminal call renders the shell blocks of its round, an apply-patch
    * call the patch of the round's first call, an internal edit call
    * nothing. */
  lemma ToolBlocksDispatch(item: JObject, round: Option<Round>, parse: Parser)
    ensures IsShellToolCall(item) ==> ToolBlocks(item, round, parse) == ShellBlocks(round, parse)
    ensures !IsShellToolCall(item) && IsTool(item, "copilot_applyPatch") ==>
              ToolBlocks(item, round, parse) ==
              match Destructure(parse, PatchArgs(round)) case Ok(p) => Ok([Patch(Get(p, "input"))]) case Err(e) => Err(e)
    ensures IsTool(item, "vscode_editFile_internal") ==> ToolBlocks(item, round, parse) == Ok([])
    ensures !IsShellToolCall(item) && IsTool(item, "copilot_replaceString") ==>
              ToolBlocks(item, round, parse) == ReplaceStringEdits(round, parse)
    ensures !IsShellToolCall(item) && IsTool(item, "copilot_insertEdit") ==>
              ToolBlocks(item, round, parse) ==
              match InsertEdits(round, parse) case Ok(es) => Ok(RoundThinking(round) + es) case Err(e) => Err(e)
    ensures !IsShellToolCall(item) && IsTool(item, "copilot_findTextInFiles") ==>
              ToolBlocks(item, round, parse) ==
              match FindTextBlock(item) case Ok(b) => Ok([b]) case Err(e) => Err(e)
    ensures !IsShellToolCall(item) && IsTodoList(item) ==>
              ToolBlocks(item, round, parse) ==
              match TodoBlock(item) case Ok(b) => Ok([b]) case Err(e) => Err(e)
  {
  }

  /** The ids the dispatch names before its MCP and generic arms. */
  predicate NamedTool(item: JObject)
  {
    IsShellToolCall(item) || IsTodoList(item)
    || IsTool(item, "copilot_applyPatch") || IsTool(item, "copilot_replaceString")
    || IsTool(item, "vscode_editFile_internal") || IsTool(item, "copilot_insertEdit")
    || IsTool(item, "copilot_findTextInFiles") || IsTool(item, "copilot_findFiles")
    || IsTool(item, "copilot_readFile")
  }

  /** The rest of the closed enumeration: the glob search, the file read,
    * the MCP arm (whose `in` test may throw) and the generic tool call. */
  lemma LaterToolBlocksDispatch(item: JObject, round: Option<Round>, parse: Parser)
    ensures !IsShellToolCall(item) && IsTool(item, "copilot_findFiles") ==>
              ToolBlocks(item, round, parse) ==
              Ok([Shell(Or(OptGet(Get(item, "pastTenseMessage"), "value"), Str("glob search")), None, None)])
    ensures !IsShellToolCall(item) && IsTool(item, "copilot_readFile") ==>
              ToolBlocks(item, round, parse) == ReadFileCall(round, parse)
    ensures IsToolCall(item) && !NamedTool(item) ==>
              ToolBlocks(item, round, parse) ==
              match IsMcpToolCall(item)
              case Err(e) => Err(e)
              case Ok(true) => (match McpBlock(item) case Ok(b) => Ok([b]) case Err(e) => Err(e))
              case Ok(false) => ToolCallView(item, round, parse)
  {
  }

  // ---------------------------------------------------------------------
  // The walk

  /** The walk's variables: the tool-call counter, the pending text and
    * references, and the rendered items. */
  datatype Walk = Walk(toolCallIndex: nat, currentText: string, currentRefs: seq<JObject>, rendered: seq<Block>)

  const Start := Walk(0, "", [], [])

  /** The marker an inline reference leaves in the text. */
  function RefMarker(n: nat): string
  {
    "<span data-ref-index=\"" + NatToString(n) + "\"></span>"
  }

  /** `flushText`: nothing while the text is empty. */
  function FlushText(w: Walk): Walk
  {
    if w.currentText == "" then w
    else w.(rendered := w.rendered + [Text(Str(w.currentText), w.currentRefs)], currentText := "", currentRefs := [])
  }

  /** The body of the `forEach` over the response items. */
  function WalkStep(m: map<string, Option<Round>>, parse: Parser, w: Walk, item: JObject): JsResult<Walk>
  {
    if IsThinkingResponse(item) then
      var value := Get(item, "value");
      if !IsString(value) then Err(TypeError)
      else if Trim(value.value.s) == "" then Ok(w)
      else Ok(w.(rendered := w.rendered + [Thinking(value, None)]))
    else if IsTextResponse(item) then
      Ok(w.(currentText := w.currentText + Get(item, "value").value.s))
    else if IsFileInlineReference(item) then
      Ok(w.(currentRefs := w.currentRefs + [item], currentText := w.currentText + RefMarker(|w.currentRefs|)))
    else
      var f := FlushText(w);
      var round := if IsToolCall(item) then MapGet(m, ToStr(Get(item, "kind")) + "-" + NatToString(w.toolCallIndex)) else None;
      var index := if IsToolCall(item) then w.toolCallIndex + 1 else w.toolCallIndex;
      var blocks :- ToolBlocks(item, round, parse);
      Ok(f.(toolCallIndex := index, rendered := f.rendered + blocks))
  }

  function Step(m: map<string, Option<Round>>, parse: Parser): (Walk, JObject) -> JsResult<Walk>
  {
    (w: Walk, item: JObject) => WalkStep(m, parse, w, item)
  }

  /** The rendered items of a response: the walk, then the final flush. */
  function ResponseBlocks(items: seq<JObject>, m: map<string, Option<Round>>, parse: Parser): JsResult<seq<Block>>
  {
    var w :- Fold(Step(m, parse), Start, items);
    Ok(FlushText(w).rendered)
  }

  /** The walk over the (tagged) response items. */
  method WalkResponse(items: array<JObject>, toolCallsMap: map<string, Option<Round>>, parse: Parser) returns (r: JsResult<seq<Block>>)
    ensures r == ResponseBlocks(items[..], toolCallsMap, parse)
  {
    var toolCallIndex: nat := 0;
    var currentText := "";
    var currentRefs: seq<JObject> := [];
    var rendered: seq<Block> := [];
    var i := 0;
    while i < items.Length
      invariant 0 <= i <= items.Length
      invariant Fold(Step(toolCallsMap, parse), Start, items[..i]) == Ok(Walk(toolCallIndex, currentText, currentRefs, rendered))
    {
      var item := items[i];
      ghost var w := Walk(toolCallIndex, currentText, currentRefs, rendered);
      FoldStep(Step(toolCallsMap, parse), Start, items[..], i);
      assert Fold(Step(toolCallsMap, parse), Start, items[..i + 1]) == WalkStep(toolCallsMap, parse, w, item);
      if IsThinkingResponse(item) {
        var value := Get(item, "value");
        if !IsString(value) {
          FoldErrPrefix(Step(toolCallsMap, parse), Start, items[..], i + 1);
          return Err(TypeError);
        }
        if Trim(value.value.s) != "" {
          rendered := rendered + [Thinking(value, None)];
        }
      } else if IsTextResponse(item) {
        currentText := currentText + Get(item, "value").value.s;
      } else if IsFileInlineReference(item) {
        currentRefs := currentRefs + [item];
        currentText := currentText + RefMarker(|currentRefs| - 1);
      } else {
        if currentText != "" {
          rendered := rendered + [Text(Str(currentText), currentRefs)];
          currentText := "";
          currentRefs := [];
        }
        var round: Option<Round> := None;
        if IsToolCall(item) {
          round := MapGet(toolCallsMap, ToStr(Get(item, "kind")) + "-" + NatToString(toolCallIndex));
          toolCallIndex := toolCallIndex + 1;
        }
        var blocks := ToolBlocks(item, round, parse);
        if blocks.Err? {
          FoldErrPrefix(Step(toolCallsMap, parse), Start, items[..], i + 1);
          return Err(blocks.error);
        }
        rendered := rendered + blocks.value;
      }
      assert WalkStep(toolCallsMap, parse, w, item) == Ok(Walk(toolCallIndex, currentText, currentRefs, rendered));
      i := i + 1;
    }
    assert items[..i] == items[..];
    if currentText != "" {
      rendered := rendered + [Text(Str(currentText), currentRefs)];
    }
    return Ok(rendered);
  }

  // ---------------------------------------------------------------------
  // Properties of the walk

  lemma StepCounts(m: map<string, Option<Round>>, parse: Parser, w: Walk, item: JObject)
    requires WalkStep(m, parse, w, item).Ok?
    ensures WalkStep(m, parse, w, item).value.toolCallIndex == w.toolCallIndex + (if WalkedToolCall(item) then 1 else 0)
  {
  }

  /** After any prefix the walk's counter is the number of tool calls in it. */
  lemma {:induction false} WalkCountsToolCalls(m: map<string, Option<Round>>, parse: Parser, items: seq<JObject>, i: nat)
    requires i <= |items| && Fold(Step(m, parse), Start, items[..i]).Ok?
    ensures Fold(Step(m, parse), Start, items[..i]).value.toolCallIndex == CountToolCalls(items[..i])
  {
    if i > 0 {
      FoldStep(Step(m, parse), Start, items, i - 1);
      WalkCountsToolCalls(m, parse, items, i - 1);
      StepCounts(m, parse, Fold(Step(m, parse), Start, items[..i - 1]).value, items[i - 1]);
      assert items[..i][..i - 1] == items[..i - 1];
    }
  }

  /** When every present `toolId` is truthy and no tool item carries a string
    * `value`, the pass and the walk count the same items. */
  lemma {:induction false} CountsAgree(raw: seq<JObject>, i: nat)
    requires i <= |raw|
    requires forall j :: 0 <= j < |raw| && Get(raw[j], "toolId").Some? ==>
               Truthy(Get(raw[j], "toolId")) && !IsString(Get(raw[j], "value"))
    ensures CountToolCalls(TagAll(raw)[..i]) == CountToolIds(TagAll(raw)[..i])
  {
    if i > 0 {
      var items := TagAll(raw);
      CountsAgree(raw, i - 1);
      assert items[..i][..i - 1] == items[..i - 1];
      TagFields(raw[i - 1], "toolId");
      TagFields(raw[i - 1], "value");
      TaggedItemsLoseTheirKind(raw, i - 1);
    }
  }

  lemma CountToolIdsStep(items: seq<JObject>, i: nat)
    requires i < |items|
    ensures CountToolIds(items[..i + 1]) == CountToolIds(items[..i]) + (if Truthy(Get(items[i], "toolId")) then 1 else 0)
  {
    assert items[..i + 1][..i] == items[..i];
  }

  lemma {:induction false} CountToolIdsPrefix(items: seq<JObject>, i: nat)
    requires i <= |items|
    ensures CountToolIds(items[..i]) <= CountToolIds(items)
    decreases |items| - i
  {
    if i < |items| {
      CountToolIdsPrefix(items, i + 1);
      assert items[..i + 1][..i] == items[..i];
    } else {
      assert items[..i] == items;
    }
  }

  /** Positional correlation: when every present `toolId` is truthy and no
    * tool item carries a string `value`, the walk gives the item at `i` the
    * round whose index is the number of earlier items with a `toolId`. */
  lemma Alignment(raw: seq<JObject>, meta: Option<ResultMetadata>, parse: Parser, i: nat)
    requires i < |raw| && Get(raw[i], "toolId").Some?
    requires forall j :: 0 <= j < |raw| && Get(raw[j], "toolId").Some? ==>
               Truthy(Get(raw[j], "toolId")) && !IsString(Get(raw[j], "value"))
    requires var items := TagAll(raw);
             Fold(Step(RoundMap(CountToolIds(items), meta), parse), Start, items[..i]).Ok?
    ensures var items := TagAll(raw);
            var m := RoundMap(CountToolIds(items), meta);
            var w := Fold(Step(m, parse), Start, items[..i]).value;
            WalkedToolCall(items[i])
            && w.toolCallIndex == CountToolIds(items[..i])
            && MapGet(m, ToStr(Get(items[i], "kind")) + "-" + NatToString(w.toolCallIndex)) == RoundAt(meta, w.toolCallIndex)
  {
    var items := TagAll(raw);
    var m := RoundMap(CountToolIds(items), meta);
    WalkCountsToolCalls(m, parse, items, i);
    CountsAgree(raw, i);
    ToolItemWalked(raw, i);
    ToolItemRound(raw, meta, i);
  }

  /** An item with a truthy `toolId` and no string `value` reaches the
    * tool dispatch once tagged. */
  lemma ToolItemWalked(raw: seq<JObject>, i: nat)
    requires i < |raw| && Truthy(Get(raw[i], "toolId")) && !IsString(Get(raw[i], "value"))
    ensures WalkedToolCall(TagAll(raw)[i])
  {
    assert TagAll(raw)[i] == Tag(raw[i]);
    TagFields(raw[i], "toolId");
    TagFields(raw[i], "value");
    TaggedItemsLoseTheirKind(raw, i);
  }

  /** The key a tagged tool item is looked up under, with the number of
    * tool items before it, finds its round. */
  lemma ToolItemRound(raw: seq<JObject>, meta: Option<ResultMetadata>, i: nat)
    requires i < |raw| && Truthy(Get(raw[i], "toolId"))
    ensures var items := TagAll(raw);
            var k := CountToolIds(items[..i]);
            MapGet(RoundMap(CountToolIds(items), meta), ToStr(Get(items[i], "kind")) + "-" + NatToString(k)) == RoundAt(meta, k)
  {
    var items := TagAll(raw);
    var k := CountToolIds(items[..i]);
    assert items[i] == Tag(raw[i]);
    TagFields(raw[i], "toolId");
    ToolCountBelow(items, i);
    RoundMapLookup(CountToolIds(items), meta, k);
    KindKey(items[i], k);
  }

  lemma ToolCountBelow(items: seq<JObject>, i: nat)
    requires i < |items| && Truthy(Get(items[i], "toolId"))
    ensures CountToolIds(items[..i]) < CountToolIds(items)
  {
    CountToolIdsStep(items, i);
    CountToolIdsPrefix(items, i + 1);
  }

  lemma KindKey(item: JObject, k: nat)
    requires Get(item, "kind") == Str(ToolKind)
    ensures ToStr(Get(item, "kind")) + "-" + NatToString(k) == ToolKey(k)
  {
  }

  /** The `value` texts of a run of items, in order. */
  function TextValues(items: seq<JObject>): string
  {
    if |items| == 0 then ""
    else TextValues(items[..|items| - 1]) + (if IsString(Get(items[|items| - 1], "value")) then Get(items[|items| - 1], "value").value.s else "")
  }

  /** A run of text items only extends the pending text, by their values in order. */
  lemma {:induction false} TextRunAccumulates(m: map<string, Option<Round>>, parse: Parser, w: Walk, items: seq<JObject>)
    requires forall j :: 0 <= j < |items| ==> IsTextResponse(items[j]) && !IsThinkingResponse(items[j])
    ensures Fold(Step(m, parse), w, items) == Ok(w.(currentText := w.currentText + TextValues(items)))
  {
    if |items| > 0 {
      var prefix, last := items[..|items| - 1], items[|items| - 1];
      TextRunAccumulates(m, parse, w, prefix);
      var v := w.(currentText := w.currentText + TextValues(prefix));
      var value := Get(last, "value").value.s;
      assert Fold(Step(m, parse), w, items) == WalkStep(m, parse, v, last);
      assert WalkStep(m, parse, v, last) == Ok(v.(currentText := v.currentText + value));
      assert TextValues(items) == TextValues(prefix) + value;
      assert v.currentText + value == w.currentText + TextValues(items);
    } else {
      assert w.currentText + "" == w.currentText;
    }
  }

  /** An inline reference is remembered and leaves the marker of its index
    * among the references since the last flush. */
  lemma ReferenceLeavesMarker(m: map<string, Option<Round>>, parse: Parser, w: Walk, item: JObject)
    requires IsFileInlineReference(item) && !IsString(Get(item, "value"))
    ensures WalkStep(m, parse, w, item)
         == Ok(w.(currentRefs := w.currentRefs + [item], currentText := w.currentText + RefMarker(|w.currentRefs|)))
  {
  }

  /** After the pre-pass an inline reference shows nothing: it only flushes
    * the pending text. */
  lemma TaggedReferenceOnlyFlushes(m: map<string, Option<Round>>, parse: Parser, w: Walk, item: JObject)
    requires IsFileInlineReference(item) && Get(item, "toolId").None? && !IsString(Get(item, "value"))
    ensures WalkStep(m, parse, w, Tag(item)) == Ok(FlushText(w))
  {
    TagFields(item, "toolId");
    TagFields(item, "value");
    var t := Tag(item);
    assert !IsThinkingResponse(t) && !IsTextResponse(t) && !IsFileInlineReference(t);
    assert !IsToolCall(t);
    assert ToolBlocks(t, None, parse) == Ok([]);
    assert FlushText(w).rendered + [] == FlushText(w).rendered;
  }

  /** After the pre-pass a thinking item with a string value is shown as
    * markdown text rather than as thinking. */
  lemma TaggedThinkingBecomesText(m: map<string, Option<Round>>, parse: Parser, w: Walk, item: JObject)
    requires IsThinkingResponse(item) && IsString(Get(item, "value")) && Get(item, "value") != Str(Fence)
    ensures WalkStep(m, parse, w, Tag(item)) == Ok(w.(currentText := w.currentText + Get(item, "value").value.s))
  {
    TagFields(item, "value");
    TagFields(item, "kind");
  }

  /** No rendered text block is empty. */
  predicate TextNonEmpty(bs: seq<Block>)
  {
    forall i :: 0 <= i < |bs| && bs[i].Text? ==> bs[i].text != Str("")
  }

  lemma StepKeepsTextNonEmpty(m: map<string, Option<Round>>, parse: Parser, w: Walk, item: JObject)
    requires TextNonEmpty(w.rendered) && WalkStep(m, parse, w, item).Ok?
    ensures TextNonEmpty(WalkStep(m, parse, w, item).value.rendered)
  {
    if !IsThinkingResponse(item) && !IsTextResponse(item) && !IsFileInlineReference(item) {
      var f := FlushText(w);
      assert TextNonEmpty(f.rendered);
      var round := if IsToolCall(item) then MapGet(m, ToStr(Get(item, "kind")) + "-" + NatToString(w.toolCallIndex)) else None;
      var blocks := ToolBlocks(item, round, parse).value;
      assert NoText(blocks);
      var r := f.rendered + blocks;
      assert forall i :: |f.rendered| <= i < |r| ==> r[i] == blocks[i - |f.rendered|];
    }
  }

  lemma {:induction false} WalkKeepsTextNonEmpty(m: map<string, Option<Round>>, parse: Parser, items: seq<JObject>)
    requires Fold(Step(m, parse), Start, items).Ok?
    ensures TextNonEmpty(Fold(Step(m, parse), Start, items).value.rendered)
  {
    if |items| > 0 {
      var prefix := items[..|items| - 1];
      WalkKeepsTextNonEmpty(m, parse, prefix);
      StepKeepsTextNonEmpty(m, parse, Fold(Step(m, parse), Start, prefix).value, items[|items| - 1]);
    }
  }

  /** Every text block a response renders holds some text: `flushText`
    * never emits an empty one. */
  lemma ResponseTextNonEmpty(items: seq<JObject>, m: map<string, Option<Round>>, parse: Parser)
    requires ResponseBlocks(items, m, parse).Ok?
    ensures TextNonEmpty(ResponseBlocks(items, m, parse).value)
  {
    WalkKeepsTextNonEmpty(m, parse, items);
  }

  // ---------------------------------------------------------------------
  // One request

  predicate IsFileVariable(v: JValue)
  {
    IsStr(Get(v, "kind"), "file") || IsStr(Get(v, "kind"), "image")
  }

  /** The prompt's files: the variables of kind "file" or "image", reduced to
    * their id, name and kind; reading the kind of `null` throws. */
  function PromptFiles(vs: seq<JValue>): (r: JsResult<seq<FileRef>>)
    ensures r.Ok? <==> forall i :: 0 <= i < |vs| ==> !vs[i].JNull?
    ensures r.Ok? ==> forall f :: f in r.value ==> f.value.None? && (IsStr(f.kind, "file") || IsStr(f.kind, "image"))
    ensures r.Ok? ==> |r.value| == Kept(vs)
  {
    if |vs| == 0 then Ok([])
    else if vs[0].JNull? then Err(TypeError)
    else
      var rest :- PromptFiles(vs[1..]);
      if IsFileVariable(vs[0]) then Ok([FileRef(Get(vs[0], "id"), Get(vs[0], "name"), Get(vs[0], "kind"), None)] + rest)
      else Ok(rest)
  }

  /** The file a variable contributes: its id, name and kind, when it is a
    * file or an image. */
  function FileOf(v: JValue): Option<FileRef>
  {
    if IsFileVariable(v) then Some(FileRef(Get(v, "id"), Get(v, "name"), Get(v, "kind"), None)) else None
  }

  /** The prompt's files are the file and image variables, in variable
    * order, each carrying that variable's id, name and kind. */
  lemma {:induction false} PromptFilesChosen(vs: seq<JValue>)
    requires PromptFiles(vs).Ok?
    ensures PromptFiles(vs).value == Choose(FileOf, vs)
    decreases |vs|
  {
    if |vs| > 0 {
      PromptFilesChosen(vs[1..]);
      assert vs == [vs[0]] + vs[1..];
      ChooseAppend(FileOf, [vs[0]], vs[1..]);
      assert [vs[0]][..0] == [];
      assert Choose(FileOf, [vs[0]]) == (if IsFileVariable(vs[0]) then [FileOf(vs[0]).value] else []);
    }
  }

  function Kept(vs: seq<JValue>): nat
  {
    if |vs| == 0 then 0 else (if IsFileVariable(vs[0]) then 1 else 0) + Kept(vs[1..])
  }

  /** The prompt block, shown only for a non-empty message text. */
  function PromptBlock(request: Request): (r: JsResult<Option<Block>>)
    ensures request.messageText == "" ==> r == Ok(None)
    ensures request.messageText != "" && r.Ok? ==>
              r.value.Some? && r.value.value.Prompt? && r.value.value.prompt == Str(request.messageText)
              && Ok(r.value.value.files) == PromptFiles(if request.variables.Some? then request.variables.value else [])
  {
    if request.messageText == "" then Ok(None)
    else
      var files :- PromptFiles(if request.variables.Some? then request.variables.value else []);
      Ok(Some(Prompt(Str(request.messageText), files)))
  }

  datatype RequestView = RequestView(requestId: string, prompt: Option<Block>, items: seq<Block>)

  function ResponseItems(request: Request): seq<JObject>
  {
    if request.response.Some? then request.response.value else []
  }

  /** What one request renders: its prompt and the walked items. */
  function RequestViewOf(request: Request, parse: Parser): JsResult<RequestView>
  {
    var items := TagAll(ResponseItems(request));
    var m := RoundMap(CountToolIds(items), request.result);
    var blocks :- ResponseBlocks(items, m, parse);
    var prompt :- PromptBlock(request);
    Ok(RequestView(request.requestId, prompt, blocks))
  }

  /** The `requests.map` callback. */
  method RenderRequest(request: Request, parse: Parser) returns (r: JsResult<RequestView>)
    ensures r == RequestViewOf(request, parse)
  {
    var response := ResponseItems(request);
    var items := new JObject[|response|](i requires 0 <= i < |response| => response[i]);
    assert items[..] == response;
    var toolCallsMap := PrePass(items, request.result);
    var blocks := WalkResponse(items, toolCallsMap, parse);
    if blocks.Err? {
      return Err(blocks.error);
    }
    var prompt := PromptBlock(request);
    if prompt.Err? {
      return Err(prompt.error);
    }
    return Ok(RequestView(request.requestId, prompt.value, blocks.value));
  }

  function ThreadStep(parse: Parser): (seq<RequestView>, Request) -> JsResult<seq<RequestView>>
  {
    (views: seq<RequestView>, request: Request) =>
      match RequestViewOf(request, parse)
      case Ok(v) => Ok(views + [v])
      case Err(e) => Err(e)
  }

  /** `VSCodeThread`: every request rendered in order. */
  method RenderThread(requests: seq<Request>, parse: Parser) returns (r: JsResult<seq<RequestView>>)
    ensures r == Fold(ThreadStep(parse), [], requests)
  {
    var views: seq<RequestView> := [];
    var i := 0;
    while i < |requests|
      invariant 0 <= i <= |requests|
      invariant Fold(ThreadStep(parse), [], requests[..i]) == Ok(views)
    {
      FoldStep(ThreadStep(parse), [], requests, i);
      var v := RenderRequest(requests[i], parse);
      if v.Err? {
        FoldErrPrefix(ThreadStep(parse), [], requests, i + 1);
        return Err(v.error);
      }
      views := views + [v.value];
      i := i + 1;
    }
    assert requests[..i] == requests;
    return Ok(views);
  }
}
