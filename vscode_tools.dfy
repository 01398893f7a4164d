/**
 * How one VS Code tool invocation is shown: per-call read blocks for a read
 * round, edit blocks recovered from `replace_string_in_file` calls, and the
 * MCP / terminal / file operation / fallback views of the invocation itself.
 */
module VSCodeTools {
  import opened Js
  import opened Folds
  import opened Blocks
  import opened VSCodeTypes

  /** `args || "{}"`: absent or empty arguments are read as an empty object. */
  function ArgsText(a: Option<string>): (r: string)
    ensures a.Some? && a.value != "" ==> r == a.value
    ensures a.None? || a.value == "" ==> r == "{}"
  {
    if a.Some? && a.value != "" then a.value else "{}"
  }

  /** `const { … } = JSON.parse(text)`: malformed text throws a SyntaxError
    * and destructuring `null` a TypeError; any other value is destructured. */
  function Destructure(parse: Parser, text: string): (r: JsResult<JValue>)
    ensures r.Ok? <==> parse(text).Some? && !parse(text).value.JNull?
    ensures r.Ok? ==> r.value == parse(text).value
    ensures parse(text).None? ==> r == Err(SyntaxError)
  {
    match parse(text)
    case None => Err(SyntaxError)
    case Some(v) => if v.JNull? then Err(TypeError) else Ok(v)
  }

  /** The `, lines from to to` suffix of a read block. */
  function LinesExtra(from: Prop, to: Prop): string
  {
    ", lines " + ToStr(Coalesce(from, Str("?"))) + " to " + ToStr(Coalesce(to, Str("?")))
  }

  /** The read block of one call of a read round. */
  function ReadBlock(call: ToolCall, parse: Parser): (r: JsResult<Block>)
    ensures r.Ok? <==> Destructure(parse, ArgsText(call.arguments)).Ok?
    ensures r.Ok? ==>
      var args := Destructure(parse, ArgsText(call.arguments)).value;
      r.value == Read(Coalesce(Get(args, "filePath"), Str("")), None,
                      Str(LinesExtra(Get(args, "startLine"), Get(args, "endLine"))), None)
  {
    var args :- Destructure(parse, ArgsText(call.arguments));
    Ok(Read(Coalesce(Get(args, "filePath"), Str("")), None,
            Str(LinesExtra(Get(args, "startLine"), Get(args, "endLine"))), None))
  }

  /** `VSCodeReadFileCall`: nothing without a round, otherwise exactly one
    * read block per call, in call order; a malformed argument text throws. */
  function ReadFileCall(round: Option<Round>, parse: Parser): (r: JsResult<seq<Block>>)
    ensures round.None? ==> r == Ok([])
    ensures round.Some? ==>
      (r.Ok? <==> forall i :: 0 <= i < |round.value.toolCalls| ==> ReadBlock(round.value.toolCalls[i], parse).Ok?)
    ensures r.Ok? ==> NoText(r.value)
    ensures round.Some? && r.Ok? ==>
      |r.value| == |round.value.toolCalls| &&
      forall i :: 0 <= i < |r.value| ==> Ok(r.value[i]) == ReadBlock(round.value.toolCalls[i], parse)
  {
    if round.None? then Ok([])
    else MapResult((call: ToolCall) => ReadBlock(call, parse), round.value.toolCalls)
  }

  /** The calls of a round named `replace_string_in_file`, in round order. */
  function ReplaceCalls(calls: seq<ToolCall>): (r: seq<ToolCall>)
    ensures |r| <= |calls|
  {
    if |calls| == 0 then []
    else (if calls[0].name == "replace_string_in_file" then [calls[0]] else []) + ReplaceCalls(calls[1..])
  }

  /** Exactly the calls named `replace_string_in_file` are kept. */
  lemma {:induction false} ReplaceCallsKeeps(calls: seq<ToolCall>)
    ensures forall i :: 0 <= i < |ReplaceCalls(calls)| ==>
      ReplaceCalls(calls)[i].name == "replace_string_in_file" && ReplaceCalls(calls)[i] in calls
    ensures forall c :: c in calls && c.name == "replace_string_in_file" ==> c in ReplaceCalls(calls)
  {
    if |calls| > 0 {
      ReplaceCallsKeeps(calls[1..]);
      var r := ReplaceCalls(calls);
      var head := if calls[0].name == "replace_string_in_file" then [calls[0]] else [];
      assert r == head + ReplaceCalls(calls[1..]);
      forall i | 0 <= i < |r|
        ensures r[i].name == "replace_string_in_file" && r[i] in calls
      {
        if i >= |head| { assert r[i] == ReplaceCalls(calls[1..])[i - |head|]; }
      }
      forall c | c in calls && c.name == "replace_string_in_file" ensures c in r {
        if c != calls[0] { assert c in calls[1..]; }
      }
    }
  }

  /** Filtering a concatenation filters each part, so the kept calls keep
    * their round order and each call is kept at most once. */
  lemma {:induction false} ReplaceCallsAppend(a: seq<ToolCall>, b: seq<ToolCall>)
    ensures ReplaceCalls(a + b) == ReplaceCalls(a) + ReplaceCalls(b)
    decreases |a|
  {
    if |a| > 0 {
      assert (a + b)[1..] == a[1..] + b;
      ReplaceCallsAppend(a[1..], b);
    } else {
      assert a + b == b;
    }
  }

  /** A call between two runs of calls is kept, exactly when it is a
    * replace call, between what is kept of the runs. */
  lemma ReplaceCallsAround(a: seq<ToolCall>, c: ToolCall, b: seq<ToolCall>)
    ensures ReplaceCalls(a + [c] + b) == ReplaceCalls(a)
      + (if c.name == "replace_string_in_file" then [c] else []) + ReplaceCalls(b)
  {
    ReplaceCallsAppend(a + [c], b);
    ReplaceCallsAppend(a, [c]);
    assert [c][1..] == [];
  }

  /** The edit block of one `replace_string_in_file` call, or `null` when its
    * arguments cannot be parsed or read (the exception is caught). */
  function FileDiff(call: ToolCall, parse: Parser): (r: Option<Block>)
    ensures r.Some? ==> r.value.Edit?
    ensures r.Some? <==> call.arguments.Some? && parse(call.arguments.value).Some? && !parse(call.arguments.value).value.JNull?
    ensures r.Some? ==>
      var args := parse(call.arguments.value).value;
      r.value == Edit(Get(args, "filePath"), Get(args, "oldString"), Get(args, "newString"))
  {
    if call.arguments.None? then None
    else
      match parse(call.arguments.value)
      case None => None
      case Some(args) =>
        if args.JNull? then None
        else Some(Edit(Get(args, "filePath"), Get(args, "oldString"), Get(args, "newString")))
  }

  function FileDiffList(calls: seq<ToolCall>, parse: Parser): (r: seq<Option<Block>>)
    ensures |r| == |calls|
    ensures forall i :: 0 <= i < |calls| ==> r[i] == FileDiff(calls[i], parse)
  {
    if |calls| == 0 then [] else [FileDiff(calls[0], parse)] + FileDiffList(calls[1..], parse)
  }

  lemma {:induction false} FileDiffListAppend(a: seq<ToolCall>, b: seq<ToolCall>, parse: Parser)
    ensures FileDiffList(a + b, parse) == FileDiffList(a, parse) + FileDiffList(b, parse)
    decreases |a|
  {
    if |a| > 0 {
      assert (a + b)[1..] == a[1..] + b;
      FileDiffListAppend(a[1..], b, parse);
    } else {
      assert a + b == b;
    }
  }

  /** The `fileDiffs` of `VSCodeToolCall`: one entry per replace call of the
    * round, each independent of the others. */
  function FileDiffs(round: Option<Round>, parse: Parser): (r: seq<Option<Block>>)
    ensures round.None? ==> r == []
    ensures round.Some? ==> r == FileDiffList(ReplaceCalls(round.value.toolCalls), parse)
  {
    if round.None? then [] else FileDiffList(ReplaceCalls(round.value.toolCalls), parse)
  }

  /** The entries follow the round order: the k-th call of the round adds
    * its own edit block (or `null`), and nothing else, exactly when it is a
    * replace call, after the entries of the calls before it and before
    * those of the calls after it; other calls add nothing. */
  lemma FileDiffsInRoundOrder(round: Round, k: nat, parse: Parser)
    requires k < |round.toolCalls|
    ensures var calls := round.toolCalls;
      FileDiffs(Some(round), parse) == FileDiffList(ReplaceCalls(calls[..k]), parse)
        + (if calls[k].name == "replace_string_in_file" then [FileDiff(calls[k], parse)] else [])
        + FileDiffList(ReplaceCalls(calls[k + 1..]), parse)
  {
    var calls := round.toolCalls;
    var mid := if calls[k].name == "replace_string_in_file" then [calls[k]] else [];
    assert calls == calls[..k] + [calls[k]] + calls[k + 1..];
    ReplaceCallsAround(calls[..k], calls[k], calls[k + 1..]);
    FileDiffListAppend(ReplaceCalls(calls[..k]) + mid, ReplaceCalls(calls[k + 1..]), parse);
    FileDiffListAppend(ReplaceCalls(calls[..k]), mid, parse);
  }

    /** `VSCodeToolCall`: the recovered edit blocks, then the tool itself shown
    * with the round's reply text as its result. */
  function ToolCallView(tool: JObject, round: Option<Round>, parse: Parser): (r: JsResult<seq<Block>>)
    ensures r.Ok? <==> ToolUse(tool, RoundResponse(round), parse).Ok?
    ensures r.Ok? ==> r.value == Present(FileDiffs(round, parse)) + [ToolUse(tool, RoundResponse(round), parse).value]
    ensures r.Ok? ==> NoText(r.value)
  {
    var use :- ToolUse(tool, RoundResponse(round), parse);
    Ok(Present(FileDiffs(round, parse)) + [use])
  }

  /** `toolCallRound?.response` */
  function RoundResponse(round: Option<Round>): Prop
  {
    if round.Some? then round.value.response else None
  }

  predicate IsFileOperation(toolId: Prop)
  {
    IsStr(toolId, "copilot_readFile") || IsStr(toolId, "vscode_fetchWebPage_internal")
    || IsStr(toolId, "copilot_createFile") || IsStr(toolId, "copilot_listDirectory")
  }

  function FileOperationLabel(toolId: Prop): (r: string)
    ensures IsStr(toolId, "copilot_listDirectory") ==> r == "List directory"
    ensures IsStr(toolId, "vscode_fetchWebPage_internal") ==> r == "Fetch webpage"
    ensures IsStr(toolId, "copilot_createFile") ==> r == "Create file"
    ensures (!IsStr(toolId, "copilot_listDirectory") && !IsStr(toolId, "vscode_fetchWebPage_internal")
             && !IsStr(toolId, "copilot_createFile")) ==> r == "Read file"
  {
    if IsStr(toolId, "copilot_listDirectory") then "List directory"
    else if IsStr(toolId, "vscode_fetchWebPage_internal") then "Fetch webpage"
    else if IsStr(toolId, "copilot_createFile") then "Create file"
    else "Read file"
  }

  /** A result passed on only when it is a string. */
  function StringOnly(p: Prop): (r: Prop)
    ensures IsString(p) ==> r == p
    ensures !IsString(p) ==> r.None?
  {
    if IsString(p) then p else None
  }

  /** `JSON.parse(resultDetails.input)` when the input is truthy. */
  function McpInput(details: Prop, parse: Parser): (r: JsResult<Prop>)
    ensures !Truthy(OptGet(details, "input")) ==> r == Ok(None)
    ensures Truthy(OptGet(details, "input")) ==>
      r == (match parse(ToStr(OptGet(details, "input"))) case None => Err(SyntaxError) case Some(v) => Ok(Some(v)))
  {
    var input := OptGet(details, "input");
    if !Truthy(input) then Ok(None)
    else
      match parse(ToStr(input))
      case None => Err(SyntaxError)
      case Some(v) => Ok(Some(v))
  }

  /** `output.value` of every output entry; reading a property of `null`
    * or `undefined` throws. */
  function OutputValues(outputs: seq<JValue>): (r: JsResult<seq<Prop>>)
    ensures r.Ok? <==> forall i :: 0 <= i < |outputs| ==> !outputs[i].JNull?
    ensures r.Ok? ==> |r.value| == |outputs| && forall i :: 0 <= i < |outputs| ==> r.value[i] == Get(outputs[i], "value")
  {
    MapResult((o: JValue) => Member(Some(o), "value"), outputs)
  }

  /** `resultDetails?.output.map((o) => o.value).join("\n")`: undefined when
    * the details are nullish, a TypeError when present without an array
    * `output`. */
  function McpOutput(details: Prop): (r: JsResult<Prop>)
    ensures Nullish(details) ==> r == Ok(None)
    ensures !Nullish(details) && !IsArray(Get(details.value, "output")) ==> r == Err(TypeError)
    ensures r.Ok? && r.value.Some? ==> IsString(r.value) && IsArray(Get(details.value, "output"))
    ensures !Nullish(details) && IsArray(Get(details.value, "output")) ==>
      (r.Ok? <==> OutputValues(Get(details.value, "output").value.items).Ok?)
      && (r.Ok? ==> r.value == Str(JoinProps(OutputValues(Get(details.value, "output").value.items).value, "\n")))
  {
    if Nullish(details) then Ok(None)
    else
      var outputs :- Elements(Get(details.value, "output"));
      var vs :- OutputValues(outputs);
      Ok(Str(JoinProps(vs, "\n")))
  }

  /** The command of a terminal invocation: `commandLine.original` when the
    * tool data says it is a terminal, otherwise the empty string. */
  function TerminalCommand(data: Prop): (r: JsResult<Prop>)
    ensures !Truthy(data) ==> r == Ok(Str(""))
    ensures Truthy(data) && !data.value.JObj? && !data.value.JArr? ==> r == Err(TypeError)
    ensures Truthy(data) && !IsStr(OptGet(data, "kind"), "terminal") && (data.value.JObj? || data.value.JArr?) ==> r == Ok(Str(""))
    ensures IsStr(OptGet(data, "kind"), "terminal") ==>
      r == match Member(OptGet(data, "commandLine"), "original") case Ok(o) => Ok(Or(o, Str(""))) case Err(e) => Err(e)
  {
    if !Truthy(data) then Ok(Str(""))
    else
      var hasKind :- In("kind", data);
      if hasKind && IsStr(OptGet(data, "kind"), "terminal") then
        var original :- Member(OptGet(data, "commandLine"), "original");
        Ok(Or(original, Str("")))
      else Ok(Str(""))
  }

  /** The path shown for a file operation: the `path` of the first URI of
    * the past-tense message, the page for a fetch without one, then the URI
    * key, then "unknown". */
  function FileOperationPath(tool: JObject): (r: Prop)
  {
    var uris := OptGet(Get(tool, "pastTenseMessage"), "uris");
    var keys := if Nullish(uris) then [] else ObjectKeys(uris.value);
    var key := if |keys| > 0 then Some(keys[0]) else None;
    var uri := if Nullish(uris) then None else Index(uris.value, if key.Some? then key.value else "");
    var uriPath := OptGet(uri, "path");
    var path := if IsString(uriPath) then uriPath else Str("");
    var details := Get(tool, "resultDetails");
    var path' :=
      if IsStr(Get(tool, "toolId"), "vscode_fetchWebPage_internal") && !Truthy(path) then
        Or(if Nullish(details) then None else OptGet(Index(details.value, "0"), "external"), Str(""))
      else path;
    Or(path', Or(if key.Some? then Str(key.value) else None, Str("unknown")))
  }

  /** `VSCodeToolUse`: an MCP source first, whatever the tool, then the
    * terminal, then the file operations, then the raw invocation. */
  function ToolUse(tool: JObject, result: Prop, parse: Parser): (r: JsResult<Block>)
    ensures r.Ok? ==> !r.value.Text?
    ensures var source := Get(tool, "source");
            var details := Get(tool, "resultDetails");
            IsStr(OptGet(source, "type"), "mcp") ==>
              (r.Ok? <==> McpInput(details, parse).Ok? && McpOutput(details).Ok?)
              && (r.Ok? ==>
                    r.value.Mcp?
                    && r.value.serverName == Or(OptGet(source, "serverLabel"), Str("MCP Server"))
                    && r.value.toolName == Or(Or(OptGet(Get(tool, "pastTenseMessage"), "value"), OptGet(source, "label")), Get(tool, "toolId"))
                    && r.value.input == McpInput(details, parse).value
                    && r.value.result == Or(McpOutput(details).value, result))
    ensures !IsStr(OptGet(Get(tool, "source"), "type"), "mcp") && IsStr(Get(tool, "toolId"), "run_in_terminal") ==>
              r == match TerminalCommand(Get(tool, "toolSpecificData"))
                   case Ok(c) => Ok(Shell(c, StringOnly(result), None))
                   case Err(e) => Err(e)
    ensures !IsStr(OptGet(Get(tool, "source"), "type"), "mcp") && IsFileOperation(Get(tool, "toolId")) ==>
              r == Ok(Read(FileOperationPath(tool), StringOnly(result), None, Str(FileOperationLabel(Get(tool, "toolId")))))
    ensures !IsStr(OptGet(Get(tool, "source"), "type"), "mcp") && !IsStr(Get(tool, "toolId"), "run_in_terminal")
            && !IsFileOperation(Get(tool, "toolId")) ==>
              r == Ok(Generic(Get(tool, "toolId"), Some(tool), None))
  {
    var source := Get(tool, "source");
    var toolId := Get(tool, "toolId");
    if IsStr(OptGet(source, "type"), "mcp") then
      var details := Get(tool, "resultDetails");
      var input :- McpInput(details, parse);
      var output :- McpOutput(details);
      Ok(Mcp(Or(OptGet(source, "serverLabel"), Str("MCP Server")),
             Or(Or(OptGet(Get(tool, "pastTenseMessage"), "value"), OptGet(source, "label")), toolId),
             input, Or(output, result)))
    else if IsStr(toolId, "run_in_terminal") then
      var command :- TerminalCommand(Get(tool, "toolSpecificData"));
      Ok(Shell(command, StringOnly(result), None))
    else if IsFileOperation(toolId) then
      Ok(Read(FileOperationPath(tool), StringOnly(result), None, Str(FileOperationLabel(toolId))))
    else
      Ok(Generic(toolId, Some(tool), None))
  }
}
