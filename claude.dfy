/**
 * The Claude Code thread renderer: requests are grouped so that consecutive
 * assistant turns form one group that absorbs the tool results answering
 * it, and each `tool_use` block of a group finds its result by scanning
 * forward from the request that made the call.
 */
module ClaudeThread {
  import opened Js
  import opened Folds
  import opened Blocks

  /** `RequestUserMessage.content`: the prompt text or its content parts. */
  datatype UserContent = TextContent(text: string) | Parts(parts: seq<JObject>)

  /** `message`, by `role`: a user message, or an assistant message with
    * its content blocks, message id and model. */
  datatype Message =
    | UserMessage(content: UserContent)
    | AssistantMessage(blocks: seq<JObject>, messageId: string, model: string)

  datatype ClaudeRequest = ClaudeRequest(id: string, message: Message)

  /** An entry of `groupRequests`: a request shown on its own, or a run of
    * assistant requests shown as one group. */
  datatype Entry = Single(request: ClaudeRequest) | Group(requests: seq<ClaudeRequest>)

  // ---------------------------------------------------------------------
  // isToolResult and findToolResult
  // ---------------------------------------------------------------------

  /** `isToolResult`: a non-empty array whose first part has type
    * "tool_result"; the other parts are not looked at. */
  predicate IsToolResult(content: UserContent)
  {
    content.Parts? && |content.parts| > 0 && IsStr(Get(content.parts[0], "type"), "tool_result")
  }

  predicate IsAssistant(r: ClaudeRequest)
  {
    r.message.AssistantMessage?
  }

  /** A user request carrying tool results. */
  predicate IsResultRequest(r: ClaudeRequest)
  {
    r.message.UserMessage? && IsToolResult(r.message.content)
  }

  /** A user request that is not a tool result: a prompt. */
  predicate IsPromptRequest(r: ClaudeRequest)
  {
    r.message.UserMessage? && !IsToolResult(r.message.content)
  }

  predicate MatchesId(part: JObject, toolUseId: Prop)
  {
    StrictEquals(Get(part, "tool_use_id"), toolUseId)
  }

  /** `k` is the first index whose part has the given `tool_use_id`. */
  predicate FirstMatchAt(parts: seq<JObject>, toolUseId: Prop, k: int)
  {
    0 <= k < |parts| && MatchesId(parts[k], toolUseId) && forall j :: 0 <= j < k ==> !MatchesId(parts[j], toolUseId)
  }

  /** `parts.find(r => r.tool_use_id === toolUseId)` */
  function FindPart(parts: seq<JObject>, toolUseId: Prop): (r: Option<JObject>)
    ensures r.None? <==> forall k :: 0 <= k < |parts| ==> !MatchesId(parts[k], toolUseId)
    ensures r.Some? ==> r.value in parts && MatchesId(r.value, toolUseId)
  {
    if |parts| == 0 then None
    else if MatchesId(parts[0], toolUseId) then Some(parts[0])
    else
      assert forall k :: 0 <= k < |parts| - 1 ==> parts[1..][k] == parts[k + 1];
      FindPart(parts[1..], toolUseId)
  }

  /** `find` returns the first matching part. */
  lemma {:induction false} FindPartFirst(parts: seq<JObject>, toolUseId: Prop, k: int)
    requires FirstMatchAt(parts, toolUseId, k)
    ensures FindPart(parts, toolUseId) == Some(parts[k])
  {
    if k > 0 {
      assert !MatchesId(parts[0], toolUseId);
      assert FirstMatchAt(parts[1..], toolUseId, k - 1);
      FindPartFirst(parts[1..], toolUseId, k - 1);
    }
  }

  /** The matching part of a tool-result request, if any. */
  function MatchIn(r: ClaudeRequest, toolUseId: Prop): Option<JObject>
  {
    if IsResultRequest(r) then FindPart(r.message.content.parts, toolUseId) else None
  }

  /** The value `findToolResult(toolUseId, requests, i)` returns: the content
    * of the first matching part of a tool-result request, scanning from
    * `i`; the scan passes assistant requests and stops at a prompt. */
  function ResultFrom(toolUseId: Prop, requests: seq<ClaudeRequest>, i: nat): Prop
    decreases |requests| - i
  {
    if i >= |requests| then None
    else if MatchIn(requests[i], toolUseId).Some? then Get(MatchIn(requests[i], toolUseId).value, "content")
    else if IsPromptRequest(requests[i]) then None
    else ResultFrom(toolUseId, requests, i + 1)
  }

  /** `findToolResult` */
  method FindToolResult(toolUseId: Prop, requests: seq<ClaudeRequest>, startIndex: nat) returns (r: Prop)
    ensures r == ResultFrom(toolUseId, requests, startIndex)
  {
    var i := startIndex;
    while i < |requests|
      invariant startIndex <= i
      invariant ResultFrom(toolUseId, requests, i) == ResultFrom(toolUseId, requests, startIndex)
      decreases |requests| - i
    {
      var req := requests[i];
      if req.message.UserMessage? && IsToolResult(req.message.content) {
        var result := FindPart(req.message.content.parts, toolUseId);
        if result.Some? {
          return Get(result.value, "content");
        }
      }
      if req.message.UserMessage? && !IsToolResult(req.message.content) {
        break;
      }
      i := i + 1;
    }
    return None;
  }

  /** Every request between the start and `j` lets the scan go on. */
  predicate Passes(toolUseId: Prop, requests: seq<ClaudeRequest>, start: nat, j: nat)
    requires j <= |requests|
  {
    forall k :: start <= k < j ==> MatchIn(requests[k], toolUseId).None? && !IsPromptRequest(requests[k])
  }

  /** The result is the match in the first tool-result request that holds
    * one, when only assistant requests and non-matching tool results come
    * before it. */
  lemma {:induction false} ResultFound(toolUseId: Prop, requests: seq<ClaudeRequest>, start: nat, j: nat)
    requires start <= j < |requests|
    requires Passes(toolUseId, requests, start, j)
    requires MatchIn(requests[j], toolUseId).Some?
    ensures IsResultRequest(requests[j])
    ensures ResultFrom(toolUseId, requests, start) == Get(MatchIn(requests[j], toolUseId).value, "content")
    decreases j - start
  {
    if start < j {
      assert MatchIn(requests[start], toolUseId).None? && !IsPromptRequest(requests[start]);
      assert ResultFrom(toolUseId, requests, start) == ResultFrom(toolUseId, requests, start + 1);
      assert Passes(toolUseId, requests, start + 1, j);
      ResultFound(toolUseId, requests, start + 1, j);
    }
  }

  /** A prompt reached before any match ends the scan with `undefined`. */
  lemma {:induction false} ResultStopsAtPrompt(toolUseId: Prop, requests: seq<ClaudeRequest>, start: nat, j: nat)
    requires start <= j < |requests|
    requires Passes(toolUseId, requests, start, j)
    requires IsPromptRequest(requests[j])
    ensures ResultFrom(toolUseId, requests, start) == None
    decreases j - start
  {
    if start < j {
      ResultStopsAtPrompt(toolUseId, requests, start + 1, j);
    } else {
      assert MatchIn(requests[j], toolUseId).None?;
    }
  }

  /** With no match and no prompt up to the end, the result is `undefined`. */
  lemma {:induction false} ResultMissing(toolUseId: Prop, requests: seq<ClaudeRequest>, start: nat)
    requires start <= |requests|
    requires Passes(toolUseId, requests, start, |requests|)
    ensures ResultFrom(toolUseId, requests, start) == None
    decreases |requests| - start
  {
    if start < |requests| {
      ResultMissing(toolUseId, requests, start + 1);
    }
  }

  // ---------------------------------------------------------------------
  // groupRequests
  // ---------------------------------------------------------------------

  /** The loop state of `groupRequests`. */
  datatype Grouping = Grouping(grouped: seq<Entry>, current: seq<ClaudeRequest>)

  /** One iteration of `groupRequests`: an assistant request joins the open
    * group; a tool result is dropped while a group is open and kept on its
    * own otherwise; a prompt closes the open group and follows it. */
  function GroupStep(g: Grouping, request: ClaudeRequest): Grouping
  {
    if IsAssistant(request) then Grouping(g.grouped, g.current + [request])
    else if IsResultRequest(request) then
      if |g.current| == 0 then Grouping(g.grouped + [Single(request)], []) else g
    else Grouping(g.grouped + Close(g.current) + [Single(request)], [])
  }

  /** The open group as an entry, when it is non-empty. */
  function Close(current: seq<ClaudeRequest>): seq<Entry>
  {
    if |current| > 0 then [Group(current)] else []
  }

  /** `groupRequests(requests)`: the loop, then the trailing group. */
  function Grouped(requests: seq<ClaudeRequest>): seq<Entry>
  {
    var g := Foldl(GroupStep, Grouping([], []), requests);
    g.grouped + Close(g.current)
  }

  /** `groupRequests` */
  method GroupRequests(requests: seq<ClaudeRequest>) returns (groupedRequests: seq<Entry>)
    ensures groupedRequests == Grouped(requests)
  {
    groupedRequests := [];
    var currentAssistantGroup: seq<ClaudeRequest> := [];
    var i := 0;
    while i < |requests|
      invariant 0 <= i <= |requests|
      invariant Foldl(GroupStep, Grouping([], []), requests[..i]) == Grouping(groupedRequests, currentAssistantGroup)
    {
      FoldlStep(GroupStep, Grouping([], []), requests, i);
      var request := requests[i];
      if request.message.AssistantMessage? {
        currentAssistantGroup := currentAssistantGroup + [request];
      } else if request.message.UserMessage? && IsToolResult(request.message.content) {
        if |currentAssistantGroup| == 0 {
          groupedRequests := groupedRequests + [Single(request)];
        }
      } else {
        if |currentAssistantGroup| > 0 {
          groupedRequests := groupedRequests + [Group(currentAssistantGroup)];
          currentAssistantGroup := [];
        }
        groupedRequests := groupedRequests + [Single(request)];
      }
      i := i + 1;
    }
    assert requests[..i] == requests;
    if |currentAssistantGroup| > 0 {
      groupedRequests := groupedRequests + [Group(currentAssistantGroup)];
    }
  }

  /** Whether an assistant group is open after `requests`: the last request
    * that is not a tool result is an assistant request. */
  predicate GroupOpen(requests: seq<ClaudeRequest>)
    decreases |requests|
  {
    |requests| > 0 &&
    var last := requests[|requests| - 1];
    (IsAssistant(last) || (IsResultRequest(last) && GroupOpen(requests[..|requests| - 1])))
  }

  /** The requests that are shown: all of them except the tool results
    * that arrive while a group is open (those are absorbed by the group). */
  function Shown(requests: seq<ClaudeRequest>): seq<ClaudeRequest>
    decreases |requests|
  {
    if |requests| == 0 then []
    else
      var init := requests[..|requests| - 1];
      var last := requests[|requests| - 1];
      Shown(init) + (if IsResultRequest(last) && GroupOpen(init) then [] else [last])
  }

  /** The assistant requests of a sequence, in order. */
  function Assistants(requests: seq<ClaudeRequest>): seq<ClaudeRequest>
    decreases |requests|
  {
    if |requests| == 0 then []
    else
      var last := requests[|requests| - 1];
      Assistants(requests[..|requests| - 1]) + (if IsAssistant(last) then [last] else [])
  }

  /** The requests of the entries, in order. */
  function Flatten(es: seq<Entry>): seq<ClaudeRequest>
    decreases |es|
  {
    if |es| == 0 then []
    else Flatten(es[..|es| - 1]) + Members(es[|es| - 1])
  }

  function Members(e: Entry): seq<ClaudeRequest>
  {
    match e
    case Single(r) => [r]
    case Group(rs) => rs
  }

  predicate AllAssistant(rs: seq<ClaudeRequest>)
  {
    forall i :: 0 <= i < |rs| ==> IsAssistant(rs[i])
  }

  /** Groups are non-empty runs of assistant requests, single entries are
    * user requests, and two groups are never adjacent. */
  predicate WellGrouped(es: seq<Entry>)
  {
    (forall i :: 0 <= i < |es| && es[i].Group? ==> |es[i].requests| > 0 && AllAssistant(es[i].requests))
    && (forall i :: 0 <= i < |es| && es[i].Single? ==> !IsAssistant(es[i].request))
    && (forall i :: 0 <= i < |es| - 1 && es[i].Group? ==> es[i + 1].Single?)
  }

  /** What the loop keeps true after reading `requests`. */
  predicate GroupingInv(g: Grouping, requests: seq<ClaudeRequest>)
  {
    WellGrouped(g.grouped) && AllAssistant(g.current)
    && (|g.grouped| > 0 ==> g.grouped[|g.grouped| - 1].Single?)
    && Flatten(g.grouped) + g.current == Shown(requests)
    && (|g.current| > 0 <==> GroupOpen(requests))
  }

  lemma FlattenAppend(es: seq<Entry>, e: Entry)
    ensures Flatten(es + [e]) == Flatten(es) + Members(e)
  {
    assert (es + [e])[..|es|] == es;
  }

  lemma WellGroupedAddSingle(es: seq<Entry>, r: ClaudeRequest)
    requires WellGrouped(es) && !IsAssistant(r)
    ensures WellGrouped(es + [Single(r)])
  {
    var fs := es + [Single(r)];
    assert forall i :: 0 <= i < |es| ==> fs[i] == es[i];
  }

  lemma WellGroupedAddGroup(es: seq<Entry>, rs: seq<ClaudeRequest>)
    requires WellGrouped(es) && (|es| > 0 ==> es[|es| - 1].Single?)
    requires |rs| > 0 && AllAssistant(rs)
    ensures WellGrouped(es + [Group(rs)])
  {
    var fs := es + [Group(rs)];
    assert forall i :: 0 <= i < |es| ==> fs[i] == es[i];
  }

  /** How the shown requests and the open group change with one more request. */
  lemma ShownStep(requests: seq<ClaudeRequest>, r: ClaudeRequest)
    ensures Shown(requests + [r]) == Shown(requests) + (if IsResultRequest(r) && GroupOpen(requests) then [] else [r])
    ensures GroupOpen(requests + [r]) == (IsAssistant(r) || (IsResultRequest(r) && GroupOpen(requests)))
  {
    var rs := requests + [r];
    assert rs[..|rs| - 1] == requests;
  }

  lemma GroupStepAssistant(g: Grouping, requests: seq<ClaudeRequest>, r: ClaudeRequest)
    requires GroupingInv(g, requests) && IsAssistant(r)
    ensures GroupingInv(GroupStep(g, r), requests + [r])
  {
    ShownStep(requests, r);
    var h := GroupStep(g, r);
    assert h.grouped == g.grouped && h.current == g.current + [r];
    assert AllAssistant(h.current);
    assert Flatten(h.grouped) + h.current == (Flatten(g.grouped) + g.current) + [r];
  }

  lemma GroupStepResult(g: Grouping, requests: seq<ClaudeRequest>, r: ClaudeRequest)
    requires GroupingInv(g, requests) && IsResultRequest(r)
    ensures GroupingInv(GroupStep(g, r), requests + [r])
  {
    ShownStep(requests, r);
    var h := GroupStep(g, r);
    if |g.current| == 0 {
      FlattenAppend(g.grouped, Single(r));
      WellGroupedAddSingle(g.grouped, r);
      assert h.grouped == g.grouped + [Single(r)] && h.current == [];
    } else {
      assert h == g;
    }
  }

  lemma GroupStepPromptClosing(g: Grouping, requests: seq<ClaudeRequest>, r: ClaudeRequest)
    requires GroupingInv(g, requests) && IsPromptRequest(r) && |g.current| > 0
    ensures GroupingInv(GroupStep(g, r), requests + [r])
  {
    ShownStep(requests, r);
    var mid := g.grouped + [Group(g.current)];
    assert Close(g.current) == [Group(g.current)];
    assert GroupStep(g, r) == Grouping(mid + [Single(r)], []);
    FlattenAppend(g.grouped, Group(g.current));
    FlattenAppend(mid, Single(r));
    WellGroupedAddGroup(g.grouped, g.current);
    WellGroupedAddSingle(mid, r);
  }

  lemma GroupStepPrompt(g: Grouping, requests: seq<ClaudeRequest>, r: ClaudeRequest)
    requires GroupingInv(g, requests) && IsPromptRequest(r)
    ensures GroupingInv(GroupStep(g, r), requests + [r])
  {
    if |g.current| > 0 {
      GroupStepPromptClosing(g, requests, r);
    } else {
      ShownStep(requests, r);
      assert Close(g.current) == [];
      assert GroupStep(g, r) == Grouping(g.grouped + [Single(r)], []);
      FlattenAppend(g.grouped, Single(r));
      WellGroupedAddSingle(g.grouped, r);
    }
  }

  lemma GroupStepInv(g: Grouping, requests: seq<ClaudeRequest>, r: ClaudeRequest)
    requires GroupingInv(g, requests)
    ensures GroupingInv(GroupStep(g, r), requests + [r])
  {
    if IsAssistant(r) {
      GroupStepAssistant(g, requests, r);
    } else if IsResultRequest(r) {
      GroupStepResult(g, requests, r);
    } else {
      GroupStepPrompt(g, requests, r);
    }
  }

  lemma {:induction false} GroupingInvAll(requests: seq<ClaudeRequest>)
    ensures GroupingInv(Foldl(GroupStep, Grouping([], []), requests), requests)
    decreases |requests|
  {
    if |requests| == 0 {
      assert Shown(requests) == [];
    } else {
      var init := requests[..|requests| - 1];
      var last := requests[|requests| - 1];
      assert init + [last] == requests;
      GroupingInvAll(init);
      var g := Foldl(GroupStep, Grouping([], []), init);
      assert Foldl(GroupStep, Grouping([], []), requests) == GroupStep(g, last);
      GroupStepInv(g, init, last);
    }
  }

  /** The entries of `groupRequests` are well grouped and, read in order,
    * are exactly the shown requests: consecutive assistant requests form
    * one group, a prompt closes it, the trailing group is kept, and a tool
    * result is absorbed while a group is open and kept as an orphan when
    * none is. */
  lemma GroupedShape(requests: seq<ClaudeRequest>)
    ensures WellGrouped(Grouped(requests))
    ensures Flatten(Grouped(requests)) == Shown(requests)
  {
    var g := Foldl(GroupStep, Grouping([], []), requests);
    GroupingInvAll(requests);
    if |g.current| > 0 {
      FlattenAppend(g.grouped, Group(g.current));
      WellGroupedAddGroup(g.grouped, g.current);
    } else {
      assert Grouped(requests) == g.grouped;
    }
  }

  /** Only tool results are ever dropped: every assistant request is shown
    * exactly once, in its original order. */
  lemma {:induction false} ShownKeepsAssistants(requests: seq<ClaudeRequest>)
    ensures Assistants(Shown(requests)) == Assistants(requests)
    decreases |requests|
  {
    if |requests| > 0 {
      var init := requests[..|requests| - 1];
      var last := requests[|requests| - 1];
      ShownKeepsAssistants(init);
      var tail := if IsResultRequest(last) && GroupOpen(init) then [] else [last];
      AssistantsAppend(Shown(init), tail);
    }
  }

  lemma AssistantsAppend(xs: seq<ClaudeRequest>, ys: seq<ClaudeRequest>)
    requires |ys| <= 1
    ensures Assistants(xs + ys) == Assistants(xs) + Assistants(ys)
  {
    if |ys| == 1 {
      assert (xs + ys)[..|xs + ys| - 1] == xs;
      assert ys[..0] == [];
    } else {
      assert xs + ys == xs;
    }
  }

  /** Every prompt is shown. */
  lemma {:induction false} ShownKeepsPrompts(requests: seq<ClaudeRequest>, i: nat)
    requires i < |requests| && IsPromptRequest(requests[i])
    ensures requests[i] in Shown(requests)
    decreases |requests|
  {
    var init := requests[..|requests| - 1];
    if i < |requests| - 1 {
      ShownKeepsPrompts(init, i);
    }
  }

  // ---------------------------------------------------------------------
  // Rendering
  // ---------------------------------------------------------------------

  /** `allRequests.findIndex(r => r.id === id)`: the first index with that
    * id, or -1. */
  function FindIndexById(requests: seq<ClaudeRequest>, id: string): (r: int)
    ensures -1 <= r < |requests|
    ensures 0 <= r ==> requests[r].id == id && forall k :: 0 <= k < r ==> requests[k].id != id
    ensures r == -1 <==> forall k :: 0 <= k < |requests| ==> requests[k].id != id
  {
    if |requests| == 0 then -1
    else if requests[0].id == id then 0
    else
      var k := FindIndexById(requests[1..], id);
      assert forall j :: 0 <= j < |requests| - 1 ==> requests[1..][j] == requests[j + 1];
      if k == -1 then -1 else k + 1
  }

  /** Where the result lookup of a request's `tool_use` block starts: one
    * past the first request with its id, or 0 when there is none. */
  function LookupStart(request: ClaudeRequest, allRequests: seq<ClaudeRequest>): (r: nat)
    ensures r <= |allRequests|
    ensures r > 0 ==> allRequests[r - 1].id == request.id && forall k :: 0 <= k < r - 1 ==> allRequests[k].id != request.id
    ensures r == 0 <==> forall k :: 0 <= k < |allRequests| ==> allRequests[k].id != request.id
  {
    FindIndexById(allRequests, request.id) + 1
  }

  /** The result handed to a content block: a lookup for `tool_use` blocks only. */
  function BlockResult(block: JObject, request: ClaudeRequest, allRequests: seq<ClaudeRequest>): Prop
  {
    if IsStr(Get(block, "type"), "tool_use") then ResultFrom(Get(block, "id"), allRequests, LookupStart(request, allRequests))
    else None
  }

  /** `block.input.<key>`: a TypeError when `input` is missing or null. */
  function InputField(input: Prop, key: string): JsResult<Prop>
  {
    Member(input, key)
  }

  /** `ClaudeToolUse`, by tool name; the first check sends any input with a
    * `command` key to the shell view. */
  function ToolUseBlock(block: JObject, result: Prop): (r: JsResult<Block>)
    ensures IsStr(Get(block, "name"), "Bash") ==>
      r == (var input := Get(block, "input");
            if In("command", input).Err? then Err(TypeError)
            else Ok(Shell(Coalesce(if In("command", input).value then Get(input.value, "command") else None, Str("")), result, None)))
    ensures (var input := Get(block, "input"); Truthy(input) && In("command", input) == Ok(true)) ==>
      r == Ok(Shell(Coalesce(Get(Get(block, "input").value, "command"), Str("")), result, None))
    ensures r.Ok? && IsStr(Get(block, "name"), "Read") && !ShellCheck(block) ==>
      Get(block, "input").Some? && r.value == Read(Get(Get(block, "input").value, "file_path"), Coalesce(result, Str("")), None, None)
    ensures r.Ok? && IsStr(Get(block, "name"), "Edit") && !ShellCheck(block) ==>
      Get(block, "input").Some? &&
      var input := Get(block, "input").value;
      r.value == Edit(Get(input, "file_path"), Get(input, "old_string"), Get(input, "new_string"))
    ensures r.Ok? && IsStr(Get(block, "name"), "Grep") && !ShellCheck(block) ==>
      Get(block, "input").Some? && r.value == Shell(Str("grep " + ToStr(Get(Get(block, "input").value, "pattern"))), result, None)
    ensures !ShellCheck(block) && (IsStr(Get(block, "name"), "Read") || IsStr(Get(block, "name"), "Edit") || IsStr(Get(block, "name"), "Grep")) ==>
      (r.Err? <==> Nullish(Get(block, "input")))
    ensures !ShellCheck(block) && !IsStr(Get(block, "name"), "Read") && !IsStr(Get(block, "name"), "Edit") &&
            !IsStr(Get(block, "name"), "TodoWrite") && !IsStr(Get(block, "name"), "Grep") ==>
      r == Ok(Generic(Get(block, "name"), Get(block, "input"), if Truthy(result) then result else None))
    ensures r.Ok? ==> !r.value.Text?
  {
    var name := Get(block, "name");
    var input := Get(block, "input");
    if IsStr(name, "Bash") then
      var has :- In("command", input);
      Ok(Shell(Coalesce(if has then Get(input.value, "command") else None, Str("")), result, None))
    else if Truthy(input) && In("command", input) == Ok(true) then
      Ok(Shell(Coalesce(Get(input.value, "command"), Str("")), result, None))
    else if Truthy(input) && In("command", input).Err? then
      Err(TypeError)
    else if IsStr(name, "Read") then
      var filePath :- InputField(input, "file_path");
      Ok(Read(filePath, Coalesce(result, Str("")), None, None))
    else if IsStr(name, "Edit") then
      if Nullish(input) then Err(TypeError)
      else Ok(Edit(Get(input.value, "file_path"), Get(input.value, "old_string"), Get(input.value, "new_string")))
    else if IsStr(name, "TodoWrite") then
      var todos :- InputField(input, "todos");
      var items :- ElementsOrEmpty(todos);
      var list :- MapResult(TodoOf, items);
      Ok(Todos(list))
    else if IsStr(name, "Grep") then
      var pattern :- InputField(input, "pattern");
      Ok(Shell(Str("grep " + ToStr(pattern)), result, None))
    else
      Ok(Generic(name, input, if Truthy(result) then result else None))
  }

  /** Whether the opening shell check takes the block. */
  predicate ShellCheck(block: JObject)
  {
    IsStr(Get(block, "name"), "Bash") || (Truthy(Get(block, "input")) && In("command", Get(block, "input")) != Ok(false))
  }

  /** `todo => ({content: todo.content, status: todo.status})` */
  function TodoOf(todo: JValue): (r: JsResult<Todo>)
    ensures r.Ok? <==> !todo.JNull?
    ensures r.Ok? ==> r.value == Todo(Get(todo, "content"), Get(todo, "status"))
  {
    if todo.JNull? then Err(TypeError) else Ok(Todo(Get(todo, "content"), Get(todo, "status")))
  }

  /** A `TodoWrite` block shows one todo per entry, content and status
    * passed through; without a `todos` list it shows an empty list. */
  lemma TodoWriteView(block: JObject, result: Prop)
    requires IsStr(Get(block, "name"), "TodoWrite")
    requires Get(block, "input").Some? && Get(block, "input").value.JObj?
    requires Lookup(Get(block, "input").value.fields, "command").None?
    ensures var todos := Get(Get(block, "input").value, "todos");
      var r := ToolUseBlock(block, result);
      (Nullish(todos) ==> r == Ok(Todos([])))
      && (IsArray(todos) && (forall i :: 0 <= i < |todos.value.items| ==> !todos.value.items[i].JNull?) ==>
            r.Ok? && r.value.Todos? && |r.value.todos| == |todos.value.items|
            && forall i :: 0 <= i < |todos.value.items| ==>
                 r.value.todos[i] == Todo(Get(todos.value.items[i], "content"), Get(todos.value.items[i], "status")))
  {
    var input := Get(block, "input");
    assert In("command", input) == Ok(false);
    assert !ShellCheck(block);
  }

  /** `ClaudeBlock`: dispatch on the content block's `type`; other types
    * render nothing. */
  function ContentBlock(block: JObject, result: Prop): (r: JsResult<Option<Block>>)
    ensures IsStr(Get(block, "type"), "thinking") ==> r == Ok(Some(Thinking(Get(block, "thinking"), None)))
    ensures IsStr(Get(block, "type"), "text") ==> r == Ok(Some(Text(Get(block, "text"), [])))
    ensures IsStr(Get(block, "type"), "tool_use") ==>
      (r.Ok? <==> ToolUseBlock(block, result).Ok?) && (r.Ok? ==> r.value == Some(ToolUseBlock(block, result).value))
    ensures !IsStr(Get(block, "type"), "thinking") && !IsStr(Get(block, "type"), "text") && !IsStr(Get(block, "type"), "tool_use") ==>
      r == Ok(None)
  {
    var kind := Get(block, "type");
    if IsStr(kind, "thinking") then Ok(Some(Thinking(Get(block, "thinking"), None)))
    else if IsStr(kind, "text") then Ok(Some(Text(Get(block, "text"), [])))
    else if IsStr(kind, "tool_use") then
      var b :- ToolUseBlock(block, result);
      Ok(Some(b))
    else Ok(None)
  }

  /** Only `tool_use` blocks look at the result they are handed. */
  lemma ResultOnlyForToolUse(block: JObject, r1: Prop, r2: Prop)
    requires !IsStr(Get(block, "type"), "tool_use")
    ensures ContentBlock(block, r1) == ContentBlock(block, r2)
  {
  }

  /** `message.content`, which the group maps over; a prompt's text has no
    * `map`. */
  function ContentOf(message: Message): JsResult<seq<JObject>>
  {
    match message
    case AssistantMessage(blocks, _, _) => Ok(blocks)
    case UserMessage(TextContent(_)) => Err(TypeError)
    case UserMessage(Parts(parts)) => Ok(parts)
  }

  /** The rendered content blocks of one request of a group, in content order. */
  function RequestBlocks(request: ClaudeRequest, allRequests: seq<ClaudeRequest>): JsResult<seq<Block>>
  {
    var blocks :- ContentOf(request.message);
    BlocksView(blocks, request, allRequests)
  }

  /** `content.map(block => <ClaudeBlock block result />)`, in content order. */
  function BlocksView(blocks: seq<JObject>, request: ClaudeRequest, allRequests: seq<ClaudeRequest>): JsResult<seq<Block>>
    decreases |blocks|
  {
    if |blocks| == 0 then Ok([])
    else
      var last := blocks[|blocks| - 1];
      var front :- BlocksView(blocks[..|blocks| - 1], request, allRequests);
      var shown :- ContentBlock(last, BlockResult(last, request, allRequests));
      Ok(front + (if shown.Some? then [shown.value] else []))
  }

  /** The blocks of a group's requests, in group order. */
  function GroupBlocks(group: seq<ClaudeRequest>, allRequests: seq<ClaudeRequest>): (r: JsResult<seq<Block>>)
    decreases |group|
  {
    if |group| == 0 then Ok([])
    else
      var front :- GroupBlocks(group[..|group| - 1], allRequests);
      var back :- RequestBlocks(group[|group| - 1], allRequests);
      Ok(front + back)
  }

  /** Rendering a longer group appends the blocks of the added requests. */
  lemma {:induction false} GroupBlocksAppend(g1: seq<ClaudeRequest>, g2: seq<ClaudeRequest>, allRequests: seq<ClaudeRequest>)
    requires GroupBlocks(g1 + g2, allRequests).Ok?
    ensures GroupBlocks(g1, allRequests).Ok? && GroupBlocks(g2, allRequests).Ok?
    ensures GroupBlocks(g1 + g2, allRequests).value == GroupBlocks(g1, allRequests).value + GroupBlocks(g2, allRequests).value
    decreases |g2|
  {
    if |g2| == 0 {
      assert g1 + g2 == g1;
    } else {
      var g := g1 + g2;
      var init := g2[..|g2| - 1];
      var last := g2[|g2| - 1];
      assert g[..|g| - 1] == g1 + init;
      assert g[|g| - 1] == last;
      assert GroupBlocks(g1 + init, allRequests).Ok? && RequestBlocks(last, allRequests).Ok?;
      GroupBlocksAppend(g1, init, allRequests);
      var front := GroupBlocks(g1 + init, allRequests).value;
      assert GroupBlocks(g, allRequests).value == front + RequestBlocks(last, allRequests).value;
      assert GroupBlocks(g2, allRequests).value == GroupBlocks(init, allRequests).value + RequestBlocks(last, allRequests).value;
    }
  }

  /** `ClaudeAssistantGroup`: an empty group renders nothing. */
  function GroupView(group: seq<ClaudeRequest>, allRequests: seq<ClaudeRequest>): (r: JsResult<Option<seq<Block>>>)
    ensures |group| == 0 <==> r == Ok(None)
    ensures |group| > 0 ==> (r.Ok? <==> GroupBlocks(group, allRequests).Ok?)
    ensures |group| > 0 && r.Ok? ==> r.value == Some(GroupBlocks(group, allRequests).value)
  {
    if |group| == 0 then Ok(None)
    else
      var blocks :- GroupBlocks(group, allRequests);
      Ok(Some(blocks))
  }

  /** `ClaudeUserMessage`: a prompt, the entries of an orphan tool result,
    * or nothing. */
  function UserView(request: ClaudeRequest): (r: Option<seq<Block>>)
    ensures r.Some? <==> request.message.UserMessage? && (request.message.content.TextContent? || IsToolResult(request.message.content))
    ensures request.message.UserMessage? && request.message.content.TextContent? ==>
      r == Some([Prompt(Str(request.message.content.text), [])])
    ensures IsResultRequest(request) ==>
      var parts := request.message.content.parts;
      |r.value| == |parts| && forall i :: 0 <= i < |parts| ==> r.value[i] == ToolResult(Get(parts[i], "content"))
  {
    match request.message
    case UserMessage(TextContent(s)) => Some([Prompt(Str(s), [])])
    case UserMessage(Parts(parts)) =>
      if IsToolResult(request.message.content) then Some(ResultEntries(parts)) else None
    case AssistantMessage(_, _, _) => None
  }

  /** One entry per tool-result part, in order. */
  function ResultEntries(parts: seq<JObject>): (r: seq<Block>)
    ensures |r| == |parts|
    ensures forall i :: 0 <= i < |parts| ==> r[i] == ToolResult(Get(parts[i], "content"))
  {
    if |parts| == 0 then [] else [ToolResult(Get(parts[0], "content"))] + ResultEntries(parts[1..])
  }

  /** A rendered thread entry. */
  datatype Turn = AssistantTurn(blocks: seq<Block>) | UserTurn(blocks: seq<Block>)

  /** A group renders as one assistant turn unless it is empty, a single
    * request as one user turn when `ClaudeUserMessage` shows anything. */
  function EntryView(e: Entry, allRequests: seq<ClaudeRequest>): (r: JsResult<Option<Turn>>)
    ensures e.Group? ==> (r.Ok? <==> |e.requests| == 0 || GroupBlocks(e.requests, allRequests).Ok?)
    ensures e.Group? && r.Ok? ==>
      r.value == if |e.requests| == 0 then None else Some(AssistantTurn(GroupBlocks(e.requests, allRequests).value))
    ensures e.Single? ==> r.Ok? && (r.value.Some? <==> UserView(e.request).Some?)
    ensures e.Single? && r.value.Some? ==> r.value.value == UserTurn(UserView(e.request).value)
  {
    match e
    case Group(g) =>
      var v :- GroupView(g, allRequests);
      Ok(if v.Some? then Some(AssistantTurn(v.value)) else None)
    case Single(r) =>
      var v := UserView(r);
      Ok(if v.Some? then Some(UserTurn(v.value)) else None)
  }

  /** The rendered entries, dropping those that render nothing. */
  function EntriesView(es: seq<Entry>, allRequests: seq<ClaudeRequest>): (r: JsResult<seq<Turn>>)
    ensures r.Ok? <==> forall i :: 0 <= i < |es| ==> EntryView(es[i], allRequests).Ok?
    ensures r.Ok? ==> |r.value| <= |es|
    decreases |es|
  {
    if |es| == 0 then Ok([])
    else
      var front :- EntriesView(es[..|es| - 1], allRequests);
      var back :- EntryView(es[|es| - 1], allRequests);
      Ok(front + (if back.Some? then [back.value] else []))
  }

  /** The turns of consecutive entries follow one another: what a run of
    * entries shows is what its first part shows, then what the rest shows. */
  lemma {:induction false} EntriesViewAppend(a: seq<Entry>, b: seq<Entry>, allRequests: seq<ClaudeRequest>)
    ensures EntriesView(a + b, allRequests).Ok? <==> EntriesView(a, allRequests).Ok? && EntriesView(b, allRequests).Ok?
    ensures EntriesView(a + b, allRequests).Ok? ==>
      EntriesView(a + b, allRequests).value == EntriesView(a, allRequests).value + EntriesView(b, allRequests).value
    decreases |b|
  {
    if |b| == 0 {
      assert a + b == a;
    } else {
      var n := |b| - 1;
      assert (a + b)[..|a + b| - 1] == a + b[..n];
      assert (a + b)[|a + b| - 1] == b[n];
      assert b[..n] + [b[n]] == b;
      EntriesViewAppend(a, b[..n], allRequests);
      if EntriesView(a + b, allRequests).Ok? {
        assert EntriesView(b, allRequests).Ok?;
        assert EntriesView(b[..n], allRequests).Ok?;
      }
    }
  }

  /** One entry shows its own turn, or nothing when it renders nothing. */
  lemma EntriesViewOne(e: Entry, allRequests: seq<ClaudeRequest>)
    ensures EntriesView([e], allRequests) ==
      match EntryView(e, allRequests)
      case Err(x) => Err(x)
      case Ok(v) => Ok(if v.Some? then [v.value] else [])
  {
    assert [e][..0] == [];
    assert EntriesView([], allRequests) == Ok([]);
    match EntryView(e, allRequests) {
      case Err(x) =>
      case Ok(v) =>
        var shown: seq<Turn> := if v.Some? then [v.value] else [];
        assert [] + shown == shown;
    }
  }

  /** `ClaudeThread`: the grouped entries, each group rendered against the
    * whole request list. */
  function ThreadView(requests: seq<ClaudeRequest>): JsResult<seq<Turn>>
  {
    EntriesView(Grouped(requests), requests)
  }

  // ---------------------------------------------------------------------
  // The sample thread of the home page
  // ---------------------------------------------------------------------

  const Req1 := ClaudeRequest("req_1", UserMessage(TextContent("Create a simple counter component using React and Lucide icons.")))
  const Thought := "I need to create a React component that implements a counter. I'll use the `useState` hook for the count value and `Plus` and `Minus` icons from `lucide-react` for the buttons."
  const Req2 := ClaudeRequest("req_2", AssistantMessage(
    [Obj([Field("type", JStr("thinking")), Field("thinking", JStr(Thought))])],
    "msg_1", "claude-3-5-sonnet-20241022"))
  const BashInput := Obj([Field("command", JStr("npm install lucide-react"))])
  const Req3 := ClaudeRequest("req_3", AssistantMessage(
    [Obj([Field("type", JStr("tool_use")), Field("name", JStr("Bash")), Field("id", JStr("tool_1")), Field("input", BashInput)])],
    "msg_2", "claude-3-5-sonnet-20241022"))
  const Req4 := ClaudeRequest("req_4", UserMessage(Parts(
    [Obj([Field("type", JStr("tool_result")), Field("tool_use_id", JStr("tool_1")), Field("content", JStr("added 1 package in 1s"))])])))
  const CounterPath := "src/components/Counter.tsx"
  /** The sample's component source, abridged to its first line. */
  const CounterSource := "import { useState } from \"react\";"
  const EditInput := Obj([Field("file_path", JStr(CounterPath)), Field("old_string", JStr("")), Field("new_string", JStr(CounterSource))])
  const Req5 := ClaudeRequest("req_5", AssistantMessage(
    [Obj([Field("type", JStr("tool_use")), Field("name", JStr("Edit")), Field("id", JStr("tool_2")), Field("input", EditInput)])],
    "msg_3", "claude-3-5-sonnet-20241022"))
  const SampleRequests := [Req1, Req2, Req3, Req4, Req5]

  lemma SampleKinds()
    ensures IsPromptRequest(Req1) && IsAssistant(Req2) && IsAssistant(Req3) && IsResultRequest(Req4) && IsAssistant(Req5)
  {
  }

  /** The prompt stands alone, the three assistant requests form one group
    * and the tool result is absorbed by it. */
  lemma SampleGrouping()
    ensures Grouped(SampleRequests) == [Single(Req1), Group([Req2, Req3, Req5])]
  {
    var rs := SampleRequests;
    SampleKinds();
    assert rs[..0] == [];
    SampleStep(0, Grouping([], []), Grouping([Single(Req1)], []));
    SampleStep(1, Grouping([Single(Req1)], []), Grouping([Single(Req1)], [Req2]));
    SampleStep(2, Grouping([Single(Req1)], [Req2]), Grouping([Single(Req1)], [Req2, Req3]));
    SampleStep(3, Grouping([Single(Req1)], [Req2, Req3]), Grouping([Single(Req1)], [Req2, Req3]));
    SampleStep(4, Grouping([Single(Req1)], [Req2, Req3]), Grouping([Single(Req1)], [Req2, Req3, Req5]));
    assert rs[..5] == rs;
  }

  /** One iteration of the loop over the sample. */
  lemma SampleStep(i: nat, before: Grouping, after: Grouping)
    requires i < |SampleRequests|
    requires Foldl(GroupStep, Grouping([], []), SampleRequests[..i]) == before
    requires GroupStep(before, SampleRequests[i]) == after
    ensures Foldl(GroupStep, Grouping([], []), SampleRequests[..i + 1]) == after
  {
    FoldlStep(GroupStep, Grouping([], []), SampleRequests, i);
  }

  /** The lookup for `tool_1` from index 3 finds the output of the install. */
  lemma SampleToolResult()
    ensures ResultFrom(Str("tool_1"), SampleRequests, 3) == Str("added 1 package in 1s")
  {
    assert MatchIn(Req4, Str("tool_1")).Some?;
  }

  lemma LookupPast(f: Field, rest: seq<Field>, key: string)
    requires f.key != key
    ensures Lookup([f] + rest, key) == Lookup(rest, key)
  {
    assert ([f] + rest)[1..] == rest;
  }

  /** The install command of the sample, made by the third request, looks
    * for its result from index 3 and finds the output of the install. */
  lemma SampleCommandResult()
    ensures LookupStart(Req3, SampleRequests) == 3
    ensures BlockResult(Req3.message.blocks[0], Req3, SampleRequests) == Str("added 1 package in 1s")
  {
    SampleLookupStart();
    InstallBlock();
    SampleToolResult();
  }

  lemma SampleLookupStart()
    ensures LookupStart(Req3, SampleRequests) == 3
  {
    var rs := SampleRequests;
    assert rs[0].id == "req_1" && rs[1].id == "req_2" && rs[2].id == "req_3";
    assert FindIndexById(rs, "req_3") == 2;
  }

  /** The third request's block is the `tool_use` block of call `tool_1`. */
  lemma InstallBlock()
    ensures Get(Req3.message.blocks[0], "type") == Str("tool_use")
    ensures Get(Req3.message.blocks[0], "id") == Str("tool_1")
  {
    var f3 := Field("id", JStr("tool_1"));
    var rest := [f3, Field("input", BashInput)];
    LookupPast(Field("name", JStr("Bash")), rest, "id");
    LookupPast(Field("type", JStr("tool_use")), [Field("name", JStr("Bash"))] + rest, "id");
    assert Req3.message.blocks[0].fields == [Field("type", JStr("tool_use"))] + ([Field("name", JStr("Bash"))] + rest);
  }
}
