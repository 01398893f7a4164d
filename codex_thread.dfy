/**
 * The Codex thread renderer. A first pass collects every function call's
 * output by call id; a second pass walks the response items, turning each
 * into conversation blocks, collecting consecutive assistant output into
 * one bubble and closing the bubble at each user prompt.
 */
module CodexThread {
  import opened Strings
  import opened Js
  import opened Folds
  import opened Blocks

  const EnvironmentContext := "<environment_context>"

  /** A content block of a message or an entry of a reasoning summary. */
  datatype TextItem = TextItem(text: Option<string>)

  datatype GhostCommit = GhostCommit(id: string, parent: Option<string>, files: Option<seq<string>>, dirs: Option<seq<string>>)

  datatype Payload =
    | MessagePayload(role: string, content: Option<seq<TextItem>>)
    | ReasoningPayload(summary: Option<seq<TextItem>>)
    | FunctionCallPayload(name: string, arguments: Option<string>, callId: Option<string>)
    | FunctionCallOutputPayload(outputCallId: string, output: string)
    | GhostSnapshotPayload(commit: GhostCommit)
    | OtherPayload

  /** A record of the session: `response_item` records carry a payload;
    * event, turn-context and other records are not rendered. */
  datatype CodexMessage =
    | ResponseItem(timestamp: string, payload: Payload)
    | OtherRecord(kind: string)

  /** What the walk produces: an assistant bubble holding consecutive
    * assistant blocks, or a user prompt. */
  datatype Node = Bubble(blocks: seq<Block>) | User(prompt: string)

  // ---------------------------------------------------------------------------
  // Pass one: function outputs by call id
  // ---------------------------------------------------------------------------

  /** The output a record carries for `id`, if it is a function call output. */
  function OutputFor(m: CodexMessage, id: string): Option<string>
  {
    if m.ResponseItem? && m.payload.FunctionCallOutputPayload? && m.payload.outputCallId == id then Some(m.payload.output)
    else None
  }

  function OutputStep(outputs: map<string, string>, m: CodexMessage): map<string, string>
  {
    if m.ResponseItem? && m.payload.FunctionCallOutputPayload? then outputs[m.payload.outputCallId := m.payload.output]
    else outputs
  }

  function Outputs(messages: seq<CodexMessage>): map<string, string>
  {
    Foldl(OutputStep, map[], messages)
  }

  /** The `functionOutputs` pass: `outputs.set(call_id, output)` in record order. */
  method FunctionOutputs(messages: seq<CodexMessage>) returns (outputs: map<string, string>)
    ensures outputs == Outputs(messages)
  {
    outputs := map[];
    var i := 0;
    while i < |messages|
      invariant 0 <= i <= |messages|
      invariant outputs == Foldl(OutputStep, map[], messages[..i])
    {
      FoldlStep(OutputStep, map[], messages, i);
      var message := messages[i];
      if message.ResponseItem? && message.payload.FunctionCallOutputPayload? {
        outputs := outputs[message.payload.outputCallId := message.payload.output];
      }
      i := i + 1;
    }
    assert messages[..i] == messages;
  }

  /** A call id has an output exactly when some record carries one for it. */
  lemma {:induction false} OutputsDomain(messages: seq<CodexMessage>, id: string)
    ensures id in Outputs(messages) <==> exists i :: 0 <= i < |messages| && OutputFor(messages[i], id).Some?
    decreases |messages|
  {
    if |messages| > 0 {
      var n := |messages| - 1;
      OutputsDomain(messages[..n], id);
      if exists i :: 0 <= i < n && OutputFor(messages[..n][i], id).Some? {
        var i :| 0 <= i < n && OutputFor(messages[..n][i], id).Some?;
        assert messages[..n][i] == messages[i];
      }
      if exists i :: 0 <= i < |messages| && OutputFor(messages[i], id).Some? {
        var i :| 0 <= i < |messages| && OutputFor(messages[i], id).Some?;
        if i < n { assert messages[..n][i] == messages[i]; }
      }
    }
  }

  /** The output found for an id is the one its last output record carries,
    * wherever that record stands relative to the call. */
  lemma {:induction false} OutputsLast(messages: seq<CodexMessage>, id: string, k: nat)
    requires k < |messages| && OutputFor(messages[k], id).Some?
    requires forall j :: k < j < |messages| ==> OutputFor(messages[j], id).None?
    ensures id in Outputs(messages) && Outputs(messages)[id] == OutputFor(messages[k], id).value
    decreases |messages|
  {
    var n := |messages| - 1;
    if k < n {
      forall j | k < j < n ensures OutputFor(messages[..n][j], id).None? {
        assert messages[..n][j] == messages[j];
      }
      OutputsLast(messages[..n], id, k);
    }
  }

  // ---------------------------------------------------------------------------
  // The pure pieces of the walk
  // ---------------------------------------------------------------------------

  /** `.map(b => b.text).filter(Boolean)`: the non-empty texts, in order. */
  function NonEmptyText(item: TextItem): Option<string>
  {
    if item.text.Some? && item.text.value != "" then item.text else None
  }

  function Texts(items: seq<TextItem>): seq<string>
  {
    Choose(NonEmptyText, items)
  }

  /** A message's text: its non-empty block texts joined by a blank line, trimmed. */
  function MessageText(content: Option<seq<TextItem>>): string
  {
    Trim(Join(Texts(if content.Some? then content.value else []), "\n\n"))
  }

  /** `parseArguments(args)`: the parsed arguments, `{}` when absent, empty or malformed. */
  function ParseArguments(args: Option<string>, parse: Parser): (r: JValue)
    ensures args.None? || args.value == "" || parse(args.value).None? ==> r == JObj([])
    ensures args.Some? && args.value != "" && parse(args.value).Some? ==> r == parse(args.value).value
  {
    if args.None? || args.value == "" then JObj([])
    else match parse(args.value)
      case None => JObj([])
      case Some(v) => v
  }

  /** One plan entry: objects only, status defaulting to "pending", and
    * entries without a step dropped. */
  function PlanItemOf(item: JValue): (r: Option<PlanItem>)
    ensures r.Some? ==> r.value.step != ""
    ensures r.Some? <==> IsObjectType(Some(item)) && !item.JNull? && IsString(Get(item, "step")) && Get(item, "step").value.s != ""
    ensures r.Some? ==> r.value.status == if IsString(Get(item, "status")) then Get(item, "status").value.s else "pending"
  {
    if !Truthy(Some(item)) || !IsObjectType(Some(item)) then None
    else
      var status := Get(item, "status");
      var step := Get(item, "step");
      var s := if IsString(step) then step.value.s else "";
      if s == "" then None
      else Some(PlanItem(s, if IsString(status) then status.value.s else "pending"))
  }

  /** `extractPlanItems(value)` */
  function ExtractPlanItems(value: Prop): (r: seq<PlanItem>)
    ensures !IsArray(value) ==> r == []
    ensures IsArray(value) ==> r == Choose(PlanItemOf, value.value.items)
  {
    if !IsArray(value) then [] else Choose(PlanItemOf, value.value.items)
  }

  /** Every step shown comes from an entry of the plan, and every object
    * entry with a step is shown. */
  lemma PlanItemsSpec(items: seq<JValue>, p: PlanItem)
    ensures p in ExtractPlanItems(Some(JArr(items))) <==> exists i :: 0 <= i < |items| && PlanItemOf(items[i]) == Some(p)
    ensures forall q :: q in ExtractPlanItems(Some(JArr(items))) ==> q.step != ""
  {
    ChooseMember(PlanItemOf, items, p);
    forall q | q in ExtractPlanItems(Some(JArr(items))) ensures q.step != "" {
      ChooseMember(PlanItemOf, items, q);
    }
  }

  /** An untracked list as the snapshot shows it: nothing for an empty list,
    * otherwise the first five entries, the full count, and an ellipsis
    * exactly when entries are left out. */
  function UntrackedView(paths: Option<seq<string>>): (r: Option<Untracked>)
    ensures var ps := if paths.Some? then paths.value else [];
      (r.None? <==> ps == [])
      && (r.Some? ==> r.value.total == |ps| && r.value.shown <= ps && |r.value.shown| == (if |ps| < 5 then |ps| else 5)
                      && (r.value.ellipsis <==> |ps| > 5))
  {
    var ps := if paths.Some? then paths.value else [];
    if |ps| == 0 then None
    else Some(Untracked(ps[..if |ps| < 5 then |ps| else 5], |ps|, |ps| > 5))
  }

  function GhostBlock(c: GhostCommit): (r: Block)
    ensures r.GhostSnapshot? && r.commit == c.id
    ensures r.parent.Some? <==> c.parent.Some? && c.parent.value != ""
  {
    GhostSnapshot(c.id, if c.parent.Some? && c.parent.value != "" then c.parent else None, UntrackedView(c.files), UntrackedView(c.dirs))
  }

  /** `output && …`: an output line is shown only for a non-empty output. */
  function Shown(output: Option<string>): (r: Prop)
    ensures r.Some? <==> output.Some? && output.value != ""
  {
    if output.Some? && output.value != "" then Str(output.value) else None
  }

  function AsProp(output: Option<string>): (r: Prop)
    ensures r.Some? <==> output.Some?
  {
    if output.Some? then Str(output.value) else None
  }

  /** The block for a function call with parsed arguments `args`. Reading a
    * property of `null` arguments throws. */
  function CallBlock(name: string, args: JValue, output: Option<string>): (r: JsResult<Option<Block>>)
    ensures name == "shell_command" ==>
      (r.Err? <==> args.JNull?)
      && (r.Ok? ==> (r.value.Some? && r.value.value.Shell? && r.value.value.result == AsProp(output)
          && r.value.value.command == (if IsString(Get(args, "command")) then Get(args, "command") else Str("shell_command"))))
    ensures name == "update_plan" ==>
      (r.Err? <==> args.JNull?)
      && (r.Ok? ==> ((r.value.None? <==> ExtractPlanItems(Get(args, "plan")) == [])
          && (r.value.Some? ==> r.value.value == Plan(ExtractPlanItems(Get(args, "plan")), Shown(output)))))
    ensures name != "shell_command" && name != "update_plan" ==>
      r == Ok(Some(Generic(Str(name), Some(args), Shown(output))))
  {
    if name == "shell_command" then
      if args.JNull? then Err(TypeError)
      else
        var command := Get(args, "command");
        var description := Get(args, "description");
        var workdir := Get(args, "workdir");
        var explanation :=
          if IsString(description) then description
          else if IsString(workdir) then Str("cwd: " + workdir.value.s)
          else None;
        Ok(Some(Shell(if IsString(command) then command else Str("shell_command"), AsProp(output), explanation)))
    else if name == "update_plan" then
      if args.JNull? then Err(TypeError)
      else
        var planItems := ExtractPlanItems(Get(args, "plan"));
        if |planItems| == 0 then Ok(None) else Ok(Some(Plan(planItems, Shown(output))))
    else Ok(Some(Generic(Str(name), Some(args), Shown(output))))
  }

  /** The explanation of a shell call: its description, else its working
    * directory, else none. */
  lemma ShellExplanation(args: JValue, output: Option<string>)
    requires !args.JNull?
    ensures var b := CallBlock("shell_command", args, output).value.value;
      (IsString(Get(args, "description")) ==> b.explanation == Get(args, "description"))
      && (!IsString(Get(args, "description")) && IsString(Get(args, "workdir")) ==>
            b.explanation == Str("cwd: " + Get(args, "workdir").value.s))
      && (!IsString(Get(args, "description")) && !IsString(Get(args, "workdir")) ==> b.explanation.None?)
  {
  }

  // ---------------------------------------------------------------------------
  // Pass two: the walk
  // ---------------------------------------------------------------------------

  /** What one record contributes, before grouping. */
  datatype Item = AssistantItem(block: Block) | UserItem(text: string)

  function AssistantItems(bs: seq<Block>): (r: seq<Item>)
    ensures |r| == |bs| && forall i :: 0 <= i < |bs| ==> r[i] == AssistantItem(bs[i])
    decreases |bs|
  {
    if |bs| == 0 then [] else AssistantItems(bs[..|bs| - 1]) + [AssistantItem(bs[|bs| - 1])]
  }

  function ThinkingBlocks(thoughts: seq<string>): (r: seq<Block>)
    ensures |r| == |thoughts| && forall i :: 0 <= i < |thoughts| ==> r[i] == Thinking(Str(thoughts[i]), None)
    decreases |thoughts|
  {
    if |thoughts| == 0 then [] else ThinkingBlocks(thoughts[..|thoughts| - 1]) + [Thinking(Str(thoughts[|thoughts| - 1]), None)]
  }

  /** The items one record yields: a prompt for a user message that is not
    * environment context, a text block for an assistant message, one
    * thinking block per reasoning summary text, a block per function call
    * with a call id, a snapshot block, and nothing for anything else. */
  function MessageItems(outputs: map<string, string>, parse: Parser, m: CodexMessage): JsResult<seq<Item>>
  {
    if !m.ResponseItem? then Ok([])
    else match m.payload
      case MessagePayload(role, content) =>
        var text := MessageText(content);
        if text == "" then Ok([])
        else if role == "user" then
          if StartsWith(text, EnvironmentContext) then Ok([]) else Ok([UserItem(text)])
        else Ok([AssistantItem(Text(Str(text), []))])
      case ReasoningPayload(summary) =>
        if summary.None? then Ok([]) else Ok(AssistantItems(ThinkingBlocks(Texts(summary.value))))
      case FunctionCallPayload(name, arguments, callId) =>
        if callId.None? || callId.value == "" then Ok([])
        else
          var output := if callId.value in outputs then Some(outputs[callId.value]) else None;
          var b :- CallBlock(name, ParseArguments(arguments, parse), output);
          if b.Some? then Ok([AssistantItem(b.value)]) else Ok([])
      case GhostSnapshotPayload(commit) => Ok([AssistantItem(GhostBlock(commit))])
      case _ => Ok([])
  }

  /** The walk's variables: the finished nodes and the open bubble's blocks. */
  datatype Walk = Walk(nodes: seq<Node>, assistant: seq<Block>)

  /** `flushAssistant()` */
  function Flush(w: Walk): Walk
  {
    if |w.assistant| == 0 then w else Walk(w.nodes + [Bubble(w.assistant)], [])
  }

  function ApplyItem(w: Walk, item: Item): Walk
  {
    match item
    case AssistantItem(b) => Walk(w.nodes, w.assistant + [b])
    case UserItem(t) => Walk(Flush(w).nodes + [User(t)], [])
  }

  function Step(outputs: map<string, string>, parse: Parser): (Walk, CodexMessage) -> JsResult<Walk>
  {
    (w: Walk, m: CodexMessage) =>
      match MessageItems(outputs, parse, m)
      case Err(e) => Err(e)
      case Ok(items) => Ok(Foldl(ApplyItem, w, items))
  }

  /** The rendered nodes, or the exception a record's rendering throws. */
  function Rendered(outputs: map<string, string>, parse: Parser, messages: seq<CodexMessage>): JsResult<seq<Node>>
  {
    var w :- Fold(Step(outputs, parse), Walk([], []), messages);
    Ok(Flush(w).nodes)
  }

  /** `renderedMessages`: the second pass. */
  method RenderMessages(outputs: map<string, string>, parse: Parser, messages: seq<CodexMessage>)
    returns (r: JsResult<seq<Node>>)
    ensures r == Rendered(outputs, parse, messages)
  {
    var nodes: seq<Node> := [];
    var assistantBlocks: seq<Block> := [];
    var i := 0;
    while i < |messages|
      invariant 0 <= i <= |messages|
      invariant Fold(Step(outputs, parse), Walk([], []), messages[..i]) == Ok(Walk(nodes, assistantBlocks))
    {
      FoldStep(Step(outputs, parse), Walk([], []), messages, i);
      var next := RenderMessage(outputs, parse, nodes, assistantBlocks, messages[i]);
      if next.Err? {
        FoldErrPrefix(Step(outputs, parse), Walk([], []), messages, i + 1);
        return Err(next.error);
      }
      nodes, assistantBlocks := next.value.nodes, next.value.assistant;
      i := i + 1;
    }
    assert messages[..i] == messages;
    if |assistantBlocks| > 0 {
      nodes := nodes + [Bubble(assistantBlocks)];
    }
    r := Ok(nodes);
  }

  /** The walk's callback for one record: the new `nodes` and
    * `assistantBlocks`, or the exception the record's rendering throws. */
  method RenderMessage(outputs: map<string, string>, parse: Parser, nodes0: seq<Node>, blocks0: seq<Block>, message: CodexMessage)
    returns (r: JsResult<Walk>)
    ensures r == Step(outputs, parse)(Walk(nodes0, blocks0), message)
  {
    var before := Walk(nodes0, blocks0);
    StepItems(outputs, parse, before, message);
    if !message.ResponseItem? {
      return Ok(before);
    }
    match message.payload {
      case MessagePayload(role, content) =>
        r := RenderText(before, role, MessageText(content));
      case ReasoningPayload(summary) =>
        if summary.Some? {
          r := RenderReasoning(before, Texts(summary.value));
        } else {
          r := Ok(before);
        }
      case FunctionCallPayload(name, arguments, callId) =>
        if callId.Some? && callId.value != "" {
          var args := ParseArguments(arguments, parse);
          var output := if callId.value in outputs then Some(outputs[callId.value]) else None;
          var b := CallBlock(name, args, output);
          if b.Err? {
            return Err(b.error);
          }
          if b.value.Some? {
            ApplyOne(before, AssistantItem(b.value.value));
            r := Ok(Walk(before.nodes, before.assistant + [b.value.value]));
          } else {
            r := Ok(before);
          }
        } else {
          r := Ok(before);
        }
      case GhostSnapshotPayload(commit) =>
        ApplyOne(before, AssistantItem(GhostBlock(commit)));
        r := Ok(Walk(before.nodes, before.assistant + [GhostBlock(commit)]));
      case _ =>
        r := Ok(before);
    }
  }

  /** A message with text `text`: a prompt (closing the open bubble) for a
    * user message that is not environment context, a text block otherwise. */
  method RenderText(before: Walk, role: string, text: string) returns (r: JsResult<Walk>)
    ensures r == Ok(Foldl(ApplyItem, before,
      if text == "" then []
      else if role == "user" then (if StartsWith(text, EnvironmentContext) then [] else [UserItem(text)])
      else [AssistantItem(Text(Str(text), []))]))
  {
    var nodes, assistantBlocks := before.nodes, before.assistant;
    if text != "" {
      if role == "user" {
        if !StartsWith(text, EnvironmentContext) {
          if |assistantBlocks| > 0 {
            nodes := nodes + [Bubble(assistantBlocks)];
            assistantBlocks := [];
          }
          nodes := nodes + [User(text)];
          ApplyOne(before, UserItem(text));
        }
      } else {
        assistantBlocks := assistantBlocks + [Text(Str(text), [])];
        ApplyOne(before, AssistantItem(Text(Str(text), [])));
      }
    }
    r := Ok(Walk(nodes, assistantBlocks));
  }

  /** `thoughts.forEach(...)`: one thinking block per thought. */
  method RenderReasoning(before: Walk, thoughts: seq<string>) returns (r: JsResult<Walk>)
    ensures r == Ok(Foldl(ApplyItem, before, AssistantItems(ThinkingBlocks(thoughts))))
  {
    var assistantBlocks := before.assistant;
    var j := 0;
    while j < |thoughts|
      invariant 0 <= j <= |thoughts|
      invariant assistantBlocks == before.assistant + ThinkingBlocks(thoughts[..j])
    {
      assert thoughts[..j + 1][..j] == thoughts[..j];
      assistantBlocks := assistantBlocks + [Thinking(Str(thoughts[j]), None)];
      j := j + 1;
    }
    assert thoughts[..j] == thoughts;
    ApplyAssistant(before, ThinkingBlocks(thoughts));
    r := Ok(Walk(before.nodes, assistantBlocks));
  }

  lemma StepItems(outputs: map<string, string>, parse: Parser, w: Walk, m: CodexMessage)
    ensures Step(outputs, parse)(w, m) ==
      (var items := MessageItems(outputs, parse, m);
       if items.Err? then Err(items.error) else Ok(Foldl(ApplyItem, w, items.value)))
  {
  }

  lemma ApplyOne(w: Walk, item: Item)
    ensures Foldl(ApplyItem, w, [item]) == ApplyItem(w, item)
  {
    assert [item][..0] == [];
  }

  /** Assistant items only add to the open bubble. */
  lemma {:induction false} ApplyAssistant(w: Walk, bs: seq<Block>)
    ensures Foldl(ApplyItem, w, AssistantItems(bs)) == Walk(w.nodes, w.assistant + bs)
    decreases |bs|
  {
    if |bs| == 0 {
      assert w.assistant + bs == w.assistant;
    } else {
      var n := |bs| - 1;
      var items := AssistantItems(bs);
      assert items[..n] == AssistantItems(bs[..n]);
      ApplyAssistant(w, bs[..n]);
      assert w.assistant + bs[..n] + [bs[n]] == w.assistant + bs;
    }
  }

  // ---------------------------------------------------------------------------
  // What the walk guarantees
  // ---------------------------------------------------------------------------

  /** The items a node shows, in order. */
  function NodeItems(n: Node): seq<Item>
  {
    match n
    case Bubble(bs) => AssistantItems(bs)
    case User(t) => [UserItem(t)]
  }

  function Flat(nodes: seq<Node>): seq<Item>
    decreases |nodes|
  {
    if |nodes| == 0 then [] else Flat(nodes[..|nodes| - 1]) + NodeItems(nodes[|nodes| - 1])
  }

  /** The records' items one after another, or the first exception: the
    * reference the grouped rendering is measured against. */
  function Emitted(outputs: map<string, string>, parse: Parser, messages: seq<CodexMessage>): JsResult<seq<Item>>
    decreases |messages|
  {
    if |messages| == 0 then Ok([])
    else
      var before :- Emitted(outputs, parse, messages[..|messages| - 1]);
      var last :- MessageItems(outputs, parse, messages[|messages| - 1]);
      Ok(before + last)
  }

  /** Bubbles are never empty and never adjacent: each is followed by a prompt. */
  predicate WellGrouped(nodes: seq<Node>)
  {
    forall i :: 0 <= i < |nodes| && nodes[i].Bubble? ==>
      nodes[i].blocks != [] && (i + 1 < |nodes| ==> nodes[i + 1].User?)
  }

  /** During the walk the finished nodes are grouped and end with a prompt. */
  predicate WalkInv(w: Walk)
  {
    WellGrouped(w.nodes) && (|w.nodes| > 0 ==> w.nodes[|w.nodes| - 1].User?)
  }

  function WalkItems(w: Walk): seq<Item>
  {
    Flat(w.nodes) + AssistantItems(w.assistant)
  }

  lemma AssistantItemsAppend(a: seq<Block>, b: seq<Block>)
    ensures AssistantItems(a + b) == AssistantItems(a) + AssistantItems(b)
  {
    var l, r := AssistantItems(a + b), AssistantItems(a) + AssistantItems(b);
    assert |l| == |r|;
    forall i | 0 <= i < |l| ensures l[i] == r[i] {
      if i < |a| { assert (a + b)[i] == a[i]; } else { assert (a + b)[i] == b[i - |a|]; }
    }
  }

  lemma FlatSnoc(nodes: seq<Node>, n: Node)
    ensures Flat(nodes + [n]) == Flat(nodes) + NodeItems(n)
  {
    assert (nodes + [n])[..|nodes|] == nodes;
  }

  lemma FlushItems(w: Walk)
    ensures Flat(Flush(w).nodes) == WalkItems(w)
    ensures WalkInv(w) ==> WellGrouped(Flush(w).nodes)
  {
    if |w.assistant| > 0 {
      FlatSnoc(w.nodes, Bubble(w.assistant));
    }
  }

  lemma ApplyItemSpec(w: Walk, item: Item)
    requires WalkInv(w)
    ensures WalkItems(ApplyItem(w, item)) == WalkItems(w) + [item]
    ensures WalkInv(ApplyItem(w, item))
  {
    match item
    case AssistantItem(b) =>
      AssistantItemsAppend(w.assistant, [b]);
    case UserItem(t) =>
      FlushItems(w);
      FlatSnoc(Flush(w).nodes, User(t));
  }

  lemma {:induction false} ApplyItemsSpec(w: Walk, items: seq<Item>)
    requires WalkInv(w)
    ensures WalkItems(Foldl(ApplyItem, w, items)) == WalkItems(w) + items
    ensures WalkInv(Foldl(ApplyItem, w, items))
    decreases |items|
  {
    if |items| == 0 {
      assert WalkItems(w) + items == WalkItems(w);
    } else {
      var n := |items| - 1;
      ApplyItemsSpec(w, items[..n]);
      ApplyItemSpec(Foldl(ApplyItem, w, items[..n]), items[n]);
      assert items[..n] + [items[n]] == items;
    }
  }

  lemma {:induction false} WalkSpec(outputs: map<string, string>, parse: Parser, messages: seq<CodexMessage>)
    ensures match Fold(Step(outputs, parse), Walk([], []), messages)
      case Ok(w) => WalkInv(w) && Emitted(outputs, parse, messages) == Ok(WalkItems(w))
      case Err(e) => Emitted(outputs, parse, messages) == Err(e)
    decreases |messages|
  {
    if |messages| > 0 {
      var n := |messages| - 1;
      WalkSpec(outputs, parse, messages[..n]);
      match Fold(Step(outputs, parse), Walk([], []), messages[..n])
      case Err(e) =>
      case Ok(w) =>
        match MessageItems(outputs, parse, messages[n])
        case Err(e) =>
        case Ok(items) =>
          ApplyItemsSpec(w, items);
    } else {
      assert WalkItems(Walk([], [])) == [];
    }
  }

  /** Grouping loses, adds and reorders nothing: the rendered nodes show
    * exactly the records' items in record order, the rendering throws
    * exactly when a record's rendering does, and the bubbles are grouped. */
  lemma RenderedSpec(outputs: map<string, string>, parse: Parser, messages: seq<CodexMessage>)
    ensures Rendered(outputs, parse, messages).Ok? <==> Emitted(outputs, parse, messages).Ok?
    ensures Rendered(outputs, parse, messages).Ok? ==>
      Flat(Rendered(outputs, parse, messages).value) == Emitted(outputs, parse, messages).value
      && WellGrouped(Rendered(outputs, parse, messages).value)
  {
    WalkSpec(outputs, parse, messages);
    match Fold(Step(outputs, parse), Walk([], []), messages)
    case Err(e) =>
    case Ok(w) =>
      FlushItems(w);
  }

  /** A user message that is environment context leaves the walk untouched:
    * it neither shows nor closes the open bubble. */
  lemma EnvironmentContextIgnored(outputs: map<string, string>, parse: Parser, w: Walk, timestamp: string, content: Option<seq<TextItem>>)
    requires StartsWith(MessageText(content), EnvironmentContext)
    ensures Step(outputs, parse)(w, ResponseItem(timestamp, MessagePayload("user", content))) == Ok(w)
  {
    assert MessageText(content) != "";
  }

  /** Any other non-empty user message closes the open bubble before its prompt. */
  lemma UserMessageCloses(outputs: map<string, string>, parse: Parser, w: Walk, timestamp: string, content: Option<seq<TextItem>>)
    requires MessageText(content) != "" && !StartsWith(MessageText(content), EnvironmentContext)
    ensures Step(outputs, parse)(w, ResponseItem(timestamp, MessagePayload("user", content)))
         == Ok(Walk(Flush(w).nodes + [User(MessageText(content))], []))
  {
    ApplyOne(w, UserItem(MessageText(content)));
  }

  /** Records other than response items are not rendered. */
  lemma OtherRecordsIgnored(outputs: map<string, string>, parse: Parser, w: Walk, kind: string)
    ensures Step(outputs, parse)(w, OtherRecord(kind)) == Ok(w)
  {
  }

  /** Reasoning adds one thinking block per non-empty summary text, in order. */
  lemma ReasoningThoughts(outputs: map<string, string>, parse: Parser, w: Walk, timestamp: string, summary: seq<TextItem>)
    ensures Step(outputs, parse)(w, ResponseItem(timestamp, ReasoningPayload(Some(summary))))
         == Ok(Walk(w.nodes, w.assistant + ThinkingBlocks(Texts(summary))))
  {
    ApplyAssistant(w, ThinkingBlocks(Texts(summary)));
  }
}
