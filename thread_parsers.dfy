/**
 * Format detection and the VS Code normaliser (apps/web/src/lib/thread-parsers.ts).
 *
 * The payload is untyped JSON: the detector is a first-match classifier over
 * its keys, and the normaliser flattens `requests[].response[]` into user
 * and assistant messages, raising the TypeErrors JavaScript raises when the
 * JSON has an unexpected shape.
 */
module ThreadParsers {
  import opened Js
  import opened Strings
  import opened Folds

  // ---------------------------------------------------------------------
  // Records produced by the normaliser
  // ---------------------------------------------------------------------

  datatype ThreadFormat = VSCodeFormat | CustorFormat | ClaudeFormat

  function FormatName(f: ThreadFormat): string
  {
    match f
    case VSCodeFormat => "vscode"
    case CustorFormat => "custor"
    case ClaudeFormat => "claude"
  }

  /** `new ThreadParseError(message, formatAttempted?, originalError?)` */
  datatype ThreadParseError = ThreadParseError(message: string, formatAttempted: Option<string>, originalError: Option<JsError>)

  /** What a parsing call throws: a language exception or a ThreadParseError. */
  datatype Thrown = Native(error: JsError) | ParseFailure(parseError: ThreadParseError)

  datatype Role = User | Assistant | System

  /** One entry of a `metadata` record. */
  datatype Meta = Meta(key: string, value: Prop)

  datatype Part = Part(text: Prop, range: Prop)

  datatype AttachmentType = FileAttachment | UriAttachment

  datatype Attachment = Attachment(kind: AttachmentType, path: JValue, metadata: seq<Meta>)

  datatype LineRange = LineRange(startLineNumber: Prop, endLineNumber: Prop)

  datatype TextEdit = TextEdit(range: LineRange, oldText: Prop, newText: Prop)

  datatype EditGroup = EditGroup(filePath: JValue, edits: seq<TextEdit>)

  datatype ToolStatus = Running | Completed | Failed

  datatype ToolCallData = ToolCallData(
    toolId: Prop, toolName: Prop, invocationMessage: Prop, pastTenseMessage: Prop,
    terminalCommand: Prop, status: ToolStatus, metadata: seq<Meta>)

  /** Optional fields are `None` when the message leaves them out. */
  datatype NormalizedMessage = NormalizedMessage(
    id: string, role: Role, text: Prop, parts: Option<seq<Part>>,
    attachments: Option<seq<Attachment>>, edits: Option<seq<EditGroup>>,
    toolCalls: Option<seq<ToolCallData>>, metadata: seq<Meta>)

  datatype ParsedThread = ParsedThread(
    id: Prop, sessionId: Prop, requesterUsername: Prop, responderUsername: Prop,
    messages: seq<NormalizedMessage>, metadata: seq<Meta>)

  // ---------------------------------------------------------------------
  // Format detection
  // ---------------------------------------------------------------------

  /** `key in v` for the object-typed payload; arrays hold none of the probed names. */
  predicate Has(v: JValue, key: string)
  {
    v.JObj? && Lookup(v.fields, key).Some?
  }

  predicate VSCodeShape(v: JValue)
  {
    Has(v, "requests") && IsArray(Get(v, "requests")) && (Has(v, "sessionId") || Has(v, "version"))
  }

  predicate CustorShape(v: JValue)
  {
    Has(v, "conversations") || (Has(v, "items") && IsArray(Get(v, "items")))
  }

  predicate MessagesArray(v: JValue)
  {
    Has(v, "messages") && IsArray(Get(v, "messages"))
  }

  /** `obj.messages[0]` */
  function FirstMessage(v: JValue): Prop
    requires MessagesArray(v)
  {
    var msgs := Get(v, "messages").value.items;
    if |msgs| > 0 then Some(msgs[0]) else None
  }

  predicate ClaudeShape(v: JValue)
  {
    MessagesArray(v) && FirstMessage(v).Some?
    && (Has(FirstMessage(v).value, "author") || Has(FirstMessage(v).value, "role"))
  }

  /** `detectFormat(payload)`: `Ok(None)` is the `null` format. The `in` test on a
    * first message that is a truthy primitive throws. */
  function DetectFormat(payload: Prop): (r: JsResult<Option<ThreadFormat>>)
    ensures !Truthy(payload) || !IsObjectType(payload) ==> r == Ok(None)
    ensures Truthy(payload) && IsObjectType(payload) ==>
      var v := payload.value;
      (r == Ok(Some(VSCodeFormat)) <==> VSCodeShape(v))
      && (r == Ok(Some(CustorFormat)) <==> !VSCodeShape(v) && CustorShape(v))
      && (r == Ok(Some(ClaudeFormat)) <==> !VSCodeShape(v) && !CustorShape(v) && ClaudeShape(v))
      && (r.Err? <==> !VSCodeShape(v) && !CustorShape(v) && MessagesArray(v)
                      && Truthy(FirstMessage(v)) && !FirstMessage(v).value.JObj? && !FirstMessage(v).value.JArr?)
      && (r == Ok(None) <==> !VSCodeShape(v) && !CustorShape(v) && !ClaudeShape(v)
                             && !(MessagesArray(v) && Truthy(FirstMessage(v))
                                  && !FirstMessage(v).value.JObj? && !FirstMessage(v).value.JArr?))
  {
    if !Truthy(payload) || !IsObjectType(payload) then Ok(None)
    else
      var obj := payload.value;
      if VSCodeShape(obj) then Ok(Some(VSCodeFormat))
      else if CustorShape(obj) then Ok(Some(CustorFormat))
      else if MessagesArray(obj) then
        var first := FirstMessage(obj);
        if !Truthy(first) then Ok(None)
        else
          var author :- In("author", first);
          if author || Has(first.value, "role") then Ok(Some(ClaudeFormat)) else Ok(None)
      else Ok(None)
  }

  /** An empty `messages` array is not recognised as a Claude thread. */
  lemma EmptyMessagesUndetected(payload: Prop)
    requires payload.Some? && payload.value.JObj?
    requires !VSCodeShape(payload.value) && !CustorShape(payload.value)
    requires Get(payload.value, "messages") == Some(JArr([]))
    ensures DetectFormat(payload) == Ok(None)
  {
  }

  // ---------------------------------------------------------------------
  // Helpers
  // ---------------------------------------------------------------------

  /** `extractFilePath(uri)`: `uri.fsPath || uri.path || "Unknown file"`. */
  function ExtractFilePath(uri: Prop): (r: JValue)
    ensures Truthy(Some(r))
    ensures !Truthy(uri) ==> r == JStr("Unknown file")
    ensures Truthy(uri) && Truthy(OptGet(uri, "fsPath")) ==> Some(r) == OptGet(uri, "fsPath")
    ensures Truthy(uri) && !Truthy(OptGet(uri, "fsPath")) && Truthy(OptGet(uri, "path")) ==> Some(r) == OptGet(uri, "path")
    ensures !Truthy(OptGet(uri, "fsPath")) && !Truthy(OptGet(uri, "path")) ==> r == JStr("Unknown file")
  {
    if !Truthy(uri) then JStr("Unknown file")
    else
      var p := Or(Or(OptGet(uri, "fsPath"), OptGet(uri, "path")), Str("Unknown file"));
      p.value
  }

  /** `extractMessageValue(message)`: a string message is its own value. */
  function ExtractMessageValue(message: Prop): (r: Prop)
    ensures !Truthy(message) ==> r.None?
    ensures Truthy(message) && IsString(message) ==> r == message
    ensures Truthy(message) && message.value.JObj? ==> r == Get(message.value, "value")
  {
    if !Truthy(message) then None
    else if IsString(message) then message
    else Get(message.value, "value")
  }

  // ---------------------------------------------------------------------
  // User messages
  // ---------------------------------------------------------------------

  function PartOf(part: JValue): (r: JsResult<Part>)
    ensures r.Err? <==> part.JNull?
  {
    if part.JNull? then Err(TypeError) else Ok(Part(Get(part, "text"), Get(part, "range")))
  }

  /** `message.parts?.map(...)` */
  function PartsOf(parts: Prop): (r: JsResult<Option<seq<Part>>>)
    ensures Nullish(parts) ==> r == Ok(None)
    ensures r.Ok? && r.value.Some? ==> IsArray(parts) && |r.value.value| == |parts.value.items|
  {
    if Nullish(parts) then Ok(None)
    else
      var items :- Elements(parts);
      var ps :- MapResult(PartOf, items);
      Ok(Some(ps))
  }

  /** One request variable as an attachment: always of type "file". */
  function VariableAttachment(variable: JValue): (r: JsResult<Attachment>)
    ensures r.Ok? ==> r.value.kind == FileAttachment && r.value.path == ExtractFilePath(Get(variable, "value"))
    ensures r.Err? <==> variable.JNull?
  {
    if variable.JNull? then Err(TypeError)
    else Ok(Attachment(FileAttachment, ExtractFilePath(Get(variable, "value")),
                       [Meta("id", Get(variable, "id")), Meta("name", Get(variable, "name"))]))
  }

  /** `variables && variables.length > 0`; a `length` that is not a JSON number
    * counts as not positive. */
  predicate NonEmptyLength(v: JValue)
  {
    match v
    case JArr(items) => |items| > 0
    case JStr(s) => |s| > 0
    case JObj(_) => var len := Get(v, "length"); len.Some? && len.value.JNum? && len.value.n > 0
    case _ => false
  }

  /** The attachments of a user message: one file attachment per variable, in
    * order, and none at all for an absent or empty variable list. */
  function VariableAttachments(variables: Prop): (r: JsResult<Option<seq<Attachment>>>)
    ensures !Truthy(variables) ==> r == Ok(None)
    ensures IsArray(variables) && variables.value.items == [] ==> r == Ok(None)
    ensures IsArray(variables) && variables.value.items != [] ==>
      (r.Ok? <==> JNull !in variables.value.items)
    ensures r.Ok? && r.value.Some? ==>
      IsArray(variables) && |r.value.value| == |variables.value.items| > 0
      && forall i :: 0 <= i < |r.value.value| ==>
           r.value.value[i].kind == FileAttachment
           && r.value.value[i].path == ExtractFilePath(Get(variables.value.items[i], "value"))
  {
    if !Truthy(variables) || !NonEmptyLength(variables.value) then Ok(None)
    else
      var items :- Elements(variables);
      var atts :- MapResult(VariableAttachment, items);
      assert forall i :: 0 <= i < |items| ==> (VariableAttachment(items[i]).Ok? <==> !items[i].JNull?);
      Ok(Some(atts))
  }

  /** The user message of one request, or the TypeError its construction raises. */
  function UserMessage(request: JValue): (r: JsResult<NormalizedMessage>)
    ensures r.Ok? ==> r.value.id == ToStr(Get(request, "requestId")) + "-user" && r.value.role == User
    ensures r.Ok? ==> r.value.edits.None? && r.value.toolCalls.None?
    ensures r.Ok? ==> r.value.text == OptGet(Get(request, "message"), "text")
  {
    if request.JNull? then Err(TypeError)
    else
    var requestId := Get(request, "requestId");
    var message := Get(request, "message");
    var text :- Member(message, "text");
    var parts :- PartsOf(OptGet(message, "parts"));
    var attachments :- VariableAttachments(OptGet(Get(request, "variableData"), "variables"));
    Ok(NormalizedMessage(ToStr(requestId) + "-user", User, text, parts, attachments, None, None,
                         [Meta("requestId", requestId)]))
  }

  // ---------------------------------------------------------------------
  // Response items
  // ---------------------------------------------------------------------

  /** The accumulators of `parseVSCodeResponse`. */
  datatype Acc = Acc(textParts: seq<string>, edits: seq<EditGroup>, toolCalls: seq<ToolCallData>, attachments: seq<Attachment>)

  const EmptyAcc := Acc([], [], [], [])

  predicate IsKind(item: JValue, kind: string)
  {
    Has(item, "kind") && IsStr(Get(item, "kind"), kind)
  }

  /** Which arm of the dispatch an item takes, in the order the arms are tried. */
  datatype ItemClass = EditGroupItem | CodeblockUriItem | InlineReferenceItem | ToolItem | UndoStopItem | TextItem | DroppedItem

  function ClassifyItem(item: JValue): (r: JsResult<ItemClass>)
    ensures r.Err? <==> !item.JObj? && !item.JArr?
    ensures r == Ok(EditGroupItem) <==> IsKind(item, "textEditGroup")
    ensures r == Ok(ToolItem) <==>
      !IsKind(item, "textEditGroup") && !IsKind(item, "codeblockUri") && !IsKind(item, "inlineReference")
      && (Has(item, "toolCallId") || Has(item, "toolId"))
    ensures r == Ok(TextItem) ==> IsString(Get(item, "value"))
    ensures r == Ok(DroppedItem) <==> ((item.JObj? || item.JArr?)
      && !IsKind(item, "textEditGroup") && !IsKind(item, "codeblockUri") && !IsKind(item, "inlineReference")
      && !Has(item, "toolCallId") && !Has(item, "toolId") && !IsKind(item, "undoStop")
      && !(Has(item, "value") && IsString(Get(item, "value"))))
  {
    if !item.JObj? && !item.JArr? then Err(TypeError)
    else if IsKind(item, "textEditGroup") then Ok(EditGroupItem)
    else if IsKind(item, "codeblockUri") then Ok(CodeblockUriItem)
    else if IsKind(item, "inlineReference") then Ok(InlineReferenceItem)
    else if Has(item, "toolCallId") || Has(item, "toolId") then Ok(ToolItem)
    else if IsKind(item, "undoStop") then Ok(UndoStopItem)
    else if Has(item, "value") && IsString(Get(item, "value")) then Ok(TextItem)
    else Ok(DroppedItem)
  }

  /** One kept entry of a text edit group: the range's line numbers and the new text. */
  function EditOf(edit: JValue): (r: TextEdit)
    ensures r.oldText.None? && r.newText == Get(edit, "text")
  {
    var range := Get(edit, "range");
    TextEdit(LineRange(OptGet(range, "startLineNumber"), OptGet(range, "endLineNumber")), None, Get(edit, "text"))
  }

  /** Inner loop step: `if (edit.range) editGroup.edits.push(...)`. */
  function EntryStep(acc: seq<TextEdit>, edit: JValue): JsResult<seq<TextEdit>>
  {
    if edit.JNull? then Err(TypeError)
    else if Truthy(Get(edit, "range")) then Ok(acc + [EditOf(edit)])
    else Ok(acc)
  }

  /** Outer loop step: only nested arrays are walked. */
  function GroupStep(acc: seq<TextEdit>, group: JValue): JsResult<seq<TextEdit>>
  {
    if group.JArr? then Fold(EntryStep, acc, group.items) else Ok(acc)
  }

  /** The edits of a group: kept entries in order, with a range, their new text and no old text. */
  method CollectEdits(groups: seq<JValue>) returns (r: JsResult<seq<TextEdit>>)
    ensures r == Fold(GroupStep, [], groups)
  {
    var edits: seq<TextEdit> := [];
    var i := 0;
    while i < |groups|
      invariant 0 <= i <= |groups|
      invariant Fold(GroupStep, [], groups[..i]) == Ok(edits)
    {
      FoldStep(GroupStep, [], groups, i);
      var group := groups[i];
      if group.JArr? {
        var inner := group.items;
        var before := edits;
        var j := 0;
        while j < |inner|
          invariant 0 <= j <= |inner|
          invariant Fold(EntryStep, before, inner[..j]) == Ok(edits)
        {
          FoldStep(EntryStep, before, inner, j);
          var edit := inner[j];
          if edit.JNull? {
            FoldErrPrefix(EntryStep, before, inner, j + 1);
            FoldErrPrefix(GroupStep, [], groups, i + 1);
            return Err(TypeError);
          }
          if Truthy(Get(edit, "range")) {
            edits := edits + [EditOf(edit)];
          }
          j := j + 1;
        }
        assert inner[..j] == inner;
      }
      i := i + 1;
    }
    assert groups[..i] == groups;
    r := Ok(edits);
  }

  /** The entries of the nested edit arrays, flattened in order. */
  function Nested(groups: seq<JValue>): seq<JValue>
  {
    if |groups| == 0 then []
    else (if groups[0].JArr? then groups[0].items else []) + Nested(groups[1..])
  }

  /** The entries with a truthy range, each as its edit. */
  function KeptEdits(entries: seq<JValue>): seq<TextEdit>
  {
    if |entries| == 0 then []
    else (if Truthy(Get(entries[0], "range")) then [EditOf(entries[0])] else []) + KeptEdits(entries[1..])
  }

  lemma {:induction false} KeptEditsAppend(a: seq<JValue>, b: seq<JValue>)
    ensures KeptEdits(a + b) == KeptEdits(a) + KeptEdits(b)
  {
    if |a| > 0 {
      assert (a + b)[1..] == a[1..] + b;
      KeptEditsAppend(a[1..], b);
    } else {
      assert a + b == b;
    }
  }

  lemma {:induction false} NestedAppend(a: seq<JValue>, b: seq<JValue>)
    ensures Nested(a + b) == Nested(a) + Nested(b)
  {
    if |a| > 0 {
      assert (a + b)[1..] == a[1..] + b;
      NestedAppend(a[1..], b);
    } else {
      assert a + b == b;
    }
  }

  lemma {:induction false} EntryFold(acc: seq<TextEdit>, entries: seq<JValue>)
    ensures Fold(EntryStep, acc, entries) == if JNull in entries then Err(TypeError) else Ok(acc + KeptEdits(entries))
    decreases |entries|
  {
    if |entries| == 0 {
      assert acc + [] == acc;
    } else {
      var front, last := entries[..|entries| - 1], entries[|entries| - 1];
      assert entries == front + [last];
      assert JNull in entries <==> JNull in front || last == JNull;
      EntryFold(acc, front);
      KeptEditsAppend(front, [last]);
      var tail := if Truthy(Get(last, "range")) then [EditOf(last)] else [];
      assert KeptEdits([last]) == tail by {
        assert [last][1..] == [];
      }
      if JNull !in entries {
        assert Fold(EntryStep, acc, entries) == EntryStep(acc + KeptEdits(front), last);
        assert !last.JNull?;
        if Truthy(Get(last, "range")) {
          assert EntryStep(acc + KeptEdits(front), last) == Ok((acc + KeptEdits(front)) + [EditOf(last)]);
        } else {
          assert EntryStep(acc + KeptEdits(front), last) == Ok(acc + KeptEdits(front));
          assert (acc + KeptEdits(front)) + tail == acc + KeptEdits(front);
        }
        assert (acc + KeptEdits(front)) + tail == acc + KeptEdits(entries);
      }
    }
  }

  /** Text edit groups flatten their nested arrays in order, keep only the
    * entries with a range, take `newText` from `text` and never set `oldText`;
    * a `null` entry throws. */
  lemma {:induction false} FlattenEdits(acc: seq<TextEdit>, groups: seq<JValue>)
    ensures Fold(GroupStep, acc, groups) == if JNull in Nested(groups) then Err(TypeError) else Ok(acc + KeptEdits(Nested(groups)))
    ensures forall e :: e in KeptEdits(Nested(groups)) ==> e.oldText.None?
    decreases |groups|
  {
    KeptHaveNoOldText(Nested(groups));
    if |groups| == 0 {
      assert acc + [] == acc;
    } else {
      var front := groups[..|groups| - 1];
      FlattenEdits(acc, front);
      FlattenStep(acc, front, groups[|groups| - 1]);
      assert groups == front + [groups[|groups| - 1]];
    }
  }

  /** One more group: its entries are appended to those of the groups before. */
  lemma FlattenStep(acc: seq<TextEdit>, front: seq<JValue>, last: JValue)
    requires Fold(GroupStep, acc, front) == if JNull in Nested(front) then Err(TypeError) else Ok(acc + KeptEdits(Nested(front)))
    ensures var groups := front + [last];
      Fold(GroupStep, acc, groups) == if JNull in Nested(groups) then Err(TypeError) else Ok(acc + KeptEdits(Nested(groups)))
  {
    var tail := if last.JArr? then last.items else [];
    FoldSnoc(GroupStep, acc, front, last);
    NestedSnoc(front, last);
    if JNull !in Nested(front) {
      var mid := acc + KeptEdits(Nested(front));
      KeptEditsAppend(Nested(front), tail);
      if last.JArr? {
        EntryFold(mid, last.items);
        assert GroupStep(mid, last) == Fold(EntryStep, mid, last.items);
        assert mid + KeptEdits(tail) == acc + (KeptEdits(Nested(front)) + KeptEdits(tail));
      } else {
        assert Nested(front) + tail == Nested(front);
      }
    }
  }

  /** The entries of one more group follow those of the groups before. */
  lemma NestedSnoc(front: seq<JValue>, last: JValue)
    ensures Nested(front + [last]) == Nested(front) + (if last.JArr? then last.items else [])
  {
    NestedAppend(front, [last]);
    assert [last][1..] == [];
  }

  lemma {:induction false} KeptHaveNoOldText(entries: seq<JValue>)
    ensures forall e :: e in KeptEdits(entries) ==> e.oldText.None?
  {
    if |entries| > 0 {
      KeptHaveNoOldText(entries[1..]);
    }
  }

  /** The edit group of a `textEditGroup` item. */
  function EditGroupOf(item: JValue): JsResult<EditGroup>
  {
    var filePath := ExtractFilePath(Get(item, "uri"));
    var edits := Get(item, "edits");
    if Truthy(edits) && IsArray(edits) then
      var es :- Fold(GroupStep, [], edits.value.items);
      Ok(EditGroup(filePath, es))
    else Ok(EditGroup(filePath, []))
  }

  /** The tool call recorded for a tool item. */
  function ToolCallOf(item: JValue): (r: ToolCallData)
    ensures r.status == Completed <==> Truthy(Get(item, "isComplete"))
    ensures r.status != Failed && r.terminalCommand.None?
    ensures r.toolId == Or(Get(item, "toolCallId"), Get(item, "toolId")) && r.toolName == Get(item, "toolId")
  {
    ToolCallData(
      Or(Get(item, "toolCallId"), Get(item, "toolId")),
      Get(item, "toolId"),
      ExtractMessageValue(Get(item, "invocationMessage")),
      ExtractMessageValue(Get(item, "pastTenseMessage")),
      None,
      if Truthy(Get(item, "isComplete")) then Completed else Running,
      [Meta("presentation", Get(item, "presentation")), Meta("source", Get(item, "source")),
       Meta("toolSpecificData", Get(item, "toolSpecificData"))])
  }

  function CodeblockAttachment(item: JValue): Attachment
  {
    Attachment(FileAttachment, ExtractFilePath(Get(item, "uri")), [Meta("isEdit", Get(item, "isEdit"))])
  }

  function InlineReferenceAttachment(item: JValue): Attachment
  {
    Attachment(UriAttachment, ExtractFilePath(Get(item, "inlineReference")), [])
  }

  /** One iteration of the `responseItems.forEach` body. */
  function Step(acc: Acc, item: JValue): JsResult<Acc>
  {
    var cls :- ClassifyItem(item);
    match cls
    case EditGroupItem =>
      var g :- EditGroupOf(item);
      Ok(if |g.edits| > 0 then acc.(edits := acc.edits + [g]) else acc)
    case CodeblockUriItem => Ok(acc.(attachments := acc.attachments + [CodeblockAttachment(item)]))
    case InlineReferenceItem => Ok(acc.(attachments := acc.attachments + [InlineReferenceAttachment(item)]))
    case ToolItem => Ok(acc.(toolCalls := acc.toolCalls + [ToolCallOf(item)]))
    case UndoStopItem => Ok(acc)
    case TextItem => Ok(acc.(textParts := acc.textParts + [Get(item, "value").value.s]))
    case DroppedItem => Ok(acc)
  }

  predicate IsEmptyAcc(acc: Acc)
  {
    acc.textParts == [] && acc.edits == [] && acc.toolCalls == [] && acc.attachments == []
  }

  function NonEmpty<T>(xs: seq<T>): Option<seq<T>>
  {
    if |xs| > 0 then Some(xs) else None
  }

  /** `flushMessage(index)`: one assistant message when any accumulator holds something. */
  function Flush(acc: Acc, requestId: Prop, index: nat): (r: seq<NormalizedMessage>)
    ensures |r| <= 1
    ensures |r| == 0 <==> IsEmptyAcc(acc)
    ensures |r| == 1 ==>
      r[0].id == ToStr(requestId) + "-assistant-" + NatToString(index) && r[0].role == Assistant
      && r[0].text == Str(Join(acc.textParts, "\n"))
      && (r[0].edits.Some? <==> acc.edits != []) && (r[0].toolCalls.Some? <==> acc.toolCalls != [])
      && (r[0].attachments.Some? <==> acc.attachments != [])
  {
    if IsEmptyAcc(acc) then []
    else
      [NormalizedMessage(ToStr(requestId) + "-assistant-" + NatToString(index), Assistant,
                         Str(Join(acc.textParts, "\n")), None,
                         NonEmpty(acc.attachments), NonEmpty(acc.edits), NonEmpty(acc.toolCalls), [])]
  }

  /** What `parseVSCodeResponse(items, requestId)` returns. */
  function ResponseSpec(items: seq<JValue>, requestId: Prop): JsResult<seq<NormalizedMessage>>
  {
    var acc :- Fold(Step, EmptyAcc, items);
    Ok(Flush(acc, requestId, |items|))
  }

  method ParseVSCodeResponse(items: seq<JValue>, requestId: Prop) returns (r: JsResult<seq<NormalizedMessage>>)
    ensures r == ResponseSpec(items, requestId)
  {
    var textParts: seq<string> := [];
    var currentEdits: seq<EditGroup> := [];
    var currentToolCalls: seq<ToolCallData> := [];
    var currentAttachments: seq<Attachment> := [];
    var i := 0;
    while i < |items|
      invariant 0 <= i <= |items|
      invariant Fold(Step, EmptyAcc, items[..i]) == Ok(Acc(textParts, currentEdits, currentToolCalls, currentAttachments))
    {
      FoldStep(Step, EmptyAcc, items, i);
      var item := items[i];
      var cls := ClassifyItem(item);
      if cls.Err? {
        FoldErrPrefix(Step, EmptyAcc, items, i + 1);
        return Err(cls.error);
      }
      match cls.value {
        case EditGroupItem =>
          var filePath := ExtractFilePath(Get(item, "uri"));
          var edits: seq<TextEdit> := [];
          var editsProp := Get(item, "edits");
          if Truthy(editsProp) && IsArray(editsProp) {
            var collected := CollectEdits(editsProp.value.items);
            if collected.Err? {
              FoldErrPrefix(Step, EmptyAcc, items, i + 1);
              return Err(collected.error);
            }
            edits := collected.value;
          }
          if |edits| > 0 {
            currentEdits := currentEdits + [EditGroup(filePath, edits)];
          }
        case CodeblockUriItem =>
          currentAttachments := currentAttachments + [CodeblockAttachment(item)];
        case InlineReferenceItem =>
          currentAttachments := currentAttachments + [InlineReferenceAttachment(item)];
        case ToolItem =>
          currentToolCalls := currentToolCalls + [ToolCallOf(item)];
        case UndoStopItem =>
        case TextItem =>
          textParts := textParts + [Get(item, "value").value.s];
        case DroppedItem =>
      }
      i := i + 1;
    }
    assert items[..i] == items;
    r := Ok(Flush(Acc(textParts, currentEdits, currentToolCalls, currentAttachments), requestId, |items|));
  }

  // ---------------------------------------------------------------------
  // Requests and the thread
  // ---------------------------------------------------------------------

  /** The messages of one request: its user message, then what its response yields. */
  function RequestMessages(request: JValue): JsResult<seq<NormalizedMessage>>
  {
    var user :- UserMessage(request);
    var response := Get(request, "response");
    if Truthy(response) && IsArray(response) then
      var assistant :- ResponseSpec(response.value.items, Get(request, "requestId"));
      Ok([user] + assistant)
    else Ok([user])
  }

  /** The body of `session.requests.forEach`: the user message, then the
    * messages of the response when it is an array. */
  method ParseRequest(request: JValue) returns (r: JsResult<seq<NormalizedMessage>>)
    ensures r == RequestMessages(request)
  {
    var user := UserMessage(request);
    if user.Err? {
      return Err(user.error);
    }
    var messages := [user.value];
    var response := Get(request, "response");
    if Truthy(response) && IsArray(response) {
      var responseMessages := ParseVSCodeResponse(response.value.items, Get(request, "requestId"));
      if responseMessages.Err? {
        return Err(responseMessages.error);
      }
      messages := messages + responseMessages.value;
    }
    r := Ok(messages);
  }

  /** Each request yields its user message with id `${requestId}-user`, then at
    * most one assistant message, whose id ends in `-assistant-${response.length}`. */
  lemma RequestMessagesShape(request: JValue)
    requires RequestMessages(request).Ok?
    ensures var ms := RequestMessages(request).value;
      1 <= |ms| <= 2
      && ms[0].role == User && ms[0].id == ToStr(Get(request, "requestId")) + "-user"
      && (|ms| == 2 ==>
            IsArray(Get(request, "response"))
            && ms[1].role == Assistant
            && ms[1].id == ToStr(Get(request, "requestId")) + "-assistant-" + NatToString(|Get(request, "response").value.items|))
  {
  }

  /** The assistant message is left out exactly when every accumulator ends empty. */
  lemma NoAssistantWhenEmpty(items: seq<JValue>, requestId: Prop)
    requires Fold(Step, EmptyAcc, items).Ok?
    ensures ResponseSpec(items, requestId) == Ok([]) <==> IsEmptyAcc(Fold(Step, EmptyAcc, items).value)
  {
  }

  function RequestStep(messages: seq<NormalizedMessage>, request: JValue): JsResult<seq<NormalizedMessage>>
  {
    var ms :- RequestMessages(request);
    Ok(messages + ms)
  }

  const NotAnObject := ThreadParseError("Invalid VSCode payload: not an object", Some("vscode"), None)
  const MissingRequests := ThreadParseError("Invalid VSCode payload: missing requests array", Some("vscode"), None)

  function ThreadOf(session: JValue, messages: seq<NormalizedMessage>): ParsedThread
  {
    ParsedThread(Get(session, "initialLocation"), Get(session, "initialLocation"),
                 Get(session, "requesterUsername"), Get(session, "responderUsername"), messages,
                 [Meta("version", Get(session, "version")),
                  Meta("requesterAvatarIconUri", Get(session, "requesterAvatarIconUri")),
                  Meta("responderAvatarIconUri", Get(session, "responderAvatarIconUri")),
                  Meta("initialLocation", Get(session, "initialLocation"))])
  }

  /** What `parseVSCode(payload)` returns or throws. */
  function ParseVSCodeSpec(payload: Prop): Result<ParsedThread, Thrown>
  {
    if !Truthy(payload) || !IsObjectType(payload) then Err(ParseFailure(NotAnObject))
    else
      var requests := Get(payload.value, "requests");
      if !Truthy(requests) || !IsArray(requests) then Err(ParseFailure(MissingRequests))
      else
        match Fold(RequestStep, [], requests.value.items)
        case Err(e) => Err(Native(e))
        case Ok(messages) => Ok(ThreadOf(payload.value, messages))
  }

  method ParseVSCode(payload: Prop) returns (r: Result<ParsedThread, Thrown>)
    ensures r == ParseVSCodeSpec(payload)
  {
    if !Truthy(payload) || !IsObjectType(payload) {
      return Err(ParseFailure(NotAnObject));
    }
    var session := payload.value;
    var requests := Get(session, "requests");
    if !Truthy(requests) || !IsArray(requests) {
      return Err(ParseFailure(MissingRequests));
    }
    var reqs := requests.value.items;
    var messages: seq<NormalizedMessage> := [];
    var i := 0;
    while i < |reqs|
      invariant 0 <= i <= |reqs|
      invariant Fold(RequestStep, [], reqs[..i]) == Ok(messages)
    {
      FoldStep(RequestStep, [], reqs, i);
      var ms := ParseRequest(reqs[i]);
      if ms.Err? {
        FoldErrPrefix(RequestStep, [], reqs, i + 1);
        return Err(Native(ms.error));
      }
      messages := messages + ms.value;
      i := i + 1;
    }
    assert reqs[..i] == reqs;
    r := Ok(ThreadOf(session, messages));
  }

  // ---------------------------------------------------------------------
  // Entry point
  // ---------------------------------------------------------------------

  const Undetected := ThreadParseError("Unable to detect thread format", None, None)

  function NotImplemented(f: ThreadFormat): ThreadParseError
  {
    match f
    case CustorFormat => ThreadParseError("Custor format not yet implemented", Some("custor"), None)
    case ClaudeFormat => ThreadParseError("Claude format not yet implemented", Some("claude"), None)
    case VSCodeFormat => ThreadParseError("Unsupported format: vscode", None, None)
  }

  /** The `catch` of `normalizeThread`: a ThreadParseError passes through and any
    * other exception is wrapped with the format and the original error. */
  function Rethrow(f: ThreadFormat, t: Thrown): Thrown
  {
    match t
    case ParseFailure(_) => t
    case Native(e) => ParseFailure(ThreadParseError("Failed to parse " + FormatName(f) + " format", Some(FormatName(f)), Some(e)))
  }

  function NormalizeSpec(payload: Prop): Result<ParsedThread, Thrown>
  {
    match DetectFormat(payload)
    case Err(e) => Err(Native(e))
    case Ok(None) => Err(ParseFailure(Undetected))
    case Ok(Some(f)) =>
      if f == VSCodeFormat then
        match ParseVSCodeSpec(payload)
        case Ok(t) => Ok(t)
        case Err(t) => Err(Rethrow(f, t))
      else Err(Rethrow(f, ParseFailure(NotImplemented(f))))
  }

  method NormalizeThread(payload: Prop) returns (r: Result<ParsedThread, Thrown>)
    ensures r == NormalizeSpec(payload)
  {
    var format := DetectFormat(payload);
    if format.Err? {
      return Err(Native(format.error));
    }
    if format.value.None? {
      return Err(ParseFailure(Undetected));
    }
    var f := format.value.value;
    match f {
      case VSCodeFormat =>
        var parsed := ParseVSCode(payload);
        if parsed.Err? {
          return Err(Rethrow(f, parsed.error));
        }
        r := parsed;
      case CustorFormat =>
        r := Err(Rethrow(f, ParseFailure(NotImplemented(f))));
      case ClaudeFormat =>
        r := Err(Rethrow(f, ParseFailure(NotImplemented(f))));
    }
  }

  /** The error taxonomy of `normalizeThread`: an undetected payload has no
    * format attached; Custor and Claude are "not yet implemented" under their
    * own format; a VS Code payload fails only with a language exception, which
    * is wrapped with the format and the original error. */
  lemma NormalizeErrors(payload: Prop)
    ensures DetectFormat(payload) == Ok(None) ==>
      NormalizeSpec(payload) == Err(ParseFailure(ThreadParseError("Unable to detect thread format", None, None)))
    ensures DetectFormat(payload) == Ok(Some(CustorFormat)) ==>
      NormalizeSpec(payload) == Err(ParseFailure(ThreadParseError("Custor format not yet implemented", Some("custor"), None)))
    ensures DetectFormat(payload) == Ok(Some(ClaudeFormat)) ==>
      NormalizeSpec(payload) == Err(ParseFailure(ThreadParseError("Claude format not yet implemented", Some("claude"), None)))
    ensures DetectFormat(payload) == Ok(Some(VSCodeFormat)) ==>
      match NormalizeSpec(payload)
      case Ok(t) => ParseVSCodeSpec(payload) == Ok(t)
      case Err(t) =>
        exists e :: ParseVSCodeSpec(payload) == Err(Native(e))
          && t == ParseFailure(ThreadParseError("Failed to parse vscode format", Some("vscode"), Some(e)))
  {
    if DetectFormat(payload) == Ok(Some(VSCodeFormat)) {
      var v := payload.value;
      assert VSCodeShape(v);
      assert Truthy(Get(v, "requests"));
      match ParseVSCodeSpec(payload)
      case Ok(_) =>
      case Err(t) => assert t.Native?;
    }
  }
}
