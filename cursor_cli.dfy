/**
 * The Cursor CLI adapter over already-read data: the sessions it lists
 * from chat files and from composer records, the route `parseSession`
 * takes, and the thread it rebuilds from a composer's bubbles (sorted by
 * creation date, one message per bubble, and statistics).
 */
module CursorSessions {
  import opened Js
  import opened Strings
  import opened Folds
  import opened StableSort
  import Paths

  // ----- Bubbles, as the global database stores them -----

  datatype TokenCount = TokenCount(inputTokens: Option<int>, outputTokens: Option<int>)

  /** A bubble's tool call; `params` and `result` are JSON text. */
  datatype ToolFormerData = ToolFormerData(
    tool: int,
    toolIndex: int,
    name: string,
    status: string,
    params: Option<string>,
    result: Option<string>,
    additionalData: Prop)

  /** One bubble of a composer: `kind` is its `type` (0 metadata, 1 user,
    * 2 assistant). */
  datatype Bubble = Bubble(
    kind: int,
    bubbleId: string,
    text: Option<string>,
    createdAt: string,
    toolFormerData: Option<ToolFormerData>,
    tokenCount: Option<TokenCount>,
    codeBlocks: Option<seq<JValue>>,
    attachedCodeChunks: Option<seq<JValue>>,
    relevantFiles: Option<seq<JValue>>)

  datatype ToolCall = ToolCall(
    tool: string,
    toolId: int,
    toolIndex: int,
    status: string,
    params: JValue,
    result: JValue,
    additionalData: Prop)

  /** A rebuilt message; an optional part is `None` when it is not set. */
  datatype CursorMessage = CursorMessage(
    kind: int,
    bubbleId: string,
    text: string,
    createdAt: string,
    tokenCount: Option<TokenCount>,
    toolCall: Option<ToolCall>,
    codeBlocks: Option<seq<JValue>>,
    attachedCodeChunks: Option<seq<JValue>>,
    relevantFiles: Option<seq<JValue>>)

  /** `safeJsonParse`: `null` for absent or empty text, the parsed value
    * when the text is JSON, the text itself otherwise. */
  function SafeJsonParse(parse: Parser, text: Option<string>): (r: JValue)
    ensures text.None? || text.value == "" ==> r == JNull
    ensures text.Some? && text.value != "" && parse(text.value).Some? ==> r == parse(text.value).value
    ensures text.Some? && text.value != "" && parse(text.value).None? ==> r == JStr(text.value)
  {
    if text.None? || text.value == "" then JNull
    else
      match parse(text.value)
      case Some(v) => v
      case None => JStr(text.value)
  }

  /** `xs?.length` is truthy: copied only when non-empty. */
  function NonEmpty(xs: Option<seq<JValue>>): (r: Option<seq<JValue>>)
    ensures r.Some? <==> xs.Some? && |xs.value| > 0
    ensures r.Some? ==> r == xs
  {
    if xs.Some? && |xs.value| > 0 then xs else None
  }

  function ToolCallOf(parse: Parser, d: ToolFormerData): ToolCall
  {
    ToolCall(d.name, d.tool, d.toolIndex, d.status, SafeJsonParse(parse, d.params), SafeJsonParse(parse, d.result), d.additionalData)
  }

  /** The message rebuilt from one bubble. */
  function MessageOf(parse: Parser, b: Bubble): (r: CursorMessage)
    ensures r.kind == b.kind && r.bubbleId == b.bubbleId && r.createdAt == b.createdAt && r.tokenCount == b.tokenCount
    ensures r.text == if b.text.Some? then b.text.value else ""
    ensures r.toolCall.Some? <==> b.toolFormerData.Some?
    ensures r.toolCall.Some? ==>
      r.toolCall.value.tool == b.toolFormerData.value.name &&
      r.toolCall.value.toolId == b.toolFormerData.value.tool &&
      r.toolCall.value.params == SafeJsonParse(parse, b.toolFormerData.value.params) &&
      r.toolCall.value.result == SafeJsonParse(parse, b.toolFormerData.value.result)
    ensures r.codeBlocks.Some? <==> b.codeBlocks.Some? && |b.codeBlocks.value| > 0
    ensures r.attachedCodeChunks.Some? <==> b.attachedCodeChunks.Some? && |b.attachedCodeChunks.value| > 0
    ensures r.relevantFiles.Some? <==> b.relevantFiles.Some? && |b.relevantFiles.value| > 0
  {
    CursorMessage(
      b.kind,
      b.bubbleId,
      if b.text.Some? && b.text.value != "" then b.text.value else "",
      b.createdAt,
      b.tokenCount,
      if b.toolFormerData.Some? then Some(ToolCallOf(parse, b.toolFormerData.value)) else None,
      NonEmpty(b.codeBlocks),
      NonEmpty(b.attachedCodeChunks),
      NonEmpty(b.relevantFiles))
  }

  /** `bubbles.map(...)`: one message per bubble, in order. */
  function MessagesOf(parse: Parser, bs: seq<Bubble>): (r: seq<CursorMessage>)
    ensures |r| == |bs|
    ensures forall i :: 0 <= i < |bs| ==> r[i] == MessageOf(parse, bs[i])
  {
    if |bs| == 0 then [] else [MessageOf(parse, bs[0])] + MessagesOf(parse, bs[1..])
  }

  // ----- Statistics -----

  datatype Statistics = Statistics(
    totalBubbles: int,
    userMessages: int,
    assistantMessages: int,
    metadataMessages: int,
    totalTokens: int,
    bubblesWithToolCalls: int)

  /** The sum of `f` over the bubbles. */
  function SumOf(f: Bubble -> int, bs: seq<Bubble>): int
    decreases |bs|
  {
    if |bs| == 0 then 0 else SumOf(f, bs[..|bs| - 1]) + f(bs[|bs| - 1])
  }

  function OfKind(k: int): Bubble -> int
  {
    (b: Bubble) => if b.kind == k then 1 else 0
  }

  function OrZero(n: Option<int>): int
  {
    if n.Some? then n.value else 0
  }

  /** A bubble's tokens, a missing count taken as 0. */
  function TokensOf(b: Bubble): int
  {
    if b.tokenCount.None? then 0 else OrZero(b.tokenCount.value.inputTokens) + OrZero(b.tokenCount.value.outputTokens)
  }

  function HasTool(b: Bubble): int
  {
    if b.toolFormerData.Some? then 1 else 0
  }

  function StatisticsOf(bs: seq<Bubble>): Statistics
  {
    Statistics(|bs|, SumOf(OfKind(1), bs), SumOf(OfKind(2), bs), SumOf(OfKind(0), bs), SumOf(TokensOf, bs), SumOf(HasTool, bs))
  }

  /** Counting is additive over concatenation. */
  lemma {:induction false} SumAppend(f: Bubble -> int, xs: seq<Bubble>, ys: seq<Bubble>)
    ensures SumOf(f, xs + ys) == SumOf(f, xs) + SumOf(f, ys)
    decreases |ys|
  {
    if |ys| == 0 {
      assert xs + ys == xs;
    } else {
      var zs := xs + ys;
      assert zs[..|zs| - 1] == xs + ys[..|ys| - 1];
      SumAppend(f, xs, ys[..|ys| - 1]);
    }
  }

  /** The three type counts add up to the number of bubbles when every
    * bubble has one of the three types. */
  lemma {:induction false} KindsPartition(bs: seq<Bubble>)
    requires forall i :: 0 <= i < |bs| ==> bs[i].kind in {0, 1, 2}
    ensures var s := StatisticsOf(bs); s.userMessages + s.assistantMessages + s.metadataMessages == s.totalBubbles
    decreases |bs|
  {
    if |bs| > 0 {
      var n := |bs| - 1;
      forall i | 0 <= i < n ensures bs[..n][i].kind in {0, 1, 2} {
        assert bs[..n][i] == bs[i];
      }
      KindsPartition(bs[..n]);
    }
  }

  /** Inserting a bubble adds its count. */
  lemma {:induction false} SumInsert(f: Bubble -> int, key: Bubble -> int, s: seq<Bubble>, x: Bubble)
    ensures SumOf(f, Insert(key, s, x)) == SumOf(f, s) + f(x)
    decreases |s|
  {
    if |s| == 0 || key(s[|s| - 1]) <= key(x) {
      var r := s + [x];
      assert r[..|r| - 1] == s;
    } else {
      var n := |s| - 1;
      var r := Insert(key, s[..n], x) + [s[n]];
      assert r[..|r| - 1] == Insert(key, s[..n], x);
      SumInsert(f, key, s[..n], x);
    }
  }

  /** Sorting changes no sum. */
  lemma {:induction false} SumSorted(f: Bubble -> int, key: Bubble -> int, bs: seq<Bubble>)
    ensures SumOf(f, SortByKey(key, bs)) == SumOf(f, bs)
    decreases |bs|
  {
    if |bs| > 0 {
      var n := |bs| - 1;
      SumSorted(f, key, bs[..n]);
      SumInsert(f, key, SortByKey(key, bs[..n]), bs[n]);
    }
  }

  /** The statistics do not depend on the order of the bubbles. */
  lemma StatisticsOfSorted(key: Bubble -> int, bs: seq<Bubble>)
    ensures StatisticsOf(SortByKey(key, bs)) == StatisticsOf(bs)
  {
    SumSorted(OfKind(1), key, bs);
    SumSorted(OfKind(2), key, bs);
    SumSorted(OfKind(0), key, bs);
    SumSorted(TokensOf, key, bs);
    SumSorted(HasTool, key, bs);
  }

  // ----- Listing -----

  /** The workspace a storage directory belongs to. */
  datatype Workspace = Workspace(name: Option<string>, path: Option<string>)

  /** `folderUri.replace(/^file:\/\//, "")` */
  function StripFileScheme(uri: string): (r: string)
    ensures StartsWith(uri, "file://") ==> uri == "file://" + r
    ensures !StartsWith(uri, "file://") ==> r == uri
  {
    if StartsWith(uri, "file://") then uri[7..] else uri
  }

  /** The workspace named by `workspace.json` (`None` when it is missing or
    * not JSON): a `folder` string without its "file://" scheme, and its
    * base name. Anything that throws leaves both unset. */
  function WorkspaceOf(workspaceJson: Option<JValue>): (r: Workspace)
    ensures r.path.Some? <==> workspaceJson.Some? && Truthy(Get(workspaceJson.value, "folder")) && Get(workspaceJson.value, "folder").value.JStr?
    ensures r.path.Some? ==> r.path.value == StripFileScheme(Get(workspaceJson.value, "folder").value.s) && r.name == Some(Paths.Basename(r.path.value))
    ensures r.path.None? ==> r.name.None?
  {
    if workspaceJson.None? || workspaceJson.value.JNull? then Workspace(None, None)
    else
      var folder := Get(workspaceJson.value, "folder");
      if !Truthy(folder) || !folder.value.JStr? then Workspace(None, None)
      else
        var folderPath := StripFileScheme(folder.value.s);
        Workspace(Some(Paths.Basename(folderPath)), Some(folderPath))
  }

  datatype SessionMeta = ChatMeta | ComposerMeta(workspaceId: string, contextUsagePercent: Prop, filesChangedCount: Prop)

  /** A listed session. */
  datatype CursorSession = CursorSession(
    sessionId: Prop,
    creationDate: Prop,
    lastMessageDate: Prop,
    customTitle: Prop,
    requestCount: JValue,
    filePath: string,
    source: string,
    workspaceName: Option<string>,
    workspacePath: Option<string>,
    metadata: SessionMeta)

  /** A file of a `chatSessions` directory, already read. */
  datatype SessionFile = SessionFile(name: string, path: string, content: string)

  /** `p?.length`: arrays and strings have one, an object may hold one. */
  function OptLength(p: Prop): Prop
  {
    if Nullish(p) then None
    else
      match p.value
      case JArr(items) => Some(JNum(|items|))
      case JStr(s) => Some(JNum(|s|))
      case JObj(fields) => Lookup(fields, "length")
      case _ => None
  }

  /** `session.requests?.length || 0` */
  function RequestCount(data: JValue): (r: JValue)
    ensures IsArray(Get(data, "requests")) ==> r == JNum(|Get(data, "requests").value.items|)
    ensures Nullish(Get(data, "requests")) ==> r == JNum(0)
  {
    Or(OptLength(Get(data, "requests")), Some(JNum(0))).value
  }

  /** The session of one chat file: only ".json" files that parse, whose
    * request count is not 0. */
  function ChatFileSession(parse: Parser, ws: Workspace, f: SessionFile): (r: Option<CursorSession>)
    ensures r.Some? ==> EndsWith(f.name, ".json") && r.value.requestCount != JNum(0) && r.value.metadata == ChatMeta
  {
    if !EndsWith(f.name, ".json") then None
    else
      match parse(f.content)
      case None => None
      case Some(data) =>
        if data.JNull? then None
        else
          var requestCount := RequestCount(data);
          if requestCount == JNum(0) then None
          else Some(CursorSession(
            Get(data, "sessionId"), Get(data, "creationDate"), Get(data, "lastMessageDate"), Get(data, "customTitle"),
            requestCount, f.path, "cursor", ws.name, ws.path, ChatMeta))
  }

  function ChatSessions(parse: Parser, ws: Workspace, files: seq<SessionFile>): seq<CursorSession>
  {
    Choose((f: SessionFile) => ChatFileSession(parse, ws, f), files)
  }

  /** `findChatSessions` over the directory's files. */
  method FindChatSessions(parse: Parser, ws: Workspace, files: seq<SessionFile>) returns (sessions: seq<CursorSession>)
    ensures sessions == ChatSessions(parse, ws, files)
  {
    sessions := [];
    var i := 0;
    while i < |files|
      invariant 0 <= i <= |files|
      invariant sessions == ChatSessions(parse, ws, files[..i])
    {
      ChooseStep((f: SessionFile) => ChatFileSession(parse, ws, f), files, i);
      var chatFile := files[i];
      i := i + 1;
      if EndsWith(chatFile.name, ".json") {
        var session := parse(chatFile.content);
        if session.None? || session.value.JNull? {
          continue;
        }
        var requestCount := RequestCount(session.value);
        if requestCount == JNum(0) {
          continue;
        }
        sessions := sessions + [CursorSession(
          Get(session.value, "sessionId"), Get(session.value, "creationDate"), Get(session.value, "lastMessageDate"),
          Get(session.value, "customTitle"), requestCount, chatFile.path, "cursor", ws.name, ws.path, ChatMeta)];
      }
    }
    assert files[..i] == files;
  }

  /** `for (const c of v)`: arrays yield their elements, strings their
    * characters; anything else throws. */
  function Iterate(v: JValue): (r: JsResult<seq<JValue>>)
    ensures v.JArr? ==> r == Ok(v.items)
    ensures !v.JArr? && !v.JStr? ==> r.Err?
  {
    match v
    case JArr(items) => Ok(items)
    case JStr(s) => Ok(Chars(s))
    case _ => Err(TypeError)
  }

  function Chars(s: string): (r: seq<JValue>)
    ensures |r| == |s|
    ensures forall i :: 0 <= i < |s| ==> r[i] == JStr([s[i]])
  {
    if |s| == 0 then [] else [JStr([s[0]])] + Chars(s[1..])
  }

  /** The session of one composer, given the bubble count the global
    * database reports for its id; composers without bubbles are skipped. */
  function ComposerSession(count: string -> int, globalDbPath: string, workspaceId: string, ws: Workspace, composer: JValue)
    : (r: Option<CursorSession>)
    ensures r.Some? ==> r.value.requestCount != JNum(0) && r.value.metadata.ComposerMeta? && r.value.filePath == globalDbPath
  {
    if composer.JNull? then None
    else
      var bubbleCount := count(ToStr(Get(composer, "composerId")));
      if bubbleCount == 0 then None
      else Some(CursorSession(
        Get(composer, "composerId"), Get(composer, "createdAt"), Get(composer, "lastUpdatedAt"), Get(composer, "name"),
        JNum(bubbleCount), globalDbPath, "cursor", ws.name, ws.path,
        ComposerMeta(workspaceId, Get(composer, "contextUsagePercent"), Get(composer, "filesChangedCount"))))
  }

  /** The composers listed in the workspace's `composer.composerData` record
    * (`None` when the record is missing or not JSON), or none when the
    * record or the global database cannot be read. */
  function ComposerList(composerData: Option<JValue>, globalDbPath: Option<string>): (r: seq<JValue>)
    ensures composerData.None? || globalDbPath.None? ==> r == []
  {
    if composerData.None? || composerData.value.JNull? || globalDbPath.None? then []
    else
      var all := Or(Get(composerData.value, "allComposers"), Some(JArr([])));
      match Iterate(all.value)
      case Ok(items) => items
      case Err(_) => []
  }

  function ComposerSessions(count: string -> int, globalDbPath: Option<string>, workspaceId: string, ws: Workspace, composerData: Option<JValue>)
    : seq<CursorSession>
  {
    if globalDbPath.None? then []
    else Choose((c: JValue) => ComposerSession(count, globalDbPath.value, workspaceId, ws, c), ComposerList(composerData, globalDbPath))
  }

  /** `findComposerSessions` over the composer list. */
  method FindComposerSessions(count: string -> int, globalDbPath: Option<string>, workspaceId: string, ws: Workspace, composerData: Option<JValue>)
    returns (sessions: seq<CursorSession>)
    ensures sessions == ComposerSessions(count, globalDbPath, workspaceId, ws, composerData)
  {
    sessions := [];
    var allComposers := ComposerList(composerData, globalDbPath);
    if globalDbPath.None? {
      return;
    }
    var dbPath := globalDbPath.value;
    var i := 0;
    while i < |allComposers|
      invariant 0 <= i <= |allComposers|
      invariant sessions == Choose((c: JValue) => ComposerSession(count, dbPath, workspaceId, ws, c), allComposers[..i])
    {
      ChooseStep((c: JValue) => ComposerSession(count, dbPath, workspaceId, ws, c), allComposers, i);
      var composer := allComposers[i];
      i := i + 1;
      if composer.JNull? {
        continue;
      }
      var bubbleCount := count(ToStr(Get(composer, "composerId")));
      if bubbleCount == 0 {
        continue;
      }
      sessions := sessions + [CursorSession(
        Get(composer, "composerId"), Get(composer, "createdAt"), Get(composer, "lastUpdatedAt"), Get(composer, "name"),
        JNum(bubbleCount), dbPath, "cursor", ws.name, ws.path,
        ComposerMeta(workspaceId, Get(composer, "contextUsagePercent"), Get(composer, "filesChangedCount")))];
    }
    assert allComposers[..i] == allComposers;
  }

  /** No listed session has a request count of 0. */
  lemma ListedNonEmpty(parse: Parser, count: string -> int, globalDbPath: Option<string>, workspaceId: string, ws: Workspace,
                       files: seq<SessionFile>, composerData: Option<JValue>, s: CursorSession)
    requires s in ChatSessions(parse, ws, files) + ComposerSessions(count, globalDbPath, workspaceId, ws, composerData)
    ensures s.requestCount != JNum(0)
    ensures SessionRoute(SessionType(s.metadata)).Ok?
  {
    if s in ChatSessions(parse, ws, files) {
      ChooseMember((f: SessionFile) => ChatFileSession(parse, ws, f), files, s);
    } else {
      ChooseMember((c: JValue) => ComposerSession(count, globalDbPath.value, workspaceId, ws, c), ComposerList(composerData, globalDbPath), s);
    }
  }

  // ----- parseSession -----

  /** `session.metadata?.sessionType` of a listed session. */
  function SessionType(m: SessionMeta): Prop
  {
    if m.ChatMeta? then Str("chat") else Str("composer")
  }

  datatype Route = ReadChatFile | RebuildComposer

  /** What `parseSession` does for a session type: read the chat file,
    * rebuild the composer, or throw. */
  function SessionRoute(sessionType: Prop): (r: Result<Route, string>)
    ensures r == Ok(ReadChatFile) <==> sessionType == Str("chat")
    ensures r == Ok(RebuildComposer) <==> sessionType == Str("composer")
    ensures r.Err? ==> r.error == "Unknown session type: " + ToStr(sessionType)
  {
    if StrictEquals(sessionType, Str("chat")) then Ok(ReadChatFile)
    else if StrictEquals(sessionType, Str("composer")) then Ok(RebuildComposer)
    else Err("Unknown session type: " + ToStr(sessionType))
  }

  datatype ComposerMetadata = ComposerMetadata(
    name: Prop,
    createdAt: Prop,
    lastUpdatedAt: Prop,
    contextUsagePercent: Prop,
    filesChangedCount: Prop,
    workspaceName: Option<string>,
    workspacePath: Option<string>)

  datatype ComposerThread = ComposerThread(
    composerId: Prop,
    metadata: ComposerMetadata,
    messages: seq<CursorMessage>,
    statistics: Statistics)

  function MetadataOf(s: CursorSession): ComposerMetadata
  {
    var percent := if s.metadata.ComposerMeta? then s.metadata.contextUsagePercent else None;
    var changed := if s.metadata.ComposerMeta? then s.metadata.filesChangedCount else None;
    ComposerMetadata(s.customTitle, s.creationDate, s.lastMessageDate, percent, changed, s.workspaceName, s.workspacePath)
  }

  /** The rebuilt composer thread: the bubbles sorted by `key` (their
    * creation time), one message per bubble and the statistics. */
  function ComposerView(parse: Parser, key: Bubble -> int, s: CursorSession, bubbles: seq<Bubble>): ComposerThread
  {
    var sorted := SortByKey(key, bubbles);
    ComposerThread(s.sessionId, MetadataOf(s), MessagesOf(parse, sorted), StatisticsOf(sorted))
  }

  /** `parseComposerSession` once the bubbles are read: sort in place, then
    * rebuild. */
  method ParseComposerSession(parse: Parser, key: Bubble -> int, session: CursorSession, rows: seq<Bubble>)
    returns (r: ComposerThread)
    ensures r == ComposerView(parse, key, session, rows)
  {
    var bubbles := new Bubble[|rows|](i requires 0 <= i < |rows| => rows[i]);
    assert bubbles[..] == rows;
    SortInPlace(key, bubbles);
    var messages := MessagesOf(parse, bubbles[..]);
    var statistics := StatisticsOf(bubbles[..]);
    r := ComposerThread(session.sessionId, MetadataOf(session), messages, statistics);
  }

  /** The rebuilt thread has one message per bubble, in creation order
    * (bubbles created at the same time keep their order), and statistics
    * over all the bubbles. */
  lemma ComposerViewSpec(parse: Parser, key: Bubble -> int, s: CursorSession, bubbles: seq<Bubble>)
    ensures var t := ComposerView(parse, key, s, bubbles);
      var sorted := SortByKey(key, bubbles);
      |t.messages| == |bubbles| &&
      multiset(sorted) == multiset(bubbles) &&
      (forall i :: 0 <= i < |sorted| ==> t.messages[i] == MessageOf(parse, sorted[i])) &&
      (forall i, j :: 0 <= i < j < |sorted| ==> key(sorted[i]) <= key(sorted[j])) &&
      (forall k :: WithKey(key, sorted, k) == WithKey(key, bubbles, k)) &&
      t.statistics == StatisticsOf(bubbles)
  {
    SortPermutes(key, bubbles);
    SortSorted(key, bubbles);
    forall k ensures WithKey(key, SortByKey(key, bubbles), k) == WithKey(key, bubbles, k) {
      SortStable(key, bubbles, k);
    }
    StatisticsOfSorted(key, bubbles);
  }
}
