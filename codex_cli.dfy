/**
 * The Codex CLI adapter's pure part: reading a rollout file (one JSON record
 * per line), recognising the user messages among its records, and summing
 * the records up into a session listing entry. Reading files, walking the
 * sessions directory, `Date` parsing and `Date.now()` are parameters.
 */
module CodexSessions {
  import opened Strings
  import opened Js
  import opened Folds
  import opened Paths

  const EnvironmentContext := "<environment_context>"

  // ---------------------------------------------------------------------------
  // JSONL records
  // ---------------------------------------------------------------------------

  /** A line becomes a record when it is not blank, parses, and is not `null`. */
  function LineRecord(parse: Parser, line: string): (r: Option<JValue>)
    ensures r.Some? <==> Trim(line) != "" && parse(line).Some? && !parse(line).value.JNull?
    ensures r.Some? ==> r == parse(line)
  {
    if Trim(line) == "" then None
    else match parse(line)
      case None => None
      case Some(v) => if v.JNull? then None else Some(v)
  }

  /** `LineRecord` as the function the line filter applies. */
  function RecordOf(parse: Parser): string -> Option<JValue>
  {
    (l: string) => LineRecord(parse, l)
  }

  /** `parseJSONL(content)`: the records of the file's lines, in line order. */
  function ParseJSONL(content: string, parse: Parser): seq<JValue>
  {
    Choose(RecordOf(parse), Split(content, '\n'))
  }

  /** A record comes from some non-blank line that parses to it and is not `null`. */
  lemma ParseJSONLRecords(content: string, parse: Parser, v: JValue)
    ensures v in ParseJSONL(content, parse) <==>
      exists l :: l in Split(content, '\n') && Trim(l) != "" && parse(l) == Some(v) && !v.JNull?
  {
    RecordsOfLines(parse, Split(content, '\n'), v);
  }

  lemma RecordsOfLines(parse: Parser, ls: seq<string>, v: JValue)
    ensures v in Choose(RecordOf(parse), ls) <==>
      exists l :: l in ls && Trim(l) != "" && parse(l) == Some(v) && !v.JNull?
  {
    ChooseMember(RecordOf(parse), ls, v);
    if v in Choose(RecordOf(parse), ls) {
      var i :| 0 <= i < |ls| && RecordOf(parse)(ls[i]) == Some(v);
      RecordOfSome(parse, ls[i], v);
      assert ls[i] in ls;
    }
    if exists l :: l in ls && Trim(l) != "" && parse(l) == Some(v) && !v.JNull? {
      var l :| l in ls && Trim(l) != "" && parse(l) == Some(v) && !v.JNull?;
      var i :| 0 <= i < |ls| && ls[i] == l;
      RecordOfSome(parse, l, v);
    }
  }

  lemma RecordOfSome(parse: Parser, l: string, v: JValue)
    ensures RecordOf(parse)(l) == Some(v) <==> Trim(l) != "" && parse(l) == Some(v) && !v.JNull?
  {
  }

  /** Lines are independent: the records of two joined chunks are those of
    * the first followed by those of the second. */
  lemma ParseJSONLAppend(a: string, b: string, parse: Parser)
    ensures ParseJSONL(a + "\n" + b, parse) == ParseJSONL(a, parse) + ParseJSONL(b, parse)
  {
    SplitAppend(a, b, '\n');
    ChooseAppend(RecordOf(parse), Split(a, '\n'), Split(b, '\n'));
  }

  // ---------------------------------------------------------------------------
  // User previews
  // ---------------------------------------------------------------------------

  /** What `normalizePreview` returns: non-empty text trimmed at both ends
    * that is not an environment-context block. */
  predicate IsPreview(t: string)
  {
    t != "" && !IsSpace(t[0]) && !IsSpace(t[|t| - 1]) && !StartsWith(t, EnvironmentContext)
  }

  /** `normalizePreview(value)` */
  function NormalizePreview(value: Prop): (r: Option<string>)
    ensures r.Some? ==> IsPreview(r.value)
    ensures r.Some? <==> IsString(value) && IsPreview(Trim(value.value.s))
    ensures r.Some? ==> r.value == Trim(value.value.s)
  {
    if !IsString(value) then None
    else
      var trimmed := Trim(value.value.s);
      if trimmed == "" || StartsWith(trimmed, EnvironmentContext) then None else Some(trimmed)
  }

  /** A preview is its own preview, so normalising is idempotent. */
  lemma PreviewFixpoint(t: string)
    requires IsPreview(t)
    ensures NormalizePreview(Str(t)) == Some(t)
  {
    TrimOfTrimmed(t);
  }

  /** A property value is structurally smaller than the object holding it. */
  lemma GetSmaller(v: JValue, key: string)
    requires Get(v, key).Some?
    ensures Get(v, key).value < v
  {
    var fields := v.fields;
    LookupFound(fields, key);
    var i :| 0 <= i < |fields| && fields[i].key == key && fields[i].value == Get(v, key).value;
    assert fields[i] in fields;
  }

  lemma CoalesceSmaller(item: JValue)
    requires Coalesce(Get(item, "text"), Get(item, "content")).Some?
    ensures Coalesce(Get(item, "text"), Get(item, "content")).value < item
  {
    if Get(item, "text").Some? { GetSmaller(item, "text"); }
    if Get(item, "content").Some? { GetSmaller(item, "content"); }
  }

  /** `extractTextFromContent(content)` for a value. */
  function ContentText(content: JValue): (r: Option<string>)
    ensures r.Some? ==> IsPreview(r.value)
    decreases content, 1
  {
    if !Truthy(Some(content)) then None
    else match content
      case JStr(_) => NormalizePreview(Some(content))
      case JArr(items) => ItemsText(items, 0)
      case JObj(fields) =>
        var text := Get(content, "text");
        var message := Get(content, "message");
        var inner := Get(content, "content");
        if IsString(text) then NormalizePreview(text)
        else if IsString(message) then NormalizePreview(message)
        else if IsArray(inner) then GetSmaller(content, "content"); ContentText(inner.value)
        else None
      case _ => None
  }

  /** The first preview among `items[i..]`. */
  function ItemsText(items: seq<JValue>, i: nat): (r: Option<string>)
    ensures r.Some? ==> IsPreview(r.value)
    decreases JArr(items), 0, |items| - i
  {
    if i >= |items| then None
    else
      var p := ItemText(items[i]);
      if p.Some? then p else ItemsText(items, i + 1)
  }

  /** One array element: a string directly, an object through `text ?? content`. */
  function ItemText(item: JValue): (r: Option<string>)
    ensures r.Some? ==> IsPreview(r.value)
    decreases item, 2
  {
    if item.JStr? then NormalizePreview(Some(item))
    else if Truthy(Some(item)) && IsObjectType(Some(item)) then
      var c := Coalesce(Get(item, "text"), Get(item, "content"));
      if c.None? then None
      else
        CoalesceSmaller(item);
        ContentText(c.value)
    else None
  }

  /** `extractTextFromContent(content)`, where `undefined` yields nothing. */
  function TextOf(content: Prop): (r: Option<string>)
    ensures r.Some? ==> IsPreview(r.value)
  {
    if content.None? then None else ContentText(content.value)
  }

  /** The preview of each element, and none past the end. */
  function ItemAt(items: seq<JValue>): nat -> Option<string>
  {
    (j: nat) => if j < |items| then ItemText(items[j]) else None
  }

  /** The scan over an array's elements is the leftmost search for an
    * element with a preview. */
  lemma {:induction false} ItemsTextScan(items: seq<JValue>, i: nat)
    requires i <= |items|
    ensures ItemsText(items, i) == Leftmost(ItemAt(items), i, |items|)
    decreases |items| - i
  {
    if i < |items| {
      ItemsTextScan(items, i + 1);
    }
  }

  /** An array yields the preview of its first element that has one. */
  lemma ItemsTextFirst(items: seq<JValue>, k: nat)
    requires k < |items| && ItemText(items[k]).Some?
    requires forall j :: 0 <= j < k ==> ItemText(items[j]).None?
    ensures ContentText(JArr(items)) == ItemText(items[k])
  {
    var m := ItemAt(items);
    assert forall j: nat :: j < |items| ==> m(j) == ItemText(items[j]);
    ItemsTextScan(items, 0);
    LeftmostAt(m, k, 0, |items|);
  }

  /** An array none of whose elements has a preview yields nothing. */
  lemma {:induction false} ItemsTextNone(items: seq<JValue>, i: nat)
    requires forall j :: i <= j < |items| ==> ItemText(items[j]).None?
    ensures ItemsText(items, i).None?
    decreases |items| - i
  {
    if i < |items| {
      ItemsTextNone(items, i + 1);
    }
  }

  /** The recursive, early-returning scan of `extractTextFromContent`. */
  method ExtractTextFromContent(content: JValue) returns (r: Option<string>)
    ensures r == ContentText(content)
    decreases content
  {
    if !Truthy(Some(content)) {
      return None;
    }
    if content.JStr? {
      return NormalizePreview(Some(content));
    }
    if content.JArr? {
      var items := content.items;
      var i := 0;
      while i < |items|
        invariant 0 <= i <= |items|
        invariant ItemsText(items, i) == ContentText(content)
      {
        var item := items[i];
        if item.JStr? {
          var preview := NormalizePreview(Some(item));
          if preview.Some? {
            return preview;
          }
        } else if Truthy(Some(item)) && IsObjectType(Some(item)) {
          var c := Coalesce(Get(item, "text"), Get(item, "content"));
          var preview := None;
          if c.Some? {
            CoalesceSmaller(item);
            preview := ExtractTextFromContent(c.value);
          }
          if preview.Some? {
            return preview;
          }
        }
        i := i + 1;
      }
      return None;
    }
    if content.JObj? {
      var text := Get(content, "text");
      if IsString(text) {
        return NormalizePreview(text);
      }
      var message := Get(content, "message");
      if IsString(message) {
        return NormalizePreview(message);
      }
      var inner := Get(content, "content");
      if IsArray(inner) {
        GetSmaller(content, "content");
        r := ExtractTextFromContent(inner.value);
        return;
      }
    }
    return None;
  }

  /** `extractUserMessage(entry)`: the preview of a user record, for the four
    * record shapes the CLI versions write. */
  function UserMessage(entry: JValue): (r: Option<string>)
    ensures r.Some? ==> IsPreview(r.value)
  {
    if !Truthy(Some(entry)) then None
    else
      var kind := Get(entry, "type");
      var payload := Get(entry, "payload");
      if IsStr(kind, "event_msg") && IsStr(OptGet(payload, "type"), "user_message")
         && OptGet(payload, "kind") != Str("environment_context") then
        NormalizePreview(OptGet(payload, "message"))
      else if IsStr(kind, "response_item") && IsStr(OptGet(payload, "type"), "message")
              && IsStr(OptGet(payload, "role"), "user") then
        TextOf(OptGet(payload, "content"))
      else if IsStr(kind, "message") && IsStr(Get(entry, "role"), "user") then
        TextOf(Get(entry, "content"))
      else if IsStr(kind, "user") then
        var message := Get(entry, "message");
        if IsString(message) then NormalizePreview(message)
        else if Truthy(OptGet(message, "content")) then TextOf(OptGet(message, "content"))
        else None
      else None
  }

  /** An `event_msg` record flagged as environment context is never a user message. */
  lemma EnvironmentEventIgnored(entry: JValue)
    requires IsStr(Get(entry, "type"), "event_msg")
    requires OptGet(Get(entry, "payload"), "kind") == Str("environment_context")
    ensures UserMessage(entry).None?
  {
  }

  /** Records of other types are never user messages. */
  lemma OtherRecordsIgnored(entry: JValue)
    requires forall t :: t in ["event_msg", "response_item", "message", "user"] ==> !IsStr(Get(entry, "type"), t)
    ensures UserMessage(entry).None?
  {
    assert !IsStr(Get(entry, "type"), "event_msg") && !IsStr(Get(entry, "type"), "response_item");
    assert !IsStr(Get(entry, "type"), "message") && !IsStr(Get(entry, "type"), "user");
  }

  /** `extractTimestamp(entry)`: the first truthy of the four timestamp
    * places, converted by `toTime` (`new Date(raw).getTime()`, `None` for NaN). */
  function Timestamp(entry: JValue, toTime: JValue -> Option<int>): (r: Option<int>)
    ensures (!Truthy(Get(entry, "timestamp")) && !Truthy(OptGet(Get(entry, "payload"), "timestamp"))
             && !Truthy(Get(entry, "ts")) && !Truthy(OptGet(Get(entry, "message"), "timestamp"))) ==> r.None?
    ensures Truthy(Get(entry, "timestamp")) ==> r == toTime(Get(entry, "timestamp").value)
  {
    var raw := Or(Or(Or(Get(entry, "timestamp"), OptGet(Get(entry, "payload"), "timestamp")), Get(entry, "ts")),
                  OptGet(Get(entry, "message"), "timestamp"));
    if !Truthy(raw) then None else toTime(raw.value)
  }

  // ---------------------------------------------------------------------------
  // The session summary
  // ---------------------------------------------------------------------------

  /** The `codex` metadata kept from `session_meta` records. */
  datatype CodexMeta = CodexMeta(git: Prop, cliVersion: Prop, originator: Prop)

  /** The listing entry `createSessionFromEntries` returns. */
  datatype CodexSession = CodexSession(
    sessionId: JValue,
    creationDate: int,
    lastMessageDate: int,
    customTitle: string,
    requestCount: nat,
    filePath: string,
    source: string,
    workspaceName: Option<string>,
    workspacePath: Option<string>,
    metadata: Option<CodexMeta>)

  /** The loop's variables. `earliest == None` is `Number.POSITIVE_INFINITY`.
    * The string variables are only ever set to non-empty text, so "falsy"
    * and "unset" coincide for them. */
  datatype Scan = Scan(
    sessionId: Prop,
    workspacePath: Option<string>,
    workspaceName: Option<string>,
    firstUserMessage: Option<string>,
    messageCount: nat,
    earliest: Option<int>,
    latest: int,
    meta: Option<CodexMeta>)

  const Start := Scan(None, None, None, None, 0, None, 0, None)

  /** The id a record offers: a `session_meta` payload id, else its own id. */
  function IdOf(entry: JValue): (r: Prop)
    ensures r.Some? ==> Truthy(r)
  {
    var payloadId := OptGet(Get(entry, "payload"), "id");
    if IsStr(Get(entry, "type"), "session_meta") && Truthy(payloadId) then payloadId
    else if Truthy(Get(entry, "id")) then Get(entry, "id")
    else None
  }

  /** The working directory a `session_meta` record offers. */
  function CwdOf(entry: JValue): (r: Option<string>)
    ensures r.Some? ==> r.value != ""
  {
    var cwd := OptGet(Get(entry, "payload"), "cwd");
    if IsStr(Get(entry, "type"), "session_meta") && IsString(cwd) && cwd.value.s != "" then Some(cwd.value.s)
    else None
  }

  function Min(a: int, b: int): int { if a <= b then a else b }
  function Max(a: int, b: int): int { if a >= b then a else b }

  /** One turn of the loop over the records. */
  function ScanStep(toTime: JValue -> Option<int>, s: Scan, entry: JValue): Scan
  {
    var sessionId := if s.sessionId.None? then IdOf(entry) else s.sessionId;
    var payload := Get(entry, "payload");
    var isMeta := s.workspacePath.None? && IsStr(Get(entry, "type"), "session_meta");
    var cwd := CwdOf(entry);
    var workspacePath := if isMeta && cwd.Some? then cwd else s.workspacePath;
    var workspaceName := if isMeta && cwd.Some? then Some(Basename(cwd.value)) else s.workspaceName;
    var git, cliVersion, originator := OptGet(payload, "git"), OptGet(payload, "cli_version"), OptGet(payload, "originator");
    var meta :=
      if isMeta && (Truthy(git) || Truthy(cliVersion) || Truthy(originator)) then
        Some(CodexMeta(
          Or(git, if s.meta.Some? then s.meta.value.git else None),
          Or(cliVersion, if s.meta.Some? then s.meta.value.cliVersion else None),
          Or(originator, if s.meta.Some? then s.meta.value.originator else None)))
      else s.meta;
    var t := Timestamp(entry, toTime);
    var earliest := if t.None? then s.earliest else if s.earliest.None? then t else Some(Min(s.earliest.value, t.value));
    var latest := if t.None? then s.latest else Max(s.latest, t.value);
    var preview := UserMessage(entry);
    var messageCount := if preview.Some? then s.messageCount + 1 else s.messageCount;
    var firstUserMessage :=
      if preview.Some? && s.firstUserMessage.None? then Some(Prefix(preview.value, 60)) else s.firstUserMessage;
    Scan(sessionId, workspacePath, workspaceName, firstUserMessage, messageCount, earliest, latest, meta)
  }

  /** What one turn does to each variable the summary reads. */
  lemma ScanStepFields(toTime: JValue -> Option<int>, s: Scan, entry: JValue)
    ensures var s' := ScanStep(toTime, s, entry);
      var preview := UserMessage(entry);
      var t := Timestamp(entry, toTime);
      s'.messageCount == (if preview.Some? then s.messageCount + 1 else s.messageCount)
      && s'.firstUserMessage == (if preview.Some? && s.firstUserMessage.None? then Some(Prefix(preview.value, 60)) else s.firstUserMessage)
      && s'.sessionId == (if s.sessionId.None? then IdOf(entry) else s.sessionId)
      && s'.earliest == (if t.None? then s.earliest else if s.earliest.None? then t else Some(Min(s.earliest.value, t.value)))
      && s'.latest == (if t.None? then s.latest else Max(s.latest, t.value))
  {
  }

  /** `extractTimestamp` as a function of the record. */
  function TimeOf(toTime: JValue -> Option<int>): JValue -> Option<int>
  {
    (e: JValue) => Timestamp(e, toTime)
  }

  /** The scan after the records `xs` and one more. */
  lemma ScanSnoc(toTime: JValue -> Option<int>, xs: seq<JValue>)
    requires |xs| > 0
    ensures Foldl(Step(toTime), Start, xs) == ScanStep(toTime, Foldl(Step(toTime), Start, xs[..|xs| - 1]), xs[|xs| - 1])
  {
  }

  function Step(toTime: JValue -> Option<int>): (Scan, JValue) -> Scan
  {
    (s, e) => ScanStep(toTime, s, e)
  }

  /** The listing entry for the loop's final variables (`null` without a user message). */
  function Summary(s: Scan, filePath: string, now: int): Option<CodexSession>
  {
    if s.messageCount == 0 then None
    else
      var creationDate := if s.earliest.Some? then s.earliest.value else if s.latest != 0 then s.latest else now;
      var lastMessageDate := if s.latest != 0 then s.latest else creationDate;
      Some(CodexSession(
        if s.sessionId.Some? then s.sessionId.value else JStr(BasenameWithout(filePath, ".jsonl")),
        creationDate,
        lastMessageDate,
        if s.firstUserMessage.Some? then s.firstUserMessage.value else "Codex Chat",
        s.messageCount,
        filePath,
        "codex",
        s.workspaceName,
        s.workspacePath,
        s.meta))
  }

  function SessionFromEntries(entries: seq<JValue>, filePath: string, toTime: JValue -> Option<int>, now: int): Option<CodexSession>
  {
    Summary(Foldl(Step(toTime), Start, entries), filePath, now)
  }

  /** `createSessionFromEntries(entries, filePath)`, with `Date.now()` as `now`. */
  method CreateSessionFromEntries(entries: seq<JValue>, filePath: string, toTime: JValue -> Option<int>, now: int)
    returns (r: Option<CodexSession>)
    ensures r == SessionFromEntries(entries, filePath, toTime, now)
  {
    var sessionId: Prop := None;
    var workspacePath: Option<string> := None;
    var workspaceName: Option<string> := None;
    var firstUserMessage: Option<string> := None;
    var messageCount: nat := 0;
    var earliestTimestamp: Option<int> := None;
    var latestTimestamp := 0;
    var codexMetadata: Option<CodexMeta> := None;
    var i := 0;
    while i < |entries|
      invariant 0 <= i <= |entries|
      invariant Scan(sessionId, workspacePath, workspaceName, firstUserMessage, messageCount,
                     earliestTimestamp, latestTimestamp, codexMetadata) == Foldl(Step(toTime), Start, entries[..i])
    {
      var entry := entries[i];
      FoldlStep(Step(toTime), Start, entries, i);
      if sessionId.None? {
        sessionId := IdOf(entry);
      }
      if workspacePath.None? && IsStr(Get(entry, "type"), "session_meta") {
        var payload := Get(entry, "payload");
        var cwd := CwdOf(entry);
        if cwd.Some? {
          workspacePath := cwd;
          workspaceName := Some(Basename(cwd.value));
        }
        var gitInfo, cliVersion, originator := OptGet(payload, "git"), OptGet(payload, "cli_version"), OptGet(payload, "originator");
        if Truthy(gitInfo) || Truthy(cliVersion) || Truthy(originator) {
          codexMetadata := Some(CodexMeta(
            Or(gitInfo, if codexMetadata.Some? then codexMetadata.value.git else None),
            Or(cliVersion, if codexMetadata.Some? then codexMetadata.value.cliVersion else None),
            Or(originator, if codexMetadata.Some? then codexMetadata.value.originator else None)));
        }
      }
      var timestamp := Timestamp(entry, toTime);
      if timestamp.Some? {
        earliestTimestamp := if earliestTimestamp.None? then timestamp else Some(Min(earliestTimestamp.value, timestamp.value));
        latestTimestamp := Max(latestTimestamp, timestamp.value);
      }
      var userMessage := UserMessage(entry);
      if userMessage.Some? {
        messageCount := messageCount + 1;
        if firstUserMessage.None? {
          firstUserMessage := Some(Prefix(userMessage.value, 60));
        }
      }
      i := i + 1;
    }
    assert entries[..i] == entries;
    r := Summary(Scan(sessionId, workspacePath, workspaceName, firstUserMessage, messageCount,
                      earliestTimestamp, latestTimestamp, codexMetadata), filePath, now);
  }

  // ---------------------------------------------------------------------------
  // What the scan computes
  // ---------------------------------------------------------------------------

  /** The scan counts the user messages and keeps the first one's preview. */
  lemma {:induction false} ScanMessages(toTime: JValue -> Option<int>, xs: seq<JValue>)
    ensures var s := Foldl(Step(toTime), Start, xs);
            var ps := Choose(UserMessage, xs);
            s.messageCount == |ps| && s.firstUserMessage == (if ps == [] then None else Some(Prefix(ps[0], 60)))
    decreases |xs|
  {
    if |xs| > 0 {
      var n := |xs| - 1;
      ScanMessages(toTime, xs[..n]);
      ScanSnoc(toTime, xs);
      ScanStepFields(toTime, Foldl(Step(toTime), Start, xs[..n]), xs[n]);
      assert Choose(UserMessage, xs) == Choose(UserMessage, xs[..n]) + (match UserMessage(xs[n]) case Some(t) => [t] case None => []);
    }
  }

  /** The session id is the first id a record offers. */
  lemma {:induction false} ScanSessionId(toTime: JValue -> Option<int>, xs: seq<JValue>)
    ensures var s := Foldl(Step(toTime), Start, xs);
            var ids := Choose(IdOf, xs);
            s.sessionId == (if ids == [] then None else Some(ids[0]))
    decreases |xs|
  {
    if |xs| > 0 {
      var n := |xs| - 1;
      ScanSessionId(toTime, xs[..n]);
      ScanSnoc(toTime, xs);
      ScanStepFields(toTime, Foldl(Step(toTime), Start, xs[..n]), xs[n]);
      assert Choose(IdOf, xs) == Choose(IdOf, xs[..n]) + (match IdOf(xs[n]) case Some(t) => [t] case None => []);
    }
  }

  /** The workspace is the first non-empty `cwd` of a `session_meta` record,
    * and its name is that path's base name. */
  lemma {:induction false} ScanWorkspace(toTime: JValue -> Option<int>, xs: seq<JValue>)
    ensures var s := Foldl(Step(toTime), Start, xs);
            var cwds := Choose(CwdOf, xs);
            s.workspacePath == (if cwds == [] then None else Some(cwds[0]))
            && s.workspaceName == (if cwds == [] then None else Some(Basename(cwds[0])))
    decreases |xs|
  {
    if |xs| > 0 {
      var n := |xs| - 1;
      ScanWorkspace(toTime, xs[..n]);
      assert Choose(CwdOf, xs) == Choose(CwdOf, xs[..n]) + (match CwdOf(xs[n]) case Some(t) => [t] case None => []);
    }
  }

  /** `earliest` is the least timestamp seen, unset if there is none. */
  lemma {:induction false} ScanEarliest(toTime: JValue -> Option<int>, xs: seq<JValue>)
    ensures var s := Foldl(Step(toTime), Start, xs);
            var ts := Choose(TimeOf(toTime), xs);
            (s.earliest.None? <==> ts == [])
            && (s.earliest.Some? ==> s.earliest.value in ts && forall t :: t in ts ==> s.earliest.value <= t)
    decreases |xs|
  {
    if |xs| > 0 {
      var n := |xs| - 1;
      ScanEarliest(toTime, xs[..n]);
      ScanSnoc(toTime, xs);
      EarliestStep(toTime, Foldl(Step(toTime), Start, xs[..n]), xs[n], Choose(TimeOf(toTime), xs[..n]));
      ChooseStep(TimeOf(toTime), xs, n);
      assert xs[..n + 1] == xs;
    }
  }

  lemma EarliestStep(toTime: JValue -> Option<int>, s0: Scan, e: JValue, ts0: seq<int>)
    requires (s0.earliest.None? <==> ts0 == [])
    requires s0.earliest.Some? ==> s0.earliest.value in ts0 && forall t :: t in ts0 ==> s0.earliest.value <= t
    ensures var s := ScanStep(toTime, s0, e);
            var ts := ts0 + (match TimeOf(toTime)(e) case Some(t) => [t] case None => []);
            (s.earliest.None? <==> ts == [])
            && (s.earliest.Some? ==> s.earliest.value in ts && forall t :: t in ts ==> s.earliest.value <= t)
  {
    ScanStepFields(toTime, s0, e);
  }

  /** `latest` is 0 or one of the timestamps `ts`, and none is above it. */
  predicate LatestOf(latest: int, ts: seq<int>)
  {
    0 <= latest && (latest == 0 || latest in ts) && forall t :: t in ts ==> t <= latest
  }

  /** `latest` is the greatest timestamp seen, or 0: never below any of
    * them. */
  lemma {:induction false} ScanLatest(toTime: JValue -> Option<int>, xs: seq<JValue>)
    ensures LatestOf(Foldl(Step(toTime), Start, xs).latest, Choose(TimeOf(toTime), xs))
    decreases |xs|
  {
    if |xs| > 0 {
      var n := |xs| - 1;
      ScanLatest(toTime, xs[..n]);
      ScanSnoc(toTime, xs);
      LatestStep(toTime, Foldl(Step(toTime), Start, xs[..n]), xs[n], Choose(TimeOf(toTime), xs[..n]));
      ChooseStep(TimeOf(toTime), xs, n);
      assert xs[..n + 1] == xs;
    }
  }

  lemma LatestStep(toTime: JValue -> Option<int>, s0: Scan, e: JValue, ts0: seq<int>)
    requires LatestOf(s0.latest, ts0)
    ensures LatestOf(ScanStep(toTime, s0, e).latest, ts0 + (match TimeOf(toTime)(e) case Some(t) => [t] case None => []))
  {
    ScanStepFields(toTime, s0, e);
  }

  /** The listing entry in terms of the records alone: `null` without a user
    * message; otherwise the count of user messages, the first preview cut
    * to 60 characters, the first offered id or the file's base name, the
    * earliest timestamp as creation date and the latest positive one (or
    * the creation date) as last message date. */
  lemma CreateSessionSpec(entries: seq<JValue>, filePath: string, toTime: JValue -> Option<int>, now: int)
    ensures var r := SessionFromEntries(entries, filePath, toTime, now);
            var ps := Choose(UserMessage, entries);
            var ids := Choose(IdOf, entries);
            var ts := Choose(TimeOf(toTime), entries);
            (r.None? <==> ps == [])
            && (r.Some? ==>
                  r.value.requestCount == |ps|
                  && r.value.customTitle == Prefix(ps[0], 60)
                  && r.value.sessionId == (if ids == [] then JStr(BasenameWithout(filePath, ".jsonl")) else ids[0])
                  && (ts == [] ==> r.value.creationDate == now && r.value.lastMessageDate == now)
                  && (ts != [] ==> r.value.creationDate in ts && forall t :: t in ts ==> r.value.creationDate <= t)
                  && ((forall t :: t in ts ==> t <= 0) ==> r.value.lastMessageDate == r.value.creationDate)
                  && ((exists t :: t in ts && t > 0) ==>
                        r.value.lastMessageDate in ts && forall t :: t in ts ==> t <= r.value.lastMessageDate))
  {
    ScanMessages(toTime, entries);
    ScanSessionId(toTime, entries);
    ScanEarliest(toTime, entries);
    ScanLatest(toTime, entries);
  }

  /** A session title is never empty: a preview is non-empty text. */
  lemma TitleNotEmpty(entries: seq<JValue>, filePath: string, toTime: JValue -> Option<int>, now: int)
    ensures var r := SessionFromEntries(entries, filePath, toTime, now);
            r.Some? ==> r.value.customTitle != "" && |r.value.customTitle| <= 60
  {
    ScanMessages(toTime, entries);
    var ps := Choose(UserMessage, entries);
    if ps != [] {
      ChooseMember(UserMessage, entries, ps[0]);
      var i :| 0 <= i < |entries| && UserMessage(entries[i]) == Some(ps[0]);
    }
  }

  // ---------------------------------------------------------------------------
  // Opening a session
  // ---------------------------------------------------------------------------

  /** Object spread: each own property of `v` assigned in turn. Strings and
    * arrays spread their indices; other primitives spread nothing. */
  function Spread(fields: seq<Field>, v: JValue): seq<Field>
  {
    match v
    case JObj(fs) => SpreadFields(fields, fs)
    case JArr(items) => SpreadFields(fields, IndexFields(items, 0))
    case JStr(s) => SpreadFields(fields, IndexFields(StrChars(s), 0))
    case _ => fields
  }

  /** The value of the last property named `k`: the one an assignment in
    * property order leaves behind. */
  function LastValue(fs: seq<Field>, k: string): Prop
  {
    if |fs| == 0 then None
    else if fs[|fs| - 1].key == k then Some(fs[|fs| - 1].value)
    else LastValue(fs[..|fs| - 1], k)
  }

  /** `{ ...fields, ...fs }` for the properties `fs`. */
  function SpreadFields(fields: seq<Field>, fs: seq<Field>): (r: seq<Field>)
    ensures forall k :: Lookup(r, k) == if LastValue(fs, k).Some? then LastValue(fs, k) else Lookup(fields, k)
    decreases |fs|
  {
    if |fs| == 0 then fields
    else SetField(SpreadFields(fields, fs[..|fs| - 1]), fs[|fs| - 1].key, fs[|fs| - 1].value)
  }

  function StrChars(s: string): seq<JValue>
    ensures |StrChars(s)| == |s|
  {
    if |s| == 0 then [] else [JStr([s[0]])] + StrChars(s[1..])
  }

  function IndexFields(items: seq<JValue>, from: nat): (r: seq<Field>)
    ensures |r| == if from >= |items| then 0 else |items| - from
    decreases |items| - from
  {
    if from >= |items| then [] else [Field(NatToString(from), items[from])] + IndexFields(items, from + 1)
  }

  /** `parseSession`: `{ sessionId, ...first, messages: rest }` over the file's records. */
  function ParseSession(sessionId: JValue, entries: seq<JValue>): JValue
  {
    var base := [Field("sessionId", sessionId)];
    var spread := if |entries| == 0 then base else Spread(base, entries[0]);
    JObj(SetField(spread, "messages", JArr(if |entries| == 0 then [] else entries[1..])))
  }

  /** The opened session holds every record after the first under `messages`,
    * and the first record's own `sessionId`, when it has one, overrides
    * the listing's. */
  lemma ParseSessionSpec(sessionId: JValue, entries: seq<JValue>)
    ensures var r := ParseSession(sessionId, entries);
            Get(r, "messages") == Some(JArr(if |entries| == 0 then [] else entries[1..]))
            && (|entries| > 0 && entries[0].JObj? && LastValue(entries[0].fields, "sessionId").Some? ==>
                  Get(r, "sessionId") == LastValue(entries[0].fields, "sessionId"))
            && (|entries| == 0 || !entries[0].JObj? || LastValue(entries[0].fields, "sessionId").None? ==>
                  Get(r, "sessionId") == Some(sessionId))
  {
    var base := [Field("sessionId", sessionId)];
    assert Lookup(base, "sessionId") == Some(sessionId);
    var spread := if |entries| == 0 then base else Spread(base, entries[0]);
    var fields := SetField(spread, "messages", JArr(if |entries| == 0 then [] else entries[1..]));
    assert Lookup(fields, "sessionId") == Lookup(spread, "sessionId");
    if |entries| > 0 {
      SpreadSessionId(base, entries[0]);
    }
  }

  /** Spreading a record keeps `sessionId` unless the record is an object that has one. */
  lemma SpreadSessionId(base: seq<Field>, v: JValue)
    ensures Lookup(Spread(base, v), "sessionId") ==
      if v.JObj? && LastValue(v.fields, "sessionId").Some? then LastValue(v.fields, "sessionId")
      else Lookup(base, "sessionId")
  {
    match v
    case JObj(fs) =>
      SpreadFieldsSessionId(base, fs);
    case JArr(items) =>
      SpreadIndicesSessionId(base, items);
    case JStr(t) =>
      SpreadIndicesSessionId(base, StrChars(t));
    case _ =>
  }

  lemma SpreadFieldsSessionId(base: seq<Field>, fs: seq<Field>)
    ensures Lookup(SpreadFields(base, fs), "sessionId") ==
      if LastValue(fs, "sessionId").Some? then LastValue(fs, "sessionId") else Lookup(base, "sessionId")
  {
  }

  lemma SpreadIndicesSessionId(base: seq<Field>, items: seq<JValue>)
    ensures Lookup(SpreadFields(base, IndexFields(items, 0)), "sessionId") == Lookup(base, "sessionId")
  {
    IndexFieldsKeys(items, 0, "sessionId");
  }

  /** Index names are numerals, so no index is named like a property. */
  lemma {:induction false} IndexFieldsKeys(items: seq<JValue>, from: nat, key: string)
    requires |key| > 0 && !('0' <= key[0] <= '9')
    ensures LastValue(IndexFields(items, from), key).None?
    decreases |items| - from
  {
    var fs := IndexFields(items, from);
    forall i | 0 <= i < |fs| ensures fs[i].key != key {
      IndexFieldsAt(items, from, i);
      NumeralStart(from + i);
    }
    LastValueAbsent(fs, key);
  }

  lemma {:induction false} IndexFieldsAt(items: seq<JValue>, from: nat, i: nat)
    requires from + i < |items|
    ensures |IndexFields(items, from)| == |items| - from
    ensures IndexFields(items, from)[i] == Field(NatToString(from + i), items[from + i])
    decreases |items| - from
  {
    if i > 0 {
      IndexFieldsAt(items, from + 1, i - 1);
    } else if from + 1 < |items| {
      IndexFieldsAt(items, from + 1, 0);
    } else {
      assert IndexFields(items, from + 1) == [];
    }
  }

  lemma {:induction false} LastValueAbsent(fs: seq<Field>, k: string)
    requires forall i :: 0 <= i < |fs| ==> fs[i].key != k
    ensures LastValue(fs, k).None?
    decreases |fs|
  {
    if |fs| > 0 {
      LastValueAbsent(fs[..|fs| - 1], k);
    }
  }

  lemma {:induction false} NumeralStart(n: nat)
    ensures '0' <= NatToString(n)[0] <= '9'
  {
    if n >= 10 {
      NumeralStart(n / 10);
    }
  }
}
