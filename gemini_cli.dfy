/**
 * The Gemini CLI adapter's summary of one project's chat files: which
 * files are read, which are skipped, and the title, message count, id and
 * dates of each session found. Reading the directory and the files, and
 * resolving the workspace from its hash, happen before this model starts.
 */
module GeminiSessions {
  import opened Js
  import opened Strings
  import opened Folds
  import Paths

  const DefaultTitle := "Gemini Chat"

  /** A chat file of the project's `chats` directory, already read. */
  datatype ChatFile = ChatFile(name: string, path: string, content: string)

  /** A listed session. A date is `None` when it is NaN. */
  datatype GeminiSession = GeminiSession(
    sessionId: JValue,
    creationDate: Option<int>,
    lastMessageDate: Option<int>,
    customTitle: string,
    requestCount: nat,
    filePath: string,
    source: string,
    workspaceName: string,
    workspacePath: Option<string>)

  /** `Math.max` on two dates, NaN (`None`) when either is NaN. */
  function MaxDate(a: Option<int>, b: Option<int>): (r: Option<int>)
    ensures r.Some? <==> a.Some? && b.Some?
    ensures r.Some? ==> r.value >= a.value && r.value >= b.value
    ensures r.Some? ==> r.value == a.value || r.value == b.value
  {
    if a.None? || b.None? then None
    else if a.value >= b.value then a else b
  }

  /** Only files ending in ".json" other than "logs.json" are read. */
  predicate Considered(name: string)
  {
    EndsWith(name, ".json") && name != "logs.json"
  }

  /** A message carries a timestamp the loop reads. */
  predicate Dated(msg: JValue)
  {
    Truthy(Get(msg, "timestamp"))
  }

  /** The state of the message loop: the title so far and the latest date. */
  datatype Scan = Scan(title: string, latest: Option<int>)

  /** The date the loop starts from: `lastUpdated`, else `startTime`, else 0. */
  function Seed(toTime: JValue -> Option<int>, data: JValue): (r: Option<int>)
    ensures Truthy(Get(data, "lastUpdated")) ==> r == toTime(Get(data, "lastUpdated").value)
    ensures !Truthy(Get(data, "lastUpdated")) && Truthy(Get(data, "startTime")) ==> r == toTime(Get(data, "startTime").value)
    ensures !Truthy(Get(data, "lastUpdated")) && !Truthy(Get(data, "startTime")) ==> r == Some(0)
  {
    var lastUpdated := Get(data, "lastUpdated");
    var startTime := Get(data, "startTime");
    if Truthy(lastUpdated) then toTime(lastUpdated.value)
    else if Truthy(startTime) then toTime(startTime.value)
    else Some(0)
  }

  /** One message of the loop. Reading a field of `null` throws, and so does
    * `substring` on truthy content that is not a string. */
  function ScanMessage(toTime: JValue -> Option<int>, s: Scan, msg: JValue): JsResult<Scan>
  {
    if msg.JNull? then Err(TypeError)
    else
      var timestamp := Get(msg, "timestamp");
      var latest := if Truthy(timestamp) then MaxDate(s.latest, toTime(timestamp.value)) else s.latest;
      var content := Get(msg, "content");
      if IsStr(Get(msg, "type"), "user") && s.title == DefaultTitle && Truthy(content) then
        if content.value.JStr? then Ok(Scan(Prefix(content.value.s, 60), latest))
        else Err(TypeError)
      else Ok(Scan(s.title, latest))
  }

  function Step(toTime: JValue -> Option<int>): (Scan, JValue) -> JsResult<Scan>
  {
    (s: Scan, msg: JValue) => ScanMessage(toTime, s, msg)
  }

  function WorkspaceName(workspacePath: Option<string>): string
  {
    if workspacePath.Some? && workspacePath.value != "" then Paths.Basename(workspacePath.value) else "Gemini"
  }

  /** The session of one parsed chat file: `None` when the file has no
    * non-empty `messages` array, the exception the summary throws otherwise. */
  function ChatSummary(toTime: JValue -> Option<int>, file: ChatFile, workspacePath: Option<string>, data: JValue)
    : JsResult<Option<GeminiSession>>
  {
    if data.JNull? then Err(TypeError)
    else
      var messages := Get(data, "messages");
      if !Truthy(messages) || !IsArray(messages) then Ok(None)
      else if |messages.value.items| == 0 then Ok(None)
      else
        var s :- Fold(Step(toTime), Scan(DefaultTitle, Seed(toTime, data)), messages.value.items);
        var startTime := Get(data, "startTime");
        var sessionId := Or(Get(data, "sessionId"), Str(ReplaceFirst(file.name, ".json", "")));
        Ok(Some(GeminiSession(
          sessionId.value,
          if Truthy(startTime) then toTime(startTime.value) else s.latest,
          s.latest,
          s.title,
          |messages.value.items|,
          file.path,
          "gemini",
          WorkspaceName(workspacePath),
          workspacePath)))
  }

  /** The body of the per-file `try`: a file that is skipped, does not
    * parse, or whose summary throws yields nothing. */
  function FileSession(parse: Parser, toTime: JValue -> Option<int>, workspacePath: Option<string>, file: ChatFile)
    : (r: Option<GeminiSession>)
    ensures r.Some? ==> Considered(file.name) && r.value.filePath == file.path
  {
    if !EndsWith(file.name, ".json") then None
    else if file.name == "logs.json" then None
    else
      match parse(file.content)
      case None => None
      case Some(data) =>
        match ChatSummary(toTime, file, workspacePath, data)
        case Err(_) => None
        case Ok(session) => session
  }

  /** The sessions of one project's chat files, in directory order. */
  function Sessions(parse: Parser, toTime: JValue -> Option<int>, workspacePath: Option<string>, files: seq<ChatFile>)
    : seq<GeminiSession>
  {
    Choose((f: ChatFile) => FileSession(parse, toTime, workspacePath, f), files)
  }

  /** The loop over the chat files, pushing one session per kept file. */
  method FindSessions(parse: Parser, toTime: JValue -> Option<int>, workspacePath: Option<string>, files: seq<ChatFile>)
    returns (sessions: seq<GeminiSession>)
    ensures sessions == Sessions(parse, toTime, workspacePath, files)
  {
    sessions := [];
    var i := 0;
    while i < |files|
      invariant 0 <= i <= |files|
      invariant sessions == Sessions(parse, toTime, workspacePath, files[..i])
    {
      ChooseStep((f: ChatFile) => FileSession(parse, toTime, workspacePath, f), files, i);
      var chatFile := files[i];
      i := i + 1;
      if !EndsWith(chatFile.name, ".json") {
        continue;
      }
      if chatFile.name == "logs.json" {
        continue;
      }
      var sessionData := parse(chatFile.content);
      if sessionData.None? {
        continue;
      }
      var session := SummarizeChat(toTime, chatFile, workspacePath, sessionData.value);
      if session.Ok? && session.value.Some? {
        sessions := sessions + [session.value.value];
      }
    }
    assert files[..i] == files;
  }

  /** The summary of one parsed chat file, computed by the source's loop. */
  method SummarizeChat(toTime: JValue -> Option<int>, file: ChatFile, workspacePath: Option<string>, sessionData: JValue)
    returns (r: JsResult<Option<GeminiSession>>)
    ensures r == ChatSummary(toTime, file, workspacePath, sessionData)
  {
    if sessionData.JNull? {
      return Err(TypeError);
    }
    var messagesProp := Get(sessionData, "messages");
    if !Truthy(messagesProp) || !IsArray(messagesProp) {
      return Ok(None);
    }
    var messages := messagesProp.value.items;
    if |messages| == 0 {
      return Ok(None);
    }
    var firstUserMessage := DefaultTitle;
    var lastMessageDate: Option<int> := Some(0);
    var lastUpdated := Get(sessionData, "lastUpdated");
    var startTime := Get(sessionData, "startTime");
    if Truthy(lastUpdated) {
      lastMessageDate := toTime(lastUpdated.value);
    } else if Truthy(startTime) {
      lastMessageDate := toTime(startTime.value);
    }
    var scan := ScanMessages(toTime, Scan(firstUserMessage, lastMessageDate), messages);
    if scan.Err? {
      return Err(scan.error);
    }
    firstUserMessage, lastMessageDate := scan.value.title, scan.value.latest;
    var sessionId := Or(Get(sessionData, "sessionId"), Str(ReplaceFirst(file.name, ".json", "")));
    r := Ok(Some(GeminiSession(
      sessionId.value,
      if Truthy(startTime) then toTime(startTime.value) else lastMessageDate,
      lastMessageDate,
      firstUserMessage,
      |messages|,
      file.path,
      "gemini",
      WorkspaceName(workspacePath),
      workspacePath)));
  }

  /** `for (const msg of messages)`: the title and the latest date after
    * every message, or the exception one of them throws. */
  method ScanMessages(toTime: JValue -> Option<int>, init: Scan, messages: seq<JValue>) returns (r: JsResult<Scan>)
    ensures r == Fold(Step(toTime), init, messages)
  {
    var firstUserMessage, lastMessageDate := init.title, init.latest;
    var i := 0;
    while i < |messages|
      invariant 0 <= i <= |messages|
      invariant Fold(Step(toTime), init, messages[..i]) == Ok(Scan(firstUserMessage, lastMessageDate))
    {
      FoldStep(Step(toTime), init, messages, i);
      var msg := messages[i];
      if msg.JNull? {
        FoldErrPrefix(Step(toTime), init, messages, i + 1);
        return Err(TypeError);
      }
      var timestamp := Get(msg, "timestamp");
      if Truthy(timestamp) {
        lastMessageDate := MaxDate(lastMessageDate, toTime(timestamp.value));
      }
      if IsStr(Get(msg, "type"), "user") && firstUserMessage == DefaultTitle {
        var content := Get(msg, "content");
        if Truthy(content) {
          if !content.value.JStr? {
            FoldErrPrefix(Step(toTime), init, messages, i + 1);
            return Err(TypeError);
          }
          firstUserMessage := Prefix(content.value.s, 60);
        }
      }
      i := i + 1;
    }
    assert messages[..i] == messages;
    r := Ok(Scan(firstUserMessage, lastMessageDate));
  }

  // ----- What the summary guarantees -----

  /** A message that names the session: a user message with string content
    * whose first 60 characters are not the default title. */
  predicate Names(msg: JValue)
  {
    IsStr(Get(msg, "type"), "user") && Truthy(Get(msg, "content")) && Get(msg, "content").value.JStr?
    && Prefix(Get(msg, "content").value.s, 60) != DefaultTitle
  }

  function NameOf(msg: JValue): string
    requires Names(msg)
  {
    Prefix(Get(msg, "content").value.s, 60)
  }

  /** A loop that completes has completed on every prefix. */
  lemma ScanPrefixOk(toTime: JValue -> Option<int>, init: Scan, ms: seq<JValue>, n: nat)
    requires n <= |ms| && Fold(Step(toTime), init, ms).Ok?
    ensures Fold(Step(toTime), init, ms[..n]).Ok?
  {
    if Fold(Step(toTime), init, ms[..n]).Err? {
      FoldErrPrefix(Step(toTime), init, ms, n);
    }
  }

  /** With no naming message the title stays the default. */
  lemma {:induction false} TitleUnnamed(toTime: JValue -> Option<int>, latest: Option<int>, ms: seq<JValue>)
    requires Fold(Step(toTime), Scan(DefaultTitle, latest), ms).Ok?
    requires forall j :: 0 <= j < |ms| ==> !Names(ms[j])
    ensures Fold(Step(toTime), Scan(DefaultTitle, latest), ms).value.title == DefaultTitle
    decreases |ms|
  {
    if |ms| > 0 {
      var n := |ms| - 1;
      ScanPrefixOk(toTime, Scan(DefaultTitle, latest), ms, n);
      forall j | 0 <= j < n ensures !Names(ms[..n][j]) {
        assert ms[..n][j] == ms[j];
      }
      TitleUnnamed(toTime, latest, ms[..n]);
    }
  }

  /** The title is the first 60 characters of the first naming message. */
  lemma {:induction false} TitleNamed(toTime: JValue -> Option<int>, latest: Option<int>, ms: seq<JValue>, k: nat)
    requires Fold(Step(toTime), Scan(DefaultTitle, latest), ms).Ok?
    requires k < |ms| && Names(ms[k])
    requires forall j :: 0 <= j < k ==> !Names(ms[j])
    ensures Fold(Step(toTime), Scan(DefaultTitle, latest), ms).value.title == NameOf(ms[k])
    decreases |ms|
  {
    var n := |ms| - 1;
    var init := Scan(DefaultTitle, latest);
    ScanPrefixOk(toTime, init, ms, n);
    if k < n {
      forall j | 0 <= j < k ensures !Names(ms[..n][j]) {
        assert ms[..n][j] == ms[j];
      }
      TitleNamed(toTime, latest, ms[..n], k);
    } else {
      forall j | 0 <= j < n ensures !Names(ms[..n][j]) {
        assert ms[..n][j] == ms[j];
      }
      TitleUnnamed(toTime, latest, ms[..n]);
    }
  }

  /** The latest date bounds the seed and every dated message. */
  lemma {:induction false} LatestBound(toTime: JValue -> Option<int>, init: Scan, ms: seq<JValue>)
    requires Fold(Step(toTime), init, ms).Ok?
    ensures var latest := Fold(Step(toTime), init, ms).value.latest;
      latest.Some? ==>
        init.latest.Some? && latest.value >= init.latest.value &&
        forall j :: 0 <= j < |ms| && Dated(ms[j]) ==>
          toTime(Get(ms[j], "timestamp").value).Some? && toTime(Get(ms[j], "timestamp").value).value <= latest.value
    decreases |ms|
  {
    if |ms| > 0 {
      var n := |ms| - 1;
      ScanPrefixOk(toTime, init, ms, n);
      LatestBound(toTime, init, ms[..n]);
      forall j | 0 <= j < n ensures ms[..n][j] == ms[j] {}
    }
  }

  /** The latest date is NaN exactly when the seed or some dated message is
    * NaN; otherwise it is the seed or one of the messages' dates. */
  lemma {:induction false} LatestAttained(toTime: JValue -> Option<int>, init: Scan, ms: seq<JValue>)
    requires Fold(Step(toTime), init, ms).Ok?
    ensures var latest := Fold(Step(toTime), init, ms).value.latest;
      (latest.None? <==> (init.latest.None? ||
         exists j :: 0 <= j < |ms| && Dated(ms[j]) && toTime(Get(ms[j], "timestamp").value).None?)) &&
      (latest.Some? ==> (latest == init.latest ||
         exists j :: 0 <= j < |ms| && Dated(ms[j]) && toTime(Get(ms[j], "timestamp").value) == latest))
    decreases |ms|
  {
    if |ms| > 0 {
      var n := |ms| - 1;
      ScanPrefixOk(toTime, init, ms, n);
      LatestAttained(toTime, init, ms[..n]);
      forall j | 0 <= j < n ensures ms[..n][j] == ms[j] {}
      var before := Fold(Step(toTime), init, ms[..n]).value.latest;
      var latest := Fold(Step(toTime), init, ms).value.latest;
      if latest.None? && !init.latest.None? && before.Some? {
        assert Dated(ms[n]) && toTime(Get(ms[n], "timestamp").value).None?;
      }
      if latest.Some? && latest != init.latest && latest != before {
        assert Dated(ms[n]) && toTime(Get(ms[n], "timestamp").value) == latest;
      }
    }
  }

  /** The shape of a file without a usable `messages` array: it is skipped. */
  lemma SummarySkips(toTime: JValue -> Option<int>, file: ChatFile, workspacePath: Option<string>, data: JValue)
    requires !data.JNull?
    ensures var messages := Get(data, "messages");
      ChatSummary(toTime, file, workspacePath, data) == Ok(None) <==>
        !IsArray(messages) || |messages.value.items| == 0
  {
  }

  /** What a listed session records. */
  lemma {:induction false} SummarySpec(toTime: JValue -> Option<int>, file: ChatFile, workspacePath: Option<string>, data: JValue)
    requires ChatSummary(toTime, file, workspacePath, data).Ok?
    requires ChatSummary(toTime, file, workspacePath, data).value.Some?
    ensures var s := ChatSummary(toTime, file, workspacePath, data).value.value;
      var messages := Get(data, "messages").value.items;
      var startTime := Get(data, "startTime");
      var sessionId := Get(data, "sessionId");
      s.requestCount == |messages| > 0 &&
      (Truthy(sessionId) ==> s.sessionId == sessionId.value) &&
      (!Truthy(sessionId) ==> s.sessionId == JStr(ReplaceFirst(file.name, ".json", ""))) &&
      s.creationDate == (if Truthy(startTime) then toTime(startTime.value) else s.lastMessageDate) &&
      (s.lastMessageDate.Some? ==>
        Seed(toTime, data).Some? && s.lastMessageDate.value >= Seed(toTime, data).value &&
        forall j :: 0 <= j < |messages| && Dated(messages[j]) ==>
          toTime(Get(messages[j], "timestamp").value).Some? &&
          toTime(Get(messages[j], "timestamp").value).value <= s.lastMessageDate.value) &&
      ((forall j :: 0 <= j < |messages| ==> !Names(messages[j])) ==> s.customTitle == DefaultTitle)
  {
    var messages := Get(data, "messages").value.items;
    var init := Scan(DefaultTitle, Seed(toTime, data));
    LatestBound(toTime, init, messages);
    if forall j :: 0 <= j < |messages| ==> !Names(messages[j]) {
      TitleUnnamed(toTime, Seed(toTime, data), messages);
    }
  }

  /** A listed session is titled after its first naming message. */
  lemma SummaryTitle(toTime: JValue -> Option<int>, file: ChatFile, workspacePath: Option<string>, data: JValue, k: nat)
    requires ChatSummary(toTime, file, workspacePath, data).Ok?
    requires ChatSummary(toTime, file, workspacePath, data).value.Some?
    requires k < |Get(data, "messages").value.items|
    requires Names(Get(data, "messages").value.items[k])
    requires forall j :: 0 <= j < k ==> !Names(Get(data, "messages").value.items[j])
    ensures ChatSummary(toTime, file, workspacePath, data).value.value.customTitle
      == NameOf(Get(data, "messages").value.items[k])
  {
    TitleNamed(toTime, Seed(toTime, data), Get(data, "messages").value.items, k);
  }

  /** Every listed session comes from a considered file, in file order. */
  lemma ListedFromConsidered(parse: Parser, toTime: JValue -> Option<int>, workspacePath: Option<string>, files: seq<ChatFile>, s: GeminiSession)
    requires s in Sessions(parse, toTime, workspacePath, files)
    ensures exists i :: 0 <= i < |files| && Considered(files[i].name) && files[i].path == s.filePath
  {
    ChooseMember((f: ChatFile) => FileSession(parse, toTime, workspacePath, f), files, s);
  }

  /** Listing two batches of files lists each batch in turn. */
  lemma SessionsAppend(parse: Parser, toTime: JValue -> Option<int>, workspacePath: Option<string>, xs: seq<ChatFile>, ys: seq<ChatFile>)
    ensures Sessions(parse, toTime, workspacePath, xs + ys)
      == Sessions(parse, toTime, workspacePath, xs) + Sessions(parse, toTime, workspacePath, ys)
  {
    ChooseAppend((f: ChatFile) => FileSession(parse, toTime, workspacePath, f), xs, ys);
  }
}
