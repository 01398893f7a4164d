# athrd thread normalisation in Dafny

athrd publishes AI coding-assistant sessions (VS Code Copilot Chat, Claude
Code, Codex, Gemini CLI and Cursor) as shareable threads. This project models
the part of athrd that turns a provider's session data into an ordered list of
conversation items, and proves properties of that model:

- format detection and the VS Code normaliser (`ThreadParsers`);
- the render-time normalisers of every provider, whose output is a sequence
  of abstract `Blocks.Block` values instead of React elements (`VSCodeThread`,
  `VSCodeTools`, `ClaudeThread`, `CodexThread`, `GeminiThread`,
  `CursorThread`);
- the pure parts of the command-line session adapters (`CodexSessions`,
  `GeminiSessions`, `CursorSessions`, with `StableSort` for sorting Cursor's chat bubbles by date);
- the small parsers and string functions of the thread components: the patch
  parser (`PatchBlock`), line-diff conversion (`EditBlock`, `DiffLines`),
  diff-text serialisation (`FileDiff`), message dispatch and line totals
  (`ThreadMessages`), thinking titles (`ThinkingBlock`), file names
  (`Paths`), image data URLs (`UserPrompt`, with the base64 encoding of
  section 4 of RFC 4648 in `Base64`), the gist helpers (`GitHub`), the remote
  URL of the `me` command (`RemoteUrl`), the `<command-name>` tag
  (`CommandName`) and the thread page's header data (`ThreadView`).

JSON values are the datatype `Js.JValue`, `undefined` is `None` of
`Js.Prop`, and a JavaScript exception is the error of a `Js.JsResult`, so
every place the source would throw is an explicit error path. `JSON.parse`
is a parameter of type `Js.Parser` (`None` where it throws). Loops of the
source are methods with loop invariants, each proved against a function
(`Folds.Foldl`, `Folds.Fold` or a function of its own) about which the
stated lemmas are proved; pure source code is functions and lemmas. The VS
Code pre-pass that rewrites each response item's `kind`, and the Cursor
bubble sort, work in place on an `array`.

## Model

| member | source | states |
|---|---|---|
| ThreadParsers.DetectFormat | apps/web/src/lib/thread-parsers.ts:93-123 | a falsy or non-object payload has no format. Otherwise the first shape that matches wins, each stated as an if-and-only-if: VS Code exactly for the VS Code shape; Custor exactly when the VS Code shape fails and the Custor shape holds; Claude exactly when neither earlier shape holds and `messages` is an array whose first element has an `author` or `role` key. The detector throws exactly when that first element is a truthy primitive, and returns no format exactly when no shape matches and it does not throw |
| ThreadParsers.EmptyMessagesUndetected | apps/web/src/lib/thread-parsers.ts:115-122 | an empty `messages` array is not recognised as a Claude thread |
| ThreadParsers.ExtractFilePath | apps/web/src/lib/thread-parsers.ts:130-133 | the path is `fsPath`, else `path`, else "Unknown file", and is never falsy |
| ThreadParsers.ExtractMessageValue | apps/web/src/lib/thread-parsers.ts:136-142 | a falsy message has no value, a string is its own value, an object gives its `value` |
| ThreadParsers.PartsOf | apps/web/src/lib/thread-parsers.ts:169-172 | absent parts stay absent; otherwise there is one part per element |
| ThreadParsers.VariableAttachments | apps/web/src/lib/thread-parsers.ts:179-193 | an absent or empty variable list gives no attachments; otherwise one "file" attachment per variable, in order, whatever its kind, with path `extractFilePath(value)`; it throws exactly on a `null` variable |
| ThreadParsers.UserMessage | apps/web/src/lib/thread-parsers.ts:165-176 | the user message has id `${requestId}-user`, role user, the prompt's text, and no edits or tool calls |
| ThreadParsers.ClassifyItem | apps/web/src/lib/thread-parsers.ts:257-351 | response items are dispatched in the order `textEditGroup`, `codeblockUri`, `inlineReference`, tool (a `toolCallId` or `toolId` key), `undoStop`, string `value`; anything else is dropped; the `in` tests throw exactly on a primitive item |
| ThreadParsers.EditOf | apps/web/src/lib/thread-parsers.ts:273-280 | a kept edit takes `newText` from `text` and never sets `oldText` |
| ThreadParsers.CollectEdits | apps/web/src/lib/thread-parsers.ts:269-285 | the nested loops over a group's edit arrays compute the fold of the group step |
| ThreadParsers.FlattenEdits | apps/web/src/lib/thread-parsers.ts:269-285 | nested edit arrays are flattened in order, only entries with a range are kept, no kept edit has an old text, and a `null` entry throws |
| ThreadParsers.ToolCallOf | apps/web/src/lib/thread-parsers.ts:319-337 | the status is completed exactly when `isComplete` is truthy and running otherwise; the id is `toolCallId || toolId` and the name `toolId` |
| ThreadParsers.Flush | apps/web/src/lib/thread-parsers.ts:234-255 | at most one assistant message, none exactly when every accumulator is empty; its id is `${requestId}-assistant-${index}`, its text the parts joined with "\n", and edits, tool calls and attachments appear exactly when non-empty |
| ThreadParsers.ParseVSCodeResponse | apps/web/src/lib/thread-parsers.ts:224-357 | the loop over the response items equals the fold of the item step followed by one flush at index `response.length` |
| ThreadParsers.NoAssistantWhenEmpty | apps/web/src/lib/thread-parsers.ts:234-255 | a response yields no assistant message exactly when every accumulator ends empty |
| ThreadParsers.ParseRequest | apps/web/src/lib/thread-parsers.ts:163-205 | the body of the request loop yields the user message, then the response's messages when `response` is an array |
| ThreadParsers.RequestMessagesShape | apps/web/src/lib/thread-parsers.ts:163-205 | each request yields its user message `${requestId}-user` first, then at most one assistant message whose id ends in `-assistant-${response.length}` |
| ThreadParsers.ParseVSCode | apps/web/src/lib/thread-parsers.ts:144-222 | the loop over the requests equals the fold of the per-request messages; a non-object payload and a missing `requests` array raise their "vscode" errors |
| ThreadParsers.NormalizeThread | apps/web/src/lib/thread-parsers.ts:363-399 | the entry point equals its specification: detection, then dispatch by format inside the `try` |
| ThreadParsers.NormalizeErrors | apps/web/src/lib/thread-parsers.ts:363-399 | an undetected payload throws with no format; Custor and Claude throw "not yet implemented" under their format; a VS Code failure is a language exception, wrapped with the format and the original error |
| VSCodeThread.IsMcpToolCall | apps/web/src/components/vscode/vscode-thread.tsx:99-108 | an item is an MCP call exactly when it is a tool call whose `source.type` is "mcp"; the `in` test throws exactly on a primitive source |
| VSCodeThread.TagFields | apps/web/src/components/vscode/vscode-thread.tsx:167 | the assigning filter sets `kind` to "toolInvocationSerialized" and leaves every other property as it was |
| VSCodeThread.TagItems | apps/web/src/components/vscode/vscode-thread.tsx:165-167 | every response item's `kind` is overwritten in place |
| VSCodeThread.CollectRounds | apps/web/src/components/vscode/vscode-thread.tsx:168-179 | the map built for the items holds, under key k, the k-th round for the k-th item with a truthy `toolId` |
| VSCodeThread.PrePass | apps/web/src/components/vscode/vscode-thread.tsx:165-179 | the pre-pass tags every item and builds the round map |
| VSCodeThread.FillResults | apps/web/src/components/vscode/vscode-thread.tsx:171-176 | every call of a round gets `toolCallResults[call.id]`, or none |
| VSCodeThread.RoundMapLookup | apps/web/src/components/vscode/vscode-thread.tsx:169-178 | the map holds exactly the keys of the first n indices, and index k holds the k-th round |
| VSCodeThread.TaggedItemsLoseTheirKind | apps/web/src/components/vscode/vscode-thread.tsx:167 | after the pre-pass no item is a thinking item or an inline reference, and an item is a tool call exactly when it has a `toolId` key |
| VSCodeThread.RoundThinking | apps/web/src/components/vscode/vscode-thread.tsx:268-275 | a round's thinking block is shown exactly when the round has thinking |
| VSCodeThread.CallResultText | apps/web/src/components/vscode/vscode-thread.tsx:284 | a call's result is its content values joined with "\n", or "" without a result |
| VSCodeThread.ShellCallBlock | apps/web/src/components/vscode/vscode-thread.tsx:277-288 | a shell block's command is `command` of the parsed arguments, else "Unknown command executed in terminal"; malformed arguments throw |
| VSCodeThread.ShellBlocks | apps/web/src/components/vscode/vscode-thread.tsx:267-288 | a terminal round renders its thinking first, then one shell block per call in order |
| VSCodeThread.ReplaceStringEdit | apps/web/src/components/vscode/vscode-thread.tsx:296-310 | an edit block takes `filePath`, `oldString || ""` and `newString || ""` from the parsed arguments |
| VSCodeThread.InsertEdit | apps/web/src/components/vscode/vscode-thread.tsx:323-333 | an insert edit has an empty old string and `code` as its new string |
| VSCodeThread.ResultPaths | apps/web/src/components/vscode/vscode-thread.tsx:340-342 | one path per search result; a result without `uri` throws |
| VSCodeThread.FindTextBlock | apps/web/src/components/vscode/vscode-thread.tsx:334-346 | the command is the past-tense message or "". No results give an empty result; results that are not an array throw. An array succeeds exactly when every entry has a `uri`, and the result is then the entries' `uri.path` values joined with "\n" |
| VSCodeThread.TodoStatus | apps/web/src/components/vscode/vscode-thread.tsx:353-358 | "in-progress" maps to "in_progress", "completed" to "completed", anything else to "pending" |
| VSCodeThread.TodoBlock | apps/web/src/components/vscode/vscode-thread.tsx:347-361 | one todo per entry of the todo list, in order, with its title |
| VSCodeThread.McpBlock | apps/web/src/components/vscode/vscode-thread.tsx:375-390 | the server name is the source label, the tool name the past-tense message or `toolId`, the input `resultDetails.input ?? ""`. The result is "" when there is no `output`, a TypeError when `output` is not an array, and otherwise the outputs' values joined with "\n", failing exactly when an output is null |
| VSCodeThread.ToolBlocks | apps/web/src/components/vscode/vscode-thread.tsx:267-399 | only tool invocations render anything, and none of what they render is text |
| VSCodeThread.ToolBlocksDispatch | apps/web/src/components/vscode/vscode-thread.tsx:267-361 | a terminal call renders the shell blocks of its round, an apply-patch call the patch of the round's first call, a replace-string call the round's replace edits, an internal edit call nothing, an insert-edit call the round's thinking then its insert edits, a text search its find block, a todo list its todo block |
| VSCodeThread.LaterToolBlocksDispatch | apps/web/src/components/vscode/vscode-thread.tsx:362-399 | a glob search renders the past-tense message or "glob search", a file read the round's read blocks; any other tool call renders the MCP block when its source is MCP, and otherwise the generic tool-call view, and the throwing `in` test throws |
| VSCodeThread.ReplaceStringEdits | apps/web/src/components/vscode/vscode-thread.tsx:296-310 | one replace edit per call of the round, in order, failing exactly when some call's arguments fail to parse |
| VSCodeThread.InsertEdits | apps/web/src/components/vscode/vscode-thread.tsx:322-332 | one insert edit per call of the round, in order, failing exactly when some call's arguments fail to parse |
| VSCodeThread.WalkResponse | apps/web/src/components/vscode/vscode-thread.tsx:231-403 | the walk over the response items equals the fold of the walk step followed by the final flush |
| VSCodeThread.WalkCountsToolCalls | apps/web/src/components/vscode/vscode-thread.tsx:259-265 | after any prefix the walk's counter is the number of tool calls in it |
| VSCodeThread.CountsAgree | apps/web/src/components/vscode/vscode-thread.tsx:165-179 | when every present `toolId` is truthy and no tool item has a string value, the pre-pass and the walk count the same items |
| VSCodeThread.Alignment | apps/web/src/components/vscode/vscode-thread.tsx:258-265 | under the same conditions the item at index i gets the round whose index is the number of earlier items with a `toolId` |
| VSCodeThread.TextRunAccumulates | apps/web/src/components/vscode/vscode-thread.tsx:241-244 | a run of text items only extends the pending text, by their values in order |
| VSCodeThread.ReferenceLeavesMarker | apps/web/src/components/vscode/vscode-thread.tsx:246-253 | an inline reference is remembered and appends the marker of its index among the references since the last flush |
| VSCodeThread.TaggedReferenceOnlyFlushes | apps/web/src/components/vscode/vscode-thread.tsx:246-256 | after the pre-pass an inline reference only flushes the pending text |
| VSCodeThread.TaggedThinkingBecomesText | apps/web/src/components/vscode/vscode-thread.tsx:232-244 | after the pre-pass a thinking item with a string value is shown as text, not as thinking |
| VSCodeThread.ResponseTextNonEmpty | apps/web/src/components/vscode/vscode-thread.tsx:181-182 | no rendered text block is empty: a flush of empty text emits nothing |
| VSCodeThread.PromptFiles | apps/web/src/components/vscode/vscode-thread.tsx:411-423 | as many files as variables of kind "file" or "image", each of those kinds; a `null` variable throws |
| VSCodeThread.PromptFilesChosen | apps/web/src/components/vscode/vscode-thread.tsx:411-423 | the files are the variables of kind "file" or "image", in variable order, each with that variable's id, name and kind |
| VSCodeThread.PromptBlock | apps/web/src/components/vscode/vscode-thread.tsx:407-425 | the prompt is shown exactly when the message text is non-empty, with those files |
| VSCodeThread.RenderRequest | apps/web/src/components/vscode/vscode-thread.tsx:157-437 | one request renders its prompt and its walked items, after the pre-pass |
| VSCodeThread.RenderThread | apps/web/src/components/vscode/vscode-thread.tsx:157-438 | every request is rendered, in order |
| VSCodeTools.ArgsText | apps/web/src/components/vscode/vscode-tool-read-file.tsx:18 | absent or empty argument text is read as `{}`; any other text is read as it is |
| VSCodeTools.Destructure | apps/web/src/components/vscode/vscode-tool-read-file.tsx:14-18 | destructuring succeeds exactly when the text parses to a value other than `null`; malformed text is a SyntaxError |
| VSCodeTools.ReadBlock | apps/web/src/components/vscode/vscode-tool-read-file.tsx:14-26 | a read block is made exactly when the arguments destructure; its path is `filePath ?? ""` and its extra text carries the start and end lines |
| VSCodeTools.ReadFileCall | apps/web/src/components/vscode/vscode-tool-read-file.tsx:8-30 | no round shows nothing; otherwise it fails exactly when some call's arguments fail, and shows exactly one read block per call, in call order, and no text |
| VSCodeTools.ReplaceCallsKeeps | apps/web/src/components/vscode/vscode-tool-call.tsx:12-13 | exactly the calls named `replace_string_in_file` are kept, and nothing else |
| VSCodeTools.ReplaceCallsAppend | apps/web/src/components/vscode/vscode-tool-call.tsx:12-13 | filtering a concatenation filters each part, so the kept calls stay in round order |
| VSCodeTools.ReplaceCallsAround | apps/web/src/components/vscode/vscode-tool-call.tsx:12-13 | a call is kept, in its place between the calls before and after it, exactly when it is a replace call |
| VSCodeTools.FileDiff | apps/web/src/components/vscode/vscode-tool-call.tsx:14-29 | an edit block exists exactly when the arguments parse to a non-null value (the exception is caught), and it carries that value's `filePath`, `oldString` and `newString` |
| VSCodeTools.FileDiffList | apps/web/src/components/vscode/vscode-tool-call.tsx:12-29 | one entry per replace call, position by position |
| VSCodeTools.FileDiffs | apps/web/src/components/vscode/vscode-tool-call.tsx:12-29 | no round gives no entries |
| VSCodeTools.FileDiffsInRoundOrder | apps/web/src/components/vscode/vscode-tool-call.tsx:12-29 | the k-th call of the round adds its own edit block (or `null`) exactly when it is a `replace_string_in_file` call, after the entries of the calls before it and before those of the calls after it |
| VSCodeTools.ToolCallView | apps/web/src/components/vscode/vscode-tool-call.tsx:10-37 | the view fails exactly when the tool view fails; otherwise it is the recovered edit blocks followed by the tool view given the round's response, with no text block |
| VSCodeTools.FileOperationLabel | apps/web/src/components/vscode/vscode-tool-use.tsx:81-93 | list directory, fetch webpage and create file get their own labels; every other tool reads "Read file" |
| VSCodeTools.StringOnly | apps/web/src/components/vscode/vscode-tool-use.tsx:59 | a string result is passed on and anything else is dropped |
| VSCodeTools.McpInput | apps/web/src/components/vscode/vscode-tool-use.tsx:34-36 | a falsy input gives none; a truthy one is parsed, and text that does not parse is a SyntaxError |
| VSCodeTools.OutputValues | apps/web/src/components/vscode/vscode-tool-use.tsx:38 | it fails exactly when some output is `null`; otherwise it gives one `value` per output, in order |
| VSCodeTools.McpOutput | apps/web/src/components/vscode/vscode-tool-use.tsx:37-40 | nullish details give none; details without an `output` array are a TypeError. With an array, the call fails exactly when an output is null, and otherwise gives the outputs' values joined with "\n" |
| VSCodeTools.TerminalCommand | apps/web/src/components/vscode/vscode-tool-use.tsx:47-55 | data that is absent, or that is not a terminal, gives the empty command; the `in` test throws on a primitive; terminal data gives `commandLine.original \|\| ""` |
| VSCodeTools.ToolUse | apps/web/src/components/vscode/vscode-tool-use.tsx:24-118 | an MCP source wins whatever the tool id, and is shown with its server label, tool name, parsed input and joined output or the result; then the terminal, then the four file operations with their label, then the raw invocation; never a text block |
| ClaudeThread.FindPart | apps/web/src/components/claude/utils.ts:19-21 | no part is found exactly when no part carries the id; a part that is found is one of the parts and carries the id |
| ClaudeThread.FindPartFirst | apps/web/src/components/claude/utils.ts:19-21 | the part found is the first part that carries the id |
| ClaudeThread.FindToolResult | apps/web/src/components/claude/utils.ts:11-31 | the loop returns what the scan from the start index gives: the content of the first matching part of a tool-result request, stopping at a prompt |
| ClaudeThread.ResultFound | apps/web/src/components/claude/utils.ts:16-23 | when only assistant requests and tool results without the id come before a tool-result request that holds it, the result is that part's content |
| ClaudeThread.ResultStopsAtPrompt | apps/web/src/components/claude/utils.ts:24-28 | a prompt reached before any match ends the scan with no result |
| ClaudeThread.ResultMissing | apps/web/src/components/claude/utils.ts:16-30 | with no match and no prompt up to the end, there is no result |
| ClaudeThread.GroupRequests | apps/web/src/components/claude/utils.ts:33-68 | the loop builds what the grouping function gives |
| ClaudeThread.GroupedShape | apps/web/src/components/claude/utils.ts:33-68 | groups are non-empty runs of assistant requests, never adjacent, and single entries are user requests; read in order, the entries are exactly the requests minus the tool results that arrive while a group is open |
| ClaudeThread.ShownKeepsAssistants | apps/web/src/components/claude/utils.ts:40-41 | every assistant request is shown exactly once, in its original order |
| ClaudeThread.ShownKeepsPrompts | apps/web/src/components/claude/utils.ts:53-60 | every prompt is shown |
| ClaudeThread.FindIndexById | src/components/claude/claude-assistant-group.tsx:35-37 | the first index whose id matches, with no match before it; -1 exactly when no request has the id |
| ClaudeThread.LookupStart | src/components/claude/claude-assistant-group.tsx:35-38 | the result lookup starts one past the first request with the id, or at 0 exactly when no request has it |
| ClaudeThread.ToolUseBlock | src/components/claude/claude-tool-use.tsx:12-74 | `Bash`, or any input with a `command` key, gives a shell view of the command or ""; then Read, Edit and Grep get their views from the input's fields and throw exactly when `input` is nullish; any other name gives the name-and-input fallback, with the result only when truthy; never a text block |
| ClaudeThread.TodoOf | src/components/claude/claude-tool-use.tsx:42-45 | a todo's content and status are passed through, and reading them from `null` throws |
| ClaudeThread.TodoWriteView | src/components/claude/claude-tool-use.tsx:38-49 | a TodoWrite without `todos` shows an empty list; otherwise it shows one todo per entry, in order, with content and status passed through |
| ClaudeThread.ContentBlock | apps/web/src/components/claude/claude-block.tsx:11-29 | thinking, text and tool_use blocks get their views; every other type renders nothing |
| ClaudeThread.ResultOnlyForToolUse | apps/web/src/components/claude/claude-block.tsx:11-29 | only a tool_use block depends on the result it is handed |
| ClaudeThread.GroupBlocksAppend | src/components/claude/claude-assistant-group.tsx:26-43 | rendering a group is rendering its requests one after another, in group order |
| ClaudeThread.GroupView | src/components/claude/claude-assistant-group.tsx:11-47 | an empty group renders nothing; any other group renders the blocks of its requests |
| ClaudeThread.UserView | apps/web/src/components/claude/claude-user-message.tsx:11-42 | a prompt gives the user prompt view; an orphan tool result gives one entry per part, holding that part's content; anything else renders nothing |
| ClaudeThread.ResultEntries | apps/web/src/components/claude/claude-user-message.tsx:29-36 | one entry per tool-result part, in order |
| ClaudeThread.EntriesView | src/components/claude/claude-thread.tsx:23-42 | the thread renders exactly when every entry renders, and shows at most one turn per entry |
| ClaudeThread.EntryView | src/components/claude/claude-thread.tsx:25-41 | a non-empty group is one assistant turn of its blocks and an empty group nothing; a single request is one user turn exactly when the user message shows anything |
| ClaudeThread.EntriesViewAppend | src/components/claude/claude-thread.tsx:23-42 | the turns of a run of entries are those of its first part followed by those of the rest, so turns follow entry order |
| ClaudeThread.EntriesViewOne | src/components/claude/claude-thread.tsx:23-42 | one entry shows its own turn, or nothing when it renders nothing, and throws when it throws |
| ClaudeThread.SampleGrouping | src/components/home/TerminalPreview.tsx:19-154 | in the home page's sample thread the prompt stands alone, and the three assistant requests form one group that absorbs the tool result |
| ClaudeThread.SampleCommandResult | src/components/home/TerminalPreview.tsx:57-102 | the sample's install command, made by the third request, looks for its result from index 3 and finds the install's output |
| Paths.LastSegmentAfterSlash | apps/web/src/components/thread/tool-read-block.tsx:24 | the last piece of `split("/")` is exactly the text after the last `/` |
| Paths.ShortNameSpec | apps/web/src/components/thread/tool-read-block.tsx:24 | the short name is the text after the last `/`; a path without `/` is its own short name; an empty last segment (a trailing `/` or the empty path) falls back to the whole path |
| Paths.ReadBlockView | apps/web/src/components/thread/tool-read-block.tsx:17-59 | one badge holding the short name; the caption defaults to "Read" only when none is given; a preview exactly for non-empty content |
| Paths.ErrorBadges | apps/web/src/components/thread/tool-get-errors-block.tsx:24-38 | one badge per path, in order; a path starting with "http" is shown whole, any other by its short name |
| Paths.ErrorsBlockView | apps/web/src/components/thread/tool-get-errors-block.tsx:17-68 | the badges of all paths; the caption defaults to "Check errors" only when none is given; a preview exactly for non-empty content |
| Paths.AfterLastSlashPlain | packages/cli/src/providers/codex.ts:80 | a base name holds no `/` |
| Paths.BasenameOfPlainName | packages/cli/src/providers/codex.ts:80 | a name without `/` is its own base name |
| Paths.BasenameWithout | packages/cli/src/providers/codex.ts:124 | a path equal to the extension gives ""; otherwise a base name ending in the extension, and longer than it, is the result followed by the extension, and any other base name is kept whole; the result never holds a `/` |
| Paths.SessionFileName | packages/cli/src/providers/codex.ts:124 | a session file `dir/name.jsonl` falls back to the session id `name` |
| StableSort.SortInPlace | packages/cli/src/providers/cursor.ts:296-299 | the array ends up holding the input sorted by the key, equal keys in input order |
| StableSort.InsertAt | packages/cli/src/providers/cursor.ts:296-299 | one insertion step puts the element into the sorted run before it and leaves the rest of the array alone |
| StableSort.SortSorted | packages/cli/src/providers/cursor.ts:296-299 | the result is sorted by the key |
| StableSort.SortPermutes | packages/cli/src/providers/cursor.ts:296-299 | the result is a permutation of the input |
| StableSort.SortStable | packages/cli/src/providers/cursor.ts:296-299 | for every key, the elements with that key keep their input order |
| CodexSessions.LineRecord | packages/cli/src/providers/codex.ts:251-263 | a line gives a record exactly when it is not blank, parses, and is not `null`; the record is the parsed value |
| CodexSessions.ParseJSONLRecords | packages/cli/src/providers/codex.ts:251-263 | a value is a record of the file exactly when some non-blank line parses to it and it is not `null` |
| CodexSessions.ParseJSONLAppend | packages/cli/src/providers/codex.ts:251-263 | lines are read independently: the records of two chunks joined by a newline are those of the first, then those of the second |
| CodexSessions.NormalizePreview | packages/cli/src/providers/codex.ts:238-249 | a preview exists exactly for a string whose trimmed text is non-empty and does not start with `<environment_context>`, and it is that trimmed text |
| CodexSessions.PreviewFixpoint | packages/cli/src/providers/codex.ts:238-249 | normalising a preview gives it back, so normalising twice is normalising once |
| CodexSessions.ContentText | packages/cli/src/providers/codex.ts:197-236 | whatever the content's shape, anything it yields is a normalised preview |
| CodexSessions.ItemsTextScan | packages/cli/src/providers/codex.ts:206-221 | the early-returning scan over an array yields what the leftmost search for an element with a preview finds |
| CodexSessions.ItemsTextFirst | packages/cli/src/providers/codex.ts:206-221 | an array yields the preview of its first element that has one |
| CodexSessions.ItemsTextNone | packages/cli/src/providers/codex.ts:206-221 | an array none of whose elements has a preview yields nothing |
| CodexSessions.ExtractTextFromContent | packages/cli/src/providers/codex.ts:197-236 | the early-returning recursive scan returns the content's preview as defined |
| CodexSessions.UserMessage | packages/cli/src/providers/codex.ts:152-195 | a user message of any of the four record shapes yields a normalised preview |
| CodexSessions.EnvironmentEventIgnored | packages/cli/src/providers/codex.ts:159-166 | an `event_msg` record flagged as environment context is never a user message |
| CodexSessions.OtherRecordsIgnored | packages/cli/src/providers/codex.ts:152-195 | a record of any other type is never a user message |
| CodexSessions.Timestamp | packages/cli/src/providers/codex.ts:137-150 | no timestamp without a truthy value in one of the four places; the record's own `timestamp` is tried first |
| CodexSessions.CreateSessionFromEntries | packages/cli/src/providers/codex.ts:54-135 | the loop over the records and the final entry give the listing entry of the records |
| CodexSessions.ScanMessages | packages/cli/src/providers/codex.ts:103-109 | the loop counts the user messages and keeps the first one's preview cut to 60 characters |
| CodexSessions.ScanSessionId | packages/cli/src/providers/codex.ts:68-74 | the session id is the first id a record offers, a `session_meta` payload id before the record's own |
| CodexSessions.ScanWorkspace | packages/cli/src/providers/codex.ts:76-81 | the workspace is the first non-empty `cwd` of a `session_meta` record, and its name is that path's base name |
| CodexSessions.ScanEarliest | packages/cli/src/providers/codex.ts:97-101 | `earliest` is the least timestamp seen, and stays infinite when there is none |
| CodexSessions.ScanLatest | packages/cli/src/providers/codex.ts:97-101 | `latest` is the greatest of 0 and the timestamps seen |
| CodexSessions.CreateSessionSpec | packages/cli/src/providers/codex.ts:112-135 | no entry exactly when no record is a user message; otherwise the count, the title, the first id or the file's base name without `.jsonl`, the earliest timestamp (or now) as creation date, and the latest positive one (or the creation date) as last message date |
| CodexSessions.TitleNotEmpty | packages/cli/src/providers/codex.ts:106-127 | a listed session's title is a non-empty preview of at most 60 characters, so the "Codex Chat" fallback is never reached |
| CodexSessions.SpreadFields | packages/cli/src/providers/codex.ts:51 | after spreading, each key holds the last value the spread properties give it, and otherwise keeps its earlier value |
| CodexSessions.ParseSessionSpec | packages/cli/src/providers/codex.ts:47-52 | the opened session holds every record after the first under `messages`; the first record's own `sessionId`, when it has one, overrides the listing's |
| CodexThread.FunctionOutputs | apps/web/src/components/codex/codex-thread.tsx:25-36 | the loop builds the map of outputs by call id, set in record order |
| CodexThread.OutputsDomain | apps/web/src/components/codex/codex-thread.tsx:25-36 | a call id has an output exactly when some `function_call_output` record carries one for it |
| CodexThread.OutputsLast | apps/web/src/components/codex/codex-thread.tsx:25-36 | the output kept for an id is the one its last output record carries, wherever that record stands |
| CodexThread.ParseArguments | apps/web/src/components/codex/codex-thread.tsx:185-192 | absent, empty or malformed arguments give `{}`; otherwise the parsed value |
| CodexThread.PlanItemOf | apps/web/src/components/codex/codex-thread.tsx:198-209 | an entry is kept exactly when it is an object with a non-empty string step; its status is the string `status` or "pending" |
| CodexThread.ExtractPlanItems | apps/web/src/components/codex/codex-thread.tsx:194-211 | a non-array gives no items; an array gives the kept entries in order |
| CodexThread.PlanItemsSpec | apps/web/src/components/codex/codex-thread.tsx:194-211 | a step is shown exactly when some entry of the plan yields it, and no shown step is empty |
| CodexThread.UntrackedView | apps/web/src/components/codex/codex-thread.tsx:284-309 | nothing for an empty list; otherwise the full count, at most the first five entries, and an ellipsis exactly when entries are left out |
| CodexThread.GhostBlock | apps/web/src/components/codex/codex-thread.tsx:269-312 | the snapshot shows the commit id, and a parent line exactly for a non-empty parent |
| CodexThread.Shown | apps/web/src/components/codex/codex-thread.tsx:251-255 | an output line exactly for a non-empty output |
| CodexThread.CallBlock | apps/web/src/components/codex/codex-thread.tsx:116-160 | a shell call shows its string command or "shell_command" with the output; a plan update with no items shows nothing; any other call shows its name, arguments and output; reading `null` arguments throws |
| CodexThread.ShellExplanation | apps/web/src/components/codex/codex-thread.tsx:119-124 | the explanation is the description, else `cwd: ` and the working directory, else none |
| CodexThread.RenderMessages | apps/web/src/components/codex/codex-thread.tsx:38-176 | the walk over the records and the final flush give the rendered nodes |
| CodexThread.RenderMessage | apps/web/src/components/codex/codex-thread.tsx:52-172 | one record's callback updates the nodes and the open bubble as its items say |
| CodexThread.RenderText | apps/web/src/components/codex/codex-thread.tsx:59-91 | an empty text adds nothing; a user text adds a prompt unless it is environment context; any other text adds a text block |
| CodexThread.RenderReasoning | apps/web/src/components/codex/codex-thread.tsx:100-107 | one thinking block per thought, in order |
| CodexThread.ApplyAssistant | apps/web/src/components/codex/codex-thread.tsx:82-160 | assistant blocks are only added to the open bubble |
| CodexThread.RenderedSpec | apps/web/src/components/codex/codex-thread.tsx:38-176 | grouping loses, adds and reorders nothing: the nodes show exactly the records' items, in record order; the rendering throws exactly when a record's does; bubbles are never empty and never adjacent |
| CodexThread.EnvironmentContextIgnored | apps/web/src/components/codex/codex-thread.tsx:68-79 | a user message that is environment context neither shows nor closes the open bubble |
| CodexThread.UserMessageCloses | apps/web/src/components/codex/codex-thread.tsx:68-79 | any other non-empty user message closes the open bubble, then shows its prompt |
| CodexThread.OtherRecordsIgnored | apps/web/src/components/codex/codex-thread.tsx:53-55 | records other than response items are not rendered |
| CodexThread.ReasoningThoughts | apps/web/src/components/codex/codex-thread.tsx:93-109 | reasoning adds one thinking block per non-empty summary text, in order |
| GeminiThread.Outputs | apps/web/src/components/gemini/gemini-thread.tsx:77-79 | one output per result fragment, in order |
| GeminiThread.ShellOutputs | apps/web/src/components/gemini/gemini-thread.tsx:123-129 | a shell fragment shows its output, or its error when the output is falsy |
| GeminiThread.TodoOf | apps/web/src/components/gemini/gemini-thread.tsx:100-103 | a todo's `description` becomes its content and its status passes through; reading `null` throws |
| GeminiThread.ToolCallBlockCases | apps/web/src/components/gemini/gemini-thread.tsx:60-150 | each of the six known tool names gets its own view of the arguments and results; any other call shows its display name, description and status; only `write_todos` can throw, exactly when `todos` is not an array or holds `null` |
| GeminiThread.ThoughtBlocks | apps/web/src/components/gemini/gemini-thread.tsx:39-49 | one thinking block per thought, in order |
| GeminiThread.RenderModelMessage | apps/web/src/components/gemini/gemini-thread.tsx:36-164 | the pushes build the blocks of the model message |
| GeminiThread.PushThoughts | apps/web/src/components/gemini/gemini-thread.tsx:39-49 | a thinking block is appended per thought |
| GeminiThread.PushToolCalls | apps/web/src/components/gemini/gemini-thread.tsx:59-151 | a block is appended per call, in order, until one throws |
| GeminiThread.MessageEntry | apps/web/src/components/gemini/gemini-thread.tsx:25-166 | a user message shows its content as a prompt; a type other than "user" and "gemini" shows nothing |
| GeminiThread.ThreadEntries | apps/web/src/components/gemini/gemini-thread.tsx:25-166 | one entry per message |
| GeminiThread.ModelBlocksOrder | apps/web/src/components/gemini/gemini-thread.tsx:36-164 | thoughts first, in order, then the text when non-empty, then one block per tool call, in call order; it throws exactly when one of its calls does |
| GeminiThread.ThreadEntriesSpec | apps/web/src/components/gemini/gemini-thread.tsx:25-166 | every message's entry is at its position: a user prompt, a model message's blocks, or nothing |
| GeminiThread.ThreadThrows | apps/web/src/components/gemini/gemini-thread.tsx:25-166 | one tool call that throws makes the whole thread throw |
| GeminiSessions.MaxDate | packages/cli/src/providers/gemini.ts:123 | `Math.max` is NaN exactly when either date is NaN, and otherwise the larger of the two |
| GeminiSessions.Seed | packages/cli/src/providers/gemini.ts:112-118 | the loop starts from `lastUpdated`, else `startTime`, else 0 |
| GeminiSessions.FileSession | packages/cli/src/providers/gemini.ts:87-148 | a session comes only from a file ending in ".json" other than "logs.json", and records that file's path |
| GeminiSessions.FindSessions | packages/cli/src/providers/gemini.ts:87-149 | the loop over the chat files pushes the session of each kept file, in directory order |
| GeminiSessions.SummarizeChat | packages/cli/src/providers/gemini.ts:99-143 | the per-file body computes the summary of the parsed chat file, or skips or throws as it does |
| GeminiSessions.ScanMessages | packages/cli/src/providers/gemini.ts:120-131 | the loop gives the fold of the message step over the messages, or the first exception |
| GeminiSessions.TitleUnnamed | packages/cli/src/providers/gemini.ts:126-130 | with no user message whose content names the session, the title stays "Gemini Chat" |
| GeminiSessions.TitleNamed | packages/cli/src/providers/gemini.ts:126-130 | the title is the first 60 characters of the first user message that names the session |
| GeminiSessions.LatestBound | packages/cli/src/providers/gemini.ts:120-124 | a latest date that is not NaN bounds the seed and every dated message |
| GeminiSessions.LatestAttained | packages/cli/src/providers/gemini.ts:120-124 | the latest date is NaN exactly when the seed or a dated message is NaN; otherwise it is the seed or one message's date |
| GeminiSessions.SummarySkips | packages/cli/src/providers/gemini.ts:101-108 | a file is skipped exactly when `messages` is not an array or is empty |
| GeminiSessions.SummarySpec | packages/cli/src/providers/gemini.ts:133-143 | the count is the number of messages; the id is `sessionId` or the file name without ".json"; the creation date is `startTime` or the last date; the last date bounds the seed and every dated message; unnamed sessions keep the default title |
| GeminiSessions.SummaryTitle | packages/cli/src/providers/gemini.ts:126-137 | a listed session is titled after its first naming message |
| GeminiSessions.ListedFromConsidered | packages/cli/src/providers/gemini.ts:87-96 | every listed session comes from a considered file |
| GeminiSessions.SessionsAppend | packages/cli/src/providers/gemini.ts:87-149 | files are listed independently and in order |
| CursorSessions.SafeJsonParse | packages/cli/src/providers/cursor.ts:377-384 | absent or empty text gives `null`; JSON text gives its value; any other text is returned as it is |
| CursorSessions.NonEmpty | packages/cli/src/providers/cursor.ts:326-334 | a context list is copied exactly when it is present and non-empty |
| CursorSessions.MessageOf | packages/cli/src/providers/cursor.ts:302-337 | the message keeps the bubble's type, id, date and token count; its text is the bubble's or ""; a tool call exactly when the bubble has tool data, with both JSON texts read safely; each context list exactly when it is non-empty |
| CursorSessions.MessagesOf | packages/cli/src/providers/cursor.ts:302-337 | one message per bubble, in order |
| CursorSessions.SumAppend | packages/cli/src/providers/cursor.ts:340-353 | the counts and the token total add up over concatenation |
| CursorSessions.KindsPartition | packages/cli/src/providers/cursor.ts:340-353 | when every bubble has one of the three types, the user, assistant and metadata counts add up to the number of bubbles |
| CursorSessions.SumSorted | packages/cli/src/providers/cursor.ts:296-353 | sorting the bubbles changes no count and no total |
| CursorSessions.StatisticsOfSorted | packages/cli/src/providers/cursor.ts:296-353 | the statistics do not depend on the order of the bubbles |
| CursorSessions.StripFileScheme | packages/cli/src/providers/cursor.ts:85 | a leading "file://" is removed, and any other text is kept as it is |
| CursorSessions.WorkspaceOf | packages/cli/src/providers/cursor.ts:74-92 | the workspace path is set exactly when `workspace.json` has a truthy string `folder`, and is that folder without its scheme; the name is the path's base name and is unset with it |
| CursorSessions.RequestCount | packages/cli/src/providers/cursor.ts:136 | the length of the `requests` array, and 0 when it is absent |
| CursorSessions.ChatFileSession | packages/cli/src/providers/cursor.ts:129-161 | a chat session comes only from a ".json" file, never has a request count of 0, and is marked as a chat |
| CursorSessions.FindChatSessions | packages/cli/src/providers/cursor.ts:115-166 | the loop over the directory's files pushes each file's session, in order |
| CursorSessions.Iterate | packages/cli/src/providers/cursor.ts:211 | an array yields its elements; a value that is neither an array nor a string throws |
| CursorSessions.Chars | packages/cli/src/providers/cursor.ts:211 | a string yields one one-character string per character |
| CursorSessions.ComposerSession | packages/cli/src/providers/cursor.ts:212-247 | a composer session never has a bubble count of 0, is marked as a composer and points to the global database |
| CursorSessions.ComposerList | packages/cli/src/providers/cursor.ts:181-207 | no composers when the record or the global database is missing |
| CursorSessions.FindComposerSessions | packages/cli/src/providers/cursor.ts:168-256 | the loop over the composers pushes each composer's session, in order |
| CursorSessions.ListedNonEmpty | packages/cli/src/providers/cursor.ts:139-225 | no listed session has a request count of 0, and `parseSession` can open every listed session |
| CursorSessions.SessionRoute | packages/cli/src/providers/cursor.ts:258-271 | a chat is read from its file, a composer is rebuilt, and any other type throws "Unknown session type: " with the type |
| CursorSessions.ParseComposerSession | packages/cli/src/providers/cursor.ts:273-375 | sorting in place and rebuilding give the composer view of the bubbles |
| CursorSessions.ComposerViewSpec | packages/cli/src/providers/cursor.ts:293-370 | one message per bubble, in creation order; bubbles created at the same time keep their order; the sorted bubbles are a permutation of the rows; the statistics cover all the bubbles |
| CursorThread.ToolBlock | apps/web/src/components/cursor/cursor-thread.tsx:54-108 | read, edit or write, and terminal calls with truthy params get their views (the edit's new text is `edit_content`, else `content`); any other call, or one without params, gets the generic block |
| CursorThread.MessageEntry | apps/web/src/components/cursor/cursor-thread.tsx:24-124 | a `null` message throws; type 1 shows its text as a prompt; type 2 shows nothing exactly when it has neither text nor tool call, and otherwise its text first and its tool call last; any other type shows nothing |
| CursorThread.ThreadEntriesSpec | apps/web/src/components/cursor/cursor-thread.tsx:17-129 | rendering throws exactly when the thread is `null`, its messages are not an array, or one message is `null`; otherwise one entry per message, at its position |
| ThreadView.IdeOf | apps/web/src/components/thread/thread-view.tsx:21-32 | VS Code unless `__athrd.ide` names Claude, Gemini or Codex; a later test wins over an earlier one |
| ThreadView.RepoUrl | apps/web/src/components/thread/thread-view.tsx:105 | a link exactly for a truthy repository name, and it is "https://github.com/" followed by that name |
| ThreadView.ItemsFor | apps/web/src/components/thread/thread-view.tsx:37-79 | VS Code and Claude read `requests`, Gemini and Codex read `messages`; Claude and Gemini take a falsy list as empty; otherwise the list is used when it is an array and throws a TypeError when it is not; reading the list of a `null` thread throws |
| ThreadView.ViewThread | apps/web/src/components/thread/thread-view.tsx:25-93 | the `try` block gives the view of the file's content, empty content parsed as `{}` |
| ThreadView.CollectModels | apps/web/src/components/thread/thread-view.tsx:39-43 | the `forEach` collects the distinct picks of the items, or the first exception |
| ThreadView.CollectStep | apps/web/src/components/thread/thread-view.tsx:40-42 | each item's model joins the set unless it is already there |
| ThreadView.DistinctMembers | apps/web/src/components/thread/thread-view.tsx:43 | a model is listed exactly when some item has it |
| ThreadView.DistinctUnique | apps/web/src/components/thread/thread-view.tsx:43 | no primitive model is listed twice |
| ThreadView.DistinctPrefix | apps/web/src/components/thread/thread-view.tsx:43 | models are listed in first-occurrence order: the models of a prefix come first |
| ThreadView.ViewShown | apps/web/src/components/thread/thread-view.tsx:80-110 | a parsed thread is shown exactly when its IDE's list can be read and no item throws, and it is shown with that IDE; otherwise the error view |
| DiffLines.CountAppend | apps/web/src/components/thread/tool-patch-block.tsx:45-59 | line counts add up over concatenation |
| DiffLines.Displayed | apps/web/src/components/thread/tool-patch-block.tsx:65 | an expanded block shows every line; a collapsed one shows the first five, or all of them when there are fewer |
| DiffLines.MoreLines | apps/web/src/components/thread/tool-patch-block.tsx:122-132 | the "more lines" button appears exactly when a collapsed block hides lines, and counts exactly the hidden ones |
| PatchBlock.BodyLine | apps/web/src/components/thread/tool-patch-block.tsx:46-58 | "+" adds and "-" deletes, each without its first character; " " is context without it; any other line is context as it stands |
| PatchBlock.UpdatedPath | apps/web/src/components/thread/tool-patch-block.tsx:32-35 | the path is the rest of the update line, trimmed |
| PatchBlock.ParsePatchLines | apps/web/src/components/thread/tool-patch-block.tsx:23-63 | the loop gives the file path, the lines and both counters of the parsed patch |
| PatchBlock.DisplayPath | apps/web/src/components/thread/tool-patch-block.tsx:78 | the header shows "Unknown File" exactly when no path was found |
| PatchBlock.PatchCounts | apps/web/src/components/thread/tool-patch-block.tsx:45-59 | the counters are the numbers of added and deleted lines emitted |
| PatchBlock.PatchPath | apps/web/src/components/thread/tool-patch-block.tsx:32-35 | the file path is the one the last update line names, even inside the body |
| PatchBlock.PatchLines | apps/web/src/components/thread/tool-patch-block.tsx:31-60 | the body is open after the lines exactly when the last "@@" or "*** End Patch" line opened it; the emitted lines are one per non-marker line read while it is open, in order |
| PatchBlock.NoBodyNoLines | apps/web/src/components/thread/tool-patch-block.tsx:36-45 | without an "@@" line nothing is emitted |
| EditBlock.StripTrailingNewline | src/components/thread/tool-edit-block.tsx:39 | exactly one trailing newline is removed, if there is one |
| EditBlock.TaggedAt | src/components/thread/tool-edit-block.tsx:44-55 | one line of the change's kind per piece, in order |
| EditBlock.ConvertChanges | src/components/thread/tool-edit-block.tsx:34-57 | the `forEach` gives all changes' lines in change order, and the counters sum the line counts of the added and removed changes |
| EditBlock.ConvertChange | src/components/thread/tool-edit-block.tsx:38-57 | the callback for one change appends its lines, tagged with its kind, and adds its line count to the counter of its kind only |
| EditBlock.CountStep | src/components/thread/tool-edit-block.tsx:38-57 | one more change counted grows only its own kind's total, by its line count |
| EditBlock.PushLines | src/components/thread/tool-edit-block.tsx:44-46 | one line pushed per piece, in order |
| EditBlock.TaggedCount | src/components/thread/tool-edit-block.tsx:40-55 | a change adds its line count to its own kind only |
| EditBlock.EditCounts | src/components/thread/tool-edit-block.tsx:35-57 | the header's counters are the numbers of added and deleted lines shown |
| EditBlock.ChangeLines | src/components/thread/tool-edit-block.tsx:39-56 | a change's lines hold no newline and join back into its value without its final newline; an empty value makes exactly one empty line |
| FileDiff.Prefixed | src/components/thread/file-diff2.tsx:38-41 | each line keeps its text behind the prefix, one output line per input line |
| FileDiff.TextLines | src/components/thread/file-diff2.tsx:37-42 | an empty or absent text contributes no lines, a string one prefixed line per line, and any other value throws |
| FileDiff.DiffContent | src/components/thread/file-diff2.tsx:33-46 | no edits, or an empty list of them, give the empty text |
| FileDiff.EditLinesNoNewline | src/components/thread/file-diff2.tsx:36-43 | no line an edit contributes holds a newline |
| FileDiff.FlattenNoNewline | src/components/thread/file-diff2.tsx:35-44 | flattening the edits' lines keeps every line free of newlines |
| FileDiff.DiffContentLines | src/components/thread/file-diff2.tsx:33-46 | splitting the diff text at its newlines gives back exactly the edits' lines, in order |
| ThreadMessages.ToolCallView | src/components/thread/tool-call-render.tsx:16-42 | a truthy terminal command is shown as a command; otherwise the first truthy of the past-tense message, the invocation message, the tool name and "Tool invocation", with "completed" and "✓" exactly for a completed call, else "running" and "○" |
| ThreadMessages.LineCount | src/components/thread/thread.tsx:72 | an absent text counts no lines, a string one more than its newlines, and any other value throws |
| ThreadMessages.LineTotalOk | src/components/thread/thread.tsx:70-79 | the sum succeeds exactly when every edit's line count does |
| ThreadMessages.DiffViewOf | src/components/thread/thread.tsx:68-90 | the header sums the new texts' lines as additions and the old texts' lines as deletions, and keeps the path and the edits |
| ThreadMessages.Tools | src/components/thread/thread.tsx:60-65 | one tool view per call, in order |
| ThreadMessages.MessageViewOf | src/components/thread/thread.tsx:41-112 | a user message shows its text or ""; an assistant message shows its truthy text, then one view per tool call, one header per edit group and its attachments, and throws exactly when a group's line count throws; any other role is shown as a system message |
| ThreadMessages.ThreadViews | src/components/thread/thread.tsx:37 | one view per message, in order, and it fails exactly when some message's view does |
| ThreadMessages.TotalsMatchDiff | src/components/thread/thread.tsx:70-79 | when no text on a side is "" and none throws, the header's total is the number of diff lines that side shows |
| ThreadMessages.EmptyTextParts | src/components/thread/thread.tsx:72 | an empty text counts one line in the header while the diff shows none for it |
| ThinkingBlock.TitleOf | apps/web/src/components/thread/thinking-block.tsx:23-31 | a text without a leading "**" is its own title; with one, the title is the text up to the next "**", which occurs nowhere before it, or "Thinking" when there is none |
| ThinkingBlock.ThinkingHeader | apps/web/src/components/thread/thinking-block.tsx:19-59 | empty or absent thinking renders nothing; otherwise a truthy subject is shown, else the title from the text, and a non-string thinking throws |
| ThinkingBlock.BoldTitle | apps/web/src/components/thread/thinking-block.tsx:24-28 | a bold lead-in free of '*' is the title, whatever follows it |
| ThinkingBlock.UnclosedTitle | apps/web/src/components/thread/thinking-block.tsx:23-28 | an opening "**" with no closing one keeps the title "Thinking" |
| Base64.ValueOf | apps/web/src/components/thread/user-prompt.tsx:37 | a character's value maps back to that character in the alphabet |
| Base64.ValueOfSym | apps/web/src/components/thread/user-prompt.tsx:37 | every symbol of the alphabet reads back as its value and is never the padding character |
| Base64.EncodeLength | apps/web/src/components/thread/user-prompt.tsx:37 | the encoding has four characters per started group of three bytes |
| Base64.EncodeAlphabet | apps/web/src/components/thread/user-prompt.tsx:37 | every encoded character is in the alphabet or is "=", and "=" occurs only in the last two places |
| Base64.Ungroup | apps/web/src/components/thread/user-prompt.tsx:37 | splitting bytes into sextets and regrouping them gives the bytes back |
| Base64.Regroup | apps/web/src/components/thread/user-prompt.tsx:37 | regrouping sextets whose padding bits are zero and splitting them again gives the sextets back |
| Base64.DecodeFull | apps/web/src/components/thread/user-prompt.tsx:37 | a leading group of four alphabet characters decodes to three bytes before the rest |
| Base64.DecodeOne | apps/web/src/components/thread/user-prompt.tsx:37 | one byte padded with "==" decodes back to that byte |
| Base64.DecodeTwo | apps/web/src/components/thread/user-prompt.tsx:37 | two bytes padded with "=" decode back to those bytes |
| Base64.DecodeGroup | apps/web/src/components/thread/user-prompt.tsx:37 | the group of three bytes at the front decodes ahead of whatever follows |
| Base64.DecodeEncode | apps/web/src/components/thread/user-prompt.tsx:37 | decoding the encoding of any bytes gives those bytes back |
| Base64.EncodeDecode | apps/web/src/components/thread/user-prompt.tsx:37 | a text that decodes is the encoding of what it decodes to, so each byte string has exactly one encoding |
| Base64.EncodeLastOne | apps/web/src/components/thread/user-prompt.tsx:37 | a final group padded with "==" that decodes is re-encoded as itself |
| Base64.EncodeLastTwo | apps/web/src/components/thread/user-prompt.tsx:37 | a final group padded with one "=" that decodes is re-encoded as itself |
| Base64.FirstFour | apps/web/src/components/thread/user-prompt.tsx:37 | the first four characters of a text are its first group |
| Base64.EncodeFirstGroup | apps/web/src/components/thread/user-prompt.tsx:37 | a decoding text longer than one padded group starts with the encoding of its first three bytes |
| Base64.Btoa | apps/web/src/components/thread/user-prompt.tsx:37 | `btoa` throws exactly when a character is above 255; otherwise its output decodes to the character codes |
| Base64.Codes | apps/web/src/components/thread/user-prompt.tsx:32-36 | one byte per character, equal to its code |
| UserPrompt.ToUint8 | apps/web/src/components/thread/user-prompt.tsx:31 | a number is reduced modulo 256, null is 0, and a boolean is 1 or 0 |
| UserPrompt.ImageBytes | apps/web/src/components/thread/user-prompt.tsx:30-31 | one byte per value of the image object, in order, each converted as a Uint8Array element |
| UserPrompt.ToBytes | apps/web/src/components/thread/user-prompt.tsx:31 | one converted byte per value, in order |
| UserPrompt.Chars | apps/web/src/components/thread/user-prompt.tsx:34-36 | one character per byte, whose code is the byte |
| UserPrompt.FileContentOf | apps/web/src/components/thread/user-prompt.tsx:25-45 | there is a data URL exactly for an image with a value; it starts with "data:image/png;base64," and the rest decodes to the image's bytes |
| UserPrompt.FileContent | apps/web/src/components/thread/user-prompt.tsx:25-45 | the loop building the binary string gives the same data URL |
| UserPrompt.ImageUrlLength | apps/web/src/components/thread/user-prompt.tsx:30-38 | an image's data URL carries exactly four base64 characters per started group of three bytes, so `btoa` never throws on it |
| UserPrompt.BadgeOf | apps/web/src/components/thread/user-prompt.tsx:59-89 | a badge keeps the file name, shows the image icon exactly for an image and the file icon exactly for a file, and carries the file's data URL as its preview |
| UserPrompt.Badges | apps/web/src/components/thread/user-prompt.tsx:57-91 | one badge per file, in order, with a preview exactly for an image with a value |
| GitHub.IsThreadFile | apps/web/src/lib/github.ts:65 | the test throws unless the file has a string name, and is true exactly when that name starts with "athrd-" |
| GitHub.Find | apps/web/src/lib/github.ts:65 | a found file is one of the files and a thread file; nothing is found exactly when every file is looked at and none is one |
| GitHub.FindFirst | apps/web/src/lib/github.ts:65 | the file found is the first thread file, every earlier file passing without throwing; an error comes from the first file that throws |
| GitHub.FindThreadFile | apps/web/src/lib/github.ts:63-67 | a gist with no `files` throws; otherwise the search runs over the values of its files |
| GitHub.FetchGistOf | apps/web/src/lib/github.ts:29-61 | a failed response, a gist without a thread file or a failure gives nothing; otherwise the gist with its thread file, whose content, when truncated, is replaced by the downloaded text and nothing else changes |
| GitHub.HasThreadKey | apps/web/src/lib/github.ts:87 | a gist without files throws; otherwise the test is true exactly when some file key starts with "athrd-" |
| GitHub.AnyThreadKey | apps/web/src/lib/github.ts:87 | true exactly when some key starts with "athrd-" |
| GitHub.KeepThreadGists | apps/web/src/lib/github.ts:86-88 | the filter succeeds exactly when no gist throws, and then keeps the gists with a thread key and no other |
| GitHub.KeepChosen | apps/web/src/lib/github.ts:86-88 | the kept list is exactly the gists whose test is true, each once and in list order |
| GitHub.UserGistsOf | apps/web/src/lib/github.ts:69-93 | a failed response, a non-list or a throwing filter gives no gists; otherwise the filtered list, every kept gist having a thread key |
| GitHub.KeptInOrder | apps/web/src/lib/github.ts:86-88 | the gists kept from a prefix of the list are a prefix of those kept from the whole, so the order is kept |
| RemoteUrl.RunEnd | packages/cli/src/commands/me.ts:41 | the greedy run stops at the next stop character, or at the end of the text |
| RemoteUrl.MatchAtShape | packages/cli/src/commands/me.ts:41 | a match at a position follows "github.com" and ':' or '/' there, with a non-empty owner free of '/', a '/', and a non-empty repository free of '.' that ends at a '.' or at the end |
| RemoteUrl.FirstMatchLeftmost | packages/cli/src/commands/me.ts:41 | the match found is the leftmost one; there is none exactly when no position matches |
| RemoteUrl.ParseRemote | packages/cli/src/commands/me.ts:40-44 | the URL is kept unless it matches, and then `owner/repo` of the leftmost match is shown |
| RemoteUrl.RepoInfo | packages/cli/src/commands/me.ts:34-44 | a trimmed URL without a match is shown as it is |
| RemoteUrl.MatchShape | packages/cli/src/commands/me.ts:40-44 | what is shown after a match is an owner free of '/' and a repository free of '.' found right after the host and its separator |
| RemoteUrl.MatchOf | packages/cli/src/commands/me.ts:41 | an owner and a repository placed after the host and separator, the repository followed by '.' or the end, are what the pattern captures there |
| RemoteUrl.FirstMatchAt | packages/cli/src/commands/me.ts:41 | the leftmost match is at the first position that matches |
| RemoteUrl.HttpsRemote | packages/cli/src/commands/me.ts:38-44 | `https://github.com/owner/repo` followed by nothing or by a '.' gives `owner/repo` |
| RemoteUrl.SshRemote | packages/cli/src/commands/me.ts:39-44 | `git@github.com:owner/repo` followed by nothing or by a '.' gives `owner/repo` |
| RemoteUrl.HttpsOutput | packages/cli/src/commands/me.ts:33-44 | the output of `git` for an HTTPS remote, ending in ".git" and a newline, gives `owner/repo` |
| CommandName.LazyEnd | apps/web/src/components/claude/test_regex.js:17-19 | the lazy capture ends at the first closing tag, with no line terminator before it |
| CommandName.TagAtShape | apps/web/src/components/claude/test_regex.js:17-19 | a match at a position is an opening tag, a capture free of line terminators and of closing tags, and a closing tag |
| CommandName.FirstTagLeftmost | apps/web/src/components/claude/test_regex.js:17-19 | the match found is the leftmost one; there is none exactly when no position matches |
| CommandName.ReportOf | apps/web/src/components/claude/test_regex.js:21-30 | no match, or an empty capture, is reported as no match; SUCCESS exactly when the capture is "/iterate_plan"; otherwise FAILURE with the capture |
| CommandName.TagOf | apps/web/src/components/claude/test_regex.js:17-19 | text between the tags free of '<' and of line terminators is the capture when no tag opens earlier |
| CommandName.LazyEndAt | apps/web/src/components/claude/test_regex.js:18 | the lazy capture ends at the first closing tag when no line terminator comes first |
| CommandName.FirstTagAt | apps/web/src/components/claude/test_regex.js:17-19 | the leftmost match is at the first position that matches |
| CommandName.SampleSucceeds | apps/web/src/components/claude/test_regex.js:15-24 | the sample message's capture is "/iterate_plan", so the script reports SUCCESS |
| RemoteUrl.NoHostUnchanged | packages/cli/src/commands/me.ts:40-44 | a URL in which "github.com" never occurs is shown unchanged |
| CommandName.NoTagNoMatch | apps/web/src/components/claude/test_regex.js:21-30 | a message without an opening tag is reported as no match |

## Left out

- Directory walks, file reads and database queries: the Codex directory walk (packages/cli/src/providers/codex.ts:11-45), the Cursor workspace loop and its SQLite queries (packages/cli/src/providers/cursor.ts:58-113) and the Gemini project loop (packages/cli/src/providers/gemini.ts:16-86) are I/O; the model starts from the files' contents and the query results, given as inputs.
- Gemini's SHA-256 workspace-hash resolution is a call into a crypto library; the resolved workspace path is an input.
- `new Date(x).getTime()` is the parameter `toTime` and `Date.now()` the parameter `now`; timestamps are integers, and date parsing is not modelled.
- `JSON.parse` is a parameter, and so is its failure; `JSON.stringify` is never computed: the fallback views carry the value that would be stringified.
- The `fetch` calls of apps/web/src/lib/github.ts are network I/O: the response's `ok` flag, its parsed body and the raw-file download (`fetchRaw`) are inputs. `fetchGist` assigns the downloaded text to the file object in place; the model returns a new file value, so the aliasing with `json.files` is not captured.
- The `git remote get-url origin` call and the Octokit user lookup of packages/cli/src/commands/me.ts are left out; the command's standard output is an input.
- The regular expressions are modelled only for the two patterns used (packages/cli/src/commands/me.ts:41, apps/web/src/components/claude/test_regex.js:18), as the leftmost-match search of a backtracking matcher; no general regex engine is modelled.
- The `diff` library's `diffLines` is a foreign library: its `Change` list is the input of the edit block.
- `Number(v)` of a non-numeric image byte value is the parameter `toNumber` (with NaN as 0); `btoa` is the modelled base64 encoder, and its exception for characters above 255 is an error path that bytes never reach.
- Strings are sequences of code points, not of UTF-16 code units: `length`, `substring` and the 60-character title cut differ from JavaScript on text outside the Basic Multilingual Plane.
- NonEmptyLength: a `length` property of a variables object that is not a number (the string "2", `true`) is taken as not positive, while JavaScript would convert it to a number before comparing; number conversion of strings is not modelled.
- Numbers are integers; fractional JSON numbers and floating point (Navbar's `formatStars`) are not modelled.
- `Object.keys`/`Object.values` follow the order the fields were written in; JavaScript's rule that integer-like keys come first in ascending order is not modelled.
- React rendering is not modelled: markdown, hover cards, collapse state (an input of `DiffLines`), clipboard, React's rendering of a falsy number and the system message's `html`.
- VSCodeThread.PrePass: `call.result` is filled in on a copy of each round, not on the shared round objects, so aliasing between items is not captured.
- CursorSessions.ParseComposerSession: the optional fields set on each `message` object are part of the built value rather than set in place.
- Authentication, the server actions and database, the CLI's command registry and update notifier, and presentation-only components hold no modelled logic.
- The older copies under src/ of the VS Code walker, tool call rendering and `findAthrdFile` are superseded by the apps/web/ versions modelled here.
- The type declaration files hold no behaviour; they shape the datatypes. src/components/home/TerminalPreview.tsx is mock data, used as the sample of `ClaudeThread.SampleGrouping` and `ClaudeThread.SampleCommandResult`.
