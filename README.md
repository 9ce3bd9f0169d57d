# Your Genie chat core, modelled in Dafny

Your Genie is a chat assistant with three parts. A Node/Express route answers a user's prompt
with a generated reply. Each reply costs one unit of the user's token quota. The route also
records the prompt in a bounded per-user history. A React client sends prompts, shows answers
and their web sources, and exports a conversation to PDF. A sidebar lists past prompts with
their relative age.

This project models the core of those three parts:

- `chat_route.dfy` (module `ChatRoute`) models the two handlers of `backend-node/routes/chat.js`:
  - POST / runs one chat turn: token, user and quota guards; a best-effort web search whose
    hits become the context and the sources; prompt composition; generation; then, only
    after generation succeeds, a quota decrement, a history entry capped at 50, and the save.
  - GET /history lists the stored prompts newest first.

  The user document that the handler changes in place is the class `UserDocument`. The
  persisted store is the class `UserCollection`. Each handler returns the reply and the
  sequence of collaborator calls it made, so that "nothing further was attempted" can be
  stated. The pure function `ChatTurn` describes a whole turn, and the method `PostChat` is
  proved equal to it.
- `chat_component.dfy` (module `ChatComponent`) models the helpers of
  `frontend/src/components/Chat.jsx`:
  - the character-level tail of `markdownToStructuredText`: drop `>` with the whitespace
    after it, blank the pipes, delete stray characters, collapse newline runs, trim;
  - the line classification loop of `addStructuredContent`;
  - the source filter and link labels of `BotMessage`;
  - the status-to-text mapping;
  - `sendMessage`, as the class `ChatView` whose fields are the component's state and the
    effects it has on its parent and the router.
- `history_sidebar.dfy` (module `HistorySidebar`) models `formatDate`'s bucketing, the
  60-character preview, the list rows, item selection and `fetchHistory`'s state updates
  (class `Sidebar`).
- `common.dfy` (`Common`), `text.dfy` (`Text`) and `jsvalues.dfy` (`JsValues`) supply:
  - sequences: option values, filter, subsequence, reverse, keep-last;
  - JavaScript string operations: `trim`, `split`, `join`, number printing;
  - JavaScript values: truthiness, `||`, property reads, template-literal text.

The collaborators are parameters. The JWT check is a `Credential` (absent, rejected, or
naming a user). The search is a `SearchOutcome`, the generation a `GenOutcome`, and the
database write a boolean. On the client, the HTTP call is a `PostOutcome` or `FetchOutcome`,
the clock is an elapsed time in milliseconds, and the locale's date text is a parameter.

A token that fails verification makes `jwt.verify` throw inside the handler's `try`, so the
reply is 500 "Server Error". Only a missing token gives 401.

## Model

| member | source | states |
|---|---|---|
| ChatRoute.ChatTurn | backend-node/routes/chat.js:26-118 | A turn keeps the same set of stored users. A record changes only when it is the caller's, the caller holds a token for a stored user with a positive counter, generation produced text, and the save went through. |
| ChatRoute.ChatTurnRefusals | backend-node/routes/chat.js:27-42 | The guards run in order. No token gives 401 with no call and no change. A rejected token gives 500 after only the verification. An unknown user gives 404, and a counter at or below zero gives 403, after only verification and lookup, with no search, no generation and no change. Every status other than 500 means the turn was not permitted. |
| ChatRoute.ChatTurnPermitted | backend-node/routes/chat.js:44-117 | A permitted turn always verifies, looks up, searches with the prompt, then generates with the composed user part. If generation throws, the reply is 500 with no save and no change. Otherwise the save is attempted. A failed save gives 500 and leaves the records as they were. A successful save answers with the text, the decremented counter and the search's sources, and replaces exactly the caller's record by its state after the turn. |
| ChatRoute.PostChat | backend-node/routes/chat.js:26-118 | POST / on the store: the reply, the calls made and the new store contents are exactly what ChatTurn gives for the old contents. |
| ChatRoute.Authorize | backend-node/routes/chat.js:27-42 | The shared guards in order: 401 with no call; 500 after verification; 404 after lookup; and, when quota is checked, 403. A document is returned exactly when every guard passes, and it is fresh and holds the stored record. |
| ChatRoute.RunTurn | backend-node/routes/chat.js:100-117 | After the guards and the search step: the reply, the calls and the new store are exactly what Attempt gives for the old store. The document is changed and saved only after generation succeeds. |
| ChatRoute.PrepareTurn | backend-node/routes/chat.js:47-68 | The search step yields the turn's user part and sources. Without usable hits, the user part is the bare prompt and there are no sources. |
| ChatRoute.Commit | backend-node/routes/chat.js:104-110 | The document loses one token and records the prompt, as AfterTurn says. The store takes the changed record exactly when the save goes through and is otherwise untouched. |
| ChatRoute.GetHistory | backend-node/routes/chat.js:9-24 | 401, 500 or 404 as for a turn. For a stored user the reply lists the stored history (empty when absent) reversed: entry i of the reply is entry n-1-i of the history. Nothing is changed. |
| ChatRoute.NewestFirstAfterTurn | backend-node/routes/chat.js:18 | Right after a turn, the history read starts with the new entry, followed by the older retained entries from newest to oldest. |
| ChatRoute.AppendCappedShape | backend-node/routes/chat.js:106-108 | The new history is (old history + entry) with the oldest surplus cut. It has at most 50 entries and ends with the entry as given. Below 50 it is old + entry; at exactly 50 the single oldest entry is dropped. |
| ChatRoute.AppendCappedKeepsOrder | backend-node/routes/chat.js:106-108 | Every retained entry is an old entry at a fixed offset, so retained entries keep their relative order. |
| ChatRoute.AfterTurnEffect | backend-node/routes/chat.js:104-108 | A turn on a positive counter uses exactly one unit and leaves it non-negative. The history is present, has between 1 and 50 entries, and ends with the new entry. |
| ChatRoute.Attempt | backend-node/routes/chat.js:100-117 | The turn after the guards, as a value: a throwing generation gives 500 after the search and the generation only. Otherwise the save is attempted, a failed save gives 500, and a successful one answers and stores AfterTurn of the caller's record. Its consequences are stated by ChatTurnPermitted. |
| ChatRoute.MayTurn | backend-node/routes/chat.js:27-42 | A turn may proceed exactly when there is a token naming a stored user whose counter is positive. ChatTurnRefusals and ChatTurnPermitted are stated in terms of it. |
| ChatRoute.AppendCapped | backend-node/routes/chat.js:106-108 | The history push followed by `slice(-50)` when over 50. Its shape is proved by AppendCappedShape and AppendCappedKeepsOrder. |
| ChatRoute.AfterTurn | backend-node/routes/chat.js:104-108 | The caller's record after a turn: one unit fewer and the capped history with the new entry. AfterTurnEffect states what that means. |
| ChatRoute.UserDocument.ConsumeToken | backend-node/routes/chat.js:104 | The counter drops by one and the history is unchanged. |
| ChatRoute.UserDocument.RecordPrompt | backend-node/routes/chat.js:106-108 | An absent history defaults to empty, the entry is pushed, and the last 50 entries are kept. The counter is unchanged. |
| ChatRoute.UserDocument.Load | backend-node/routes/chat.js:34 | The loaded document holds the stored record. |
| ChatRoute.UserCollection.FindById | backend-node/routes/chat.js:34-38 | The lookup yields a fresh document holding the stored record exactly when the id is stored, and null otherwise. |
| ChatRoute.UserCollection.Save | backend-node/routes/chat.js:110 | A successful write replaces the stored record by the document. A failed one keeps the store as it was. |
| ChatRoute.UserCollection.constructor | backend-node/routes/chat.js:4 | The store holds the given records. |
| ChatRoute.HitsUsable | backend-node/routes/chat.js:58-60 | The search gives a context exactly when it succeeded with a non-empty result list whose hits can all be read. SearchContextOf and CitedHits are stated in terms of it. |
| ChatRoute.IsCitable | backend-node/routes/chat.js:62 | The source filter: a truthy `url` that is a string starting with "http". CitedHits proves that the sources are exactly the citable hits. |
| ChatRoute.ToSource | backend-node/routes/chat.js:63 | A cited hit becomes its title when truthy, "Source" otherwise, with its string url. SourcesOf states this for every source. |
| ChatRoute.HitText | backend-node/routes/chat.js:60 | A hit's context block starts with "Title: ". |
| ChatRoute.SearchContextOf | backend-node/routes/chat.js:58-60 | The search context is empty exactly when the search failed, gave no results, or a hit could not be read. |
| ChatRoute.CitedHits | backend-node/routes/chat.js:61-62 | The cited hits are a subsequence of the results, each one citable (a truthy string url starting with "http"). Every citable result is among them. There are none without usable hits. |
| ChatRoute.SourcesOf | backend-node/routes/chat.js:61-63 | There is one source per cited hit, in order. Each url is the hit's string url and starts with "http". The title is the hit's own title when truthy and "Source" otherwise. There are none when the search failed or was empty. |
| ChatRoute.UserPart | backend-node/routes/chat.js:94-96 | Without context the user part is the prompt. With context it holds the context right after the preamble and ends with the prompt. |
| ChatRoute.UserPartIsPromptIffNoHits | backend-node/routes/chat.js:94-96 | The user part is the bare prompt exactly when the search gave nothing usable. |
| ChatRoute.FullPrompt | backend-node/routes/chat.js:73-98 | The generation request is the fixed instruction composed with the user part. Compose states its shape. |
| ChatRoute.Compose | backend-node/routes/chat.js:98 | The request starts with the instruction and ends with the fixed "Genie (...):" suffix. The user part can be cut back out between the heading and the suffix, and the length is the sum of the pieces. |
| ChatComponent.MarkdownToStructuredText | frontend/src/components/Chat.jsx:10-28 | The result is "" for a missing, empty or non-string input. Whatever the Markdown rewrites produce, the output has no "\|", no ">", no stray character, no three newlines in a row, and no whitespace at either end. |
| ChatComponent.CleanUp | frontend/src/components/Chat.jsx:23-27 | The character passes, in order, leave no "\|", no ">", no stray character, no three newlines in a row, and no whitespace at either end. |
| ChatComponent.CleanUpIdempotent | frontend/src/components/Chat.jsx:23-27 | Cleaning up cleaned text changes nothing. |
| ChatComponent.CollapsedIsClean | frontend/src/components/Chat.jsx:23-26 | Before the trim, the text has no pipe, quote mark or stray character. |
| ChatComponent.TrimKeepsClean | frontend/src/components/Chat.jsx:27 | Trimming keeps a clean text clean, including the absence of three newlines in a row. |
| ChatComponent.StripQuoteMarks | frontend/src/components/Chat.jsx:23 | No ">" survives, the text does not grow, and no character is introduced. StripQuoteRun and StripPlainPrefix say exactly what is removed. |
| ChatComponent.StripQuoteRun | frontend/src/components/Chat.jsx:23 | A ">" together with all the whitespace after it disappears, and the pass carries on from the next other character. |
| ChatComponent.StripPlainPrefix | frontend/src/components/Chat.jsx:23 | Text without ">" passes through unchanged, whatever follows it. |
| ChatComponent.StripKeepsVisible | frontend/src/components/Chat.jsx:23 | Only ">" and whitespace are removed: the other characters survive, in order. |
| ChatComponent.NoQuoteMarksUnchanged | frontend/src/components/Chat.jsx:23 | A text without ">" passes unchanged. |
| ChatComponent.BlankPipes | frontend/src/components/Chat.jsx:24 | Same length and no "\|" in the result. Every other character stays in its place. |
| ChatComponent.CollapseNewlines | frontend/src/components/Chat.jsx:26 | The result is no longer than the input, is empty exactly when the input is, and keeps the first two characters. CollapseRuns states what happens to each newline run. |
| ChatComponent.CollapseNewlineFirst | frontend/src/components/Chat.jsx:26 | A leading newline is dropped exactly when two more newlines follow it. |
| ChatComponent.CollapseRun | frontend/src/components/Chat.jsx:26 | A leading run of k newlines becomes two newlines when k is 3 or more and stays as it is otherwise. The rest is collapsed on its own. |
| ChatComponent.CollapseSplits | frontend/src/components/Chat.jsx:26 | Collapsing a text cut after a character other than a newline is collapsing the two pieces separately. |
| ChatComponent.CollapseRuns | frontend/src/components/Chat.jsx:26 | `/\n{3,}/g` to two newlines: a whole run of three or more newlines between other characters becomes exactly two, a shorter run is kept, and the text on either side is collapsed independently. |
| ChatComponent.CollapseIsSubsequence | frontend/src/components/Chat.jsx:26 | Collapsing only deletes: the result is a subsequence of the input. |
| ChatComponent.CollapseLeavesNoTriple | frontend/src/components/Chat.jsx:26 | No three newlines in a row survive. |
| ChatComponent.CollapseKeepsText | frontend/src/components/Chat.jsx:26 | Only newlines are removed: the other characters stay, in order. |
| ChatComponent.CollapseFixedPoint | frontend/src/components/Chat.jsx:26 | The pass changes a text exactly when it has three newlines in a row. |
| ChatComponent.BlankPipesKeepsPlain | frontend/src/components/Chat.jsx:24 | Blanking pipes keeps every character that is not a pipe, a quote mark, whitespace or stray, in order. |
| ChatComponent.TrimKeepsPlain | frontend/src/components/Chat.jsx:27 | Trimming keeps every character that is not whitespace, a pipe, a quote mark or stray, in order. |
| ChatComponent.CleanUpKeepsText | frontend/src/components/Chat.jsx:23-27 | The clean-up removes or blanks only quote marks, pipes, stray characters, surplus newlines and outer whitespace: every other character of the text survives, in order. |
| ChatComponent.SliceKeepsNoTripleNewline | frontend/src/components/Chat.jsx:26-27 | A piece of a text without three newlines in a row has none either. |
| ChatComponent.IsBlank | frontend/src/components/Chat.jsx:58-59 | `!line.trim()`: the line trims to "". TrimEmptyIffBlank shows this is "all whitespace". |
| ChatComponent.LaidOut | frontend/src/components/Chat.jsx:57-67 | What one loop iteration does with line i: a blank line is a skip of 0.8 line heights; any other line is drawn trimmed, bold at 11 exactly for a section header (10 otherwise), indented 10 exactly for bullet or numbered form. StepFor and LayOutLines are stated through it. |
| ChatComponent.StepFor | frontend/src/components/Chat.jsx:57-67 | One loop iteration lays out line i. A blank line only advances by 0.8 line heights. Any other line is drawn trimmed, bold at size 11 exactly when it is a section header (plain 10 otherwise), indented 10 exactly when it has bullet or numbered form. |
| ChatComponent.LayOutLines | frontend/src/components/Chat.jsx:55-68 | The loop produces one step per line of the text, each laid out as StepFor states. |
| ChatComponent.IsBulletForm | frontend/src/components/Chat.jsx:65 | The bullet test on the trimmed-start line: the bullet, then a whitespace character. BulletFormMatches ties it to the regular expression. |
| ChatComponent.BulletFormMatches | frontend/src/components/Chat.jsx:65 | The test holds exactly when `/^\s*\u2022\s/` matches: some run of leading whitespace, then the bullet and a whitespace character. |
| ChatComponent.IsNumberedForm | frontend/src/components/Chat.jsx:65 | The numbered test on the trimmed-start line: digits, a dot and a whitespace character. NumberedFormMatches ties it to the regular expression. |
| ChatComponent.NumberedFormMatches | frontend/src/components/Chat.jsx:65 | The test holds exactly when `/^\s*\d+\.\s/` matches: leading whitespace, one or more digits, a dot and a whitespace character. |
| ChatComponent.IsSectionHeader | frontend/src/components/Chat.jsx:63-64 | Line i is a header when its trimmed text starts with the bullet, is shorter than 55 characters, and it is the first line or follows a blank one. HeadersNotAdjacent is proved from it. |
| ChatComponent.LeadingDigits | frontend/src/components/Chat.jsx:65 | The count of leading decimal digits: all counted characters are digits and the next one is not. |
| ChatComponent.HeadersNotAdjacent | frontend/src/components/Chat.jsx:63-64 | Two consecutive lines are never both section headers. |
| ChatComponent.OuterLinesNotBlank | frontend/src/components/Chat.jsx:55-59 | A text with no whitespace at either end has a first and a last line that are not blank. |
| ChatComponent.FirstLineNotBlank | frontend/src/components/Chat.jsx:55-59 | A text that does not start with whitespace has a first line that is not blank. |
| ChatComponent.LastLineNotBlank | frontend/src/components/Chat.jsx:55-59 | A text that does not end with whitespace has a last line that is not blank. |
| ChatComponent.LastPieceEnd | frontend/src/components/Chat.jsx:55 | A text that does not end in a newline splits into a non-empty last line ending with the text's last character. |
| ChatComponent.FramedSteps | frontend/src/components/Chat.jsx:55-67 | Laying out a text with no whitespace at either end starts and ends with a drawn line. |
| ChatComponent.DrawnUnlessBlank | frontend/src/components/Chat.jsx:59-67 | A line that is not blank is drawn. |
| ChatComponent.ExportFramedByText | frontend/src/components/Chat.jsx:152 | When an answer's structured text is not empty, its first and last lines in the export are drawn, never skipped. An answer such as ">" cleans to "" and draws nothing. |
| ChatComponent.ListedSources | frontend/src/components/Chat.jsx:239-241 | A non-array value lists nothing. For an array, the listed entries are a subsequence, every entry passing the filter is listed, and each listed url is a string starting with "http". |
| ChatComponent.IsListedSource | frontend/src/components/Chat.jsx:240 | The client's source filter: a truthy entry whose `url` is truthy and a string starting with "http". ListedSources and ServerSourcesAllListed are stated in terms of it. |
| ChatComponent.SourceLabel | frontend/src/components/Chat.jsx:297 | The link text is the title when truthy, the url otherwise, and is never empty. |
| ChatComponent.AnswerJson | backend-node/routes/chat.js:112 | `res.json({ response, tokens_left, sources })`: the response text, the counter and the serialised sources read back from the body as sent. |
| ChatComponent.SourcesJson | backend-node/routes/chat.js:112 | The sources serialise one JSON object per source, in order. |
| ChatComponent.ServerSourcesAllListed | frontend/src/components/Chat.jsx:239-241 | Every source the server sends passes the client's filter, so the list shows all of them in the server's order, each labelled with the server's title. |
| ChatComponent.ErrorText | frontend/src/components/Chat.jsx:363-367 | The session text shows exactly for 401 and 403, and the generic text exactly otherwise. |
| ChatComponent.Failure | frontend/src/components/Chat.jsx:344-361 | The catch block runs exactly when the request was rejected or the body cannot be read. A rejection carries its status. |
| ChatComponent.BotMessageFor | frontend/src/components/Chat.jsx:350-371 | The appended bot message is an error bubble exactly on failure, with the status's error text and no sources. Otherwise it carries the response and the sources, or [] when they are absent. |
| ChatComponent.AnswerShownInFull | frontend/src/components/Chat.jsx:350-356 | A server answer appears as a non-error bubble with the answer text and lists every source the server sent. |
| ChatComponent.RefusalsShown | frontend/src/components/Chat.jsx:363-367 | For every turn answered with a status, the client shows the session text exactly when there was no token or the quota was used up. The 401 that leads home comes exactly from a missing token. A rejected token, an unknown user, a failed generation or a failed save show the generic text. |
| ChatComponent.ChatView.SendMessage | frontend/src/components/Chat.jsx:334-375 | A blank input changes nothing and posts nothing. Otherwise the trimmed input is posted and the input cleared. Exactly two messages are appended after the untouched earlier ones: the trimmed text, then the answer or error bubble. The quota callback gets tokens_left only on success, when it is a number and the callback exists. The history callback fires once on success. Only a 401 navigates home. Loading is over at the end. |
| ChatComponent.ChatView.SetInput | frontend/src/components/Chat.jsx:433 | The input holds the typed text. |
| ChatComponent.ChatView.constructor | frontend/src/components/Chat.jsx:309-311 | The state starts with no messages, an empty input, not loading, and no effects. |
| HistorySidebar.AgeOf | frontend/src/components/HistorySidebar.jsx:35-47 | The buckets are mutually exclusive and cover every elapsed time: under a minute, minutes, hours, days, a week or more (and an unparsable date). The number shown is the elapsed time in the bucket's unit, rounded down, within 1-59 minutes, 1-23 hours or 1-6 days. |
| HistorySidebar.FormatDate | frontend/src/components/HistorySidebar.jsx:35-47 | An unparsable or week-old date shows the locale's text. Within the week, the label is "Just now" exactly under a minute, and every other label ends with " ago". |
| HistorySidebar.Ago | frontend/src/components/HistorySidebar.jsx:41-45 | A relative label ends with " ago" and is never "Just now". |
| HistorySidebar.RelativeLabelReadsBack | frontend/src/components/HistorySidebar.jsx:41-45 | A relative label is one or two digits followed by its unit and " ago", and the digits read back as the elapsed time in that unit. |
| HistorySidebar.Preview | frontend/src/components/HistorySidebar.jsx:74 | A prompt over 60 characters shows as 61 characters, its first 60 and an ellipsis. Otherwise the prompt shows unchanged. The shown text is always a prefix of the prompt, plus at most an ellipsis. |
| HistorySidebar.PreviewIdempotent | frontend/src/components/HistorySidebar.jsx:74 | Previewing a preview changes nothing. |
| HistorySidebar.PreviewCollision | frontend/src/components/HistorySidebar.jsx:74 | Two prompts share a preview only when equal, or when both are long and agree on their first 60 characters. |
| HistorySidebar.Rows | frontend/src/components/HistorySidebar.jsx:65-76 | One row per history entry, in order, with the entry's preview and its relative date. |
| HistorySidebar.SelectedPrompt | frontend/src/components/HistorySidebar.jsx:31-33 | A click forwards exactly the item's own prompt, and only when the parent passed a handler. |
| HistorySidebar.RecallNewestAfterTurn | frontend/src/components/HistorySidebar.jsx:70 | After a turn, the first item of the reloaded list is the prompt just sent, verbatim, and clicking it hands back exactly that prompt. |
| HistorySidebar.Sidebar.FetchHistory | frontend/src/components/HistorySidebar.jsx:11-27 | Without a token nothing changes. Success sets the history (empty when absent) and clears the error. Failure empties the history and sets "Could not load history". Loading is over either way. |
| HistorySidebar.Sidebar.VisibleRows | frontend/src/components/HistorySidebar.jsx:56-65 | No rows while loading. Otherwise one row per loaded entry. |
| HistorySidebar.Sidebar.constructor | frontend/src/components/HistorySidebar.jsx:6-8 | The sidebar starts loading, with an empty list and no error. |
| JsValues.Truthy | backend-node/routes/chat.js:58-62 | ToBoolean: `undefined`, `null`, `false`, `0` and `""` are falsy; every other value, including empty arrays and objects, is truthy. Used for `results &&`, `r.url &&`, `s && s.url` (Chat.jsx:240) and the `\|\|` defaults. |
| JsValues.Or | backend-node/routes/chat.js:63 | `a \|\| b`: `a` when truthy, `b` otherwise (`r.title \|\| "Source"`, `source.title \|\| source.url` at Chat.jsx:297, `res.data.sources \|\| []` at Chat.jsx:355). |
| JsValues.ReadThrows | backend-node/routes/chat.js:60 | Reading a property of `null` or `undefined` throws, which is what sends the search step of line 60 to its catch, and `res.data.response` at Chat.jsx:351 to the client's catch. |
| JsValues.Prop | backend-node/routes/chat.js:60-63 | `v.key` on a value that does not throw: the object's own property, `undefined` otherwise. |
| JsValues.ToText | backend-node/routes/chat.js:60 | The text `${v}` inserts: `String(v)` for each kind of value, arrays joined by "," with null and undefined elements printed empty. |
| Common.Filter | frontend/src/components/Chat.jsx:240 | `Array.prototype.filter`: the result is no longer than the input and every element passes the test. |
| Common.FilterIsSubsequence | backend-node/routes/chat.js:62 | A filter keeps a subsequence of its input. |
| Common.FilterKeeps | backend-node/routes/chat.js:62 | Every element that passes the test is kept. |
| Common.FilterAll | frontend/src/components/Chat.jsx:240 | Filtering a sequence whose elements all pass changes nothing. |
| Common.Reverse | backend-node/routes/chat.js:18 | `slice().reverse()` keeps the length. |
| Common.ReverseAt | backend-node/routes/chat.js:18 | Element i of the reversal is element n-1-i. |
| Common.KeepLast | backend-node/routes/chat.js:108 | `slice(-50)`: the last min(n, length) elements, as a suffix. |
| Text.Trim | frontend/src/components/Chat.jsx:58 | `String.prototype.trim`: no longer than the input, with no whitespace at either end. |
| Text.TrimEmptyIffBlank | frontend/src/components/Chat.jsx:59 | A line trims to "" exactly when it is all whitespace. |
| Text.TrimUnchanged | frontend/src/components/Chat.jsx:27 | A text with no whitespace at either end trims to itself. |
| Text.Split | frontend/src/components/Chat.jsx:55 | `split('\n')`: at least one piece. SplitPiecesFree, JoinSplit and SplitJoin state the rest. |
| Text.SplitPiecesFree | frontend/src/components/Chat.jsx:55 | No piece of a split contains the separator. |
| Text.JoinSplit | frontend/src/components/Chat.jsx:55 | Joining the pieces with the separator gives back the text. |
| Text.SplitJoin | frontend/src/components/Chat.jsx:55 | Splitting a join of separator-free pieces gives back the pieces. |
| Text.NatToString | frontend/src/components/HistorySidebar.jsx:41 | The printed number is a non-empty run of digits with no leading zero. |
| Text.NatToStringValue | frontend/src/components/HistorySidebar.jsx:41 | The printed digits read back as the number. |

## Left out

- JWT verification, the Mongoose `User` model and `user.save()` are outcomes given as parameters: a `Credential`, the stored records, and a save flag. Their internals are not part of this model.
- A `User.findById` that rejects (a malformed id, a database error) is not modelled: in both routes it would answer 500 through the `catch` after `[VerifyToken, FindUser]` (chat.js lines 16 and 20-22, 34 and 114-117). Here the lookup always answers, with the record or null.
- The Tavily and Gemini HTTP calls are outcomes (`SearchOutcome`, `GenOutcome`). The request options (API keys, `max_results`, the model name) are not modelled.
- A generation request is recorded as `Generate(userPart)`. The request text is `FullPrompt(userPart)`, whose instruction, headings and suffix are constants, so the user part determines it.
- Two turns of the same user running at once can both pass the quota guard. Concurrency is not modelled, and the store is updated one turn at a time.
- jsPDF drawing, page breaks and the `y` arithmetic of `exportChatToPdf` and `addStructuredContent` are not modelled. Only the line classification and the 0.8 line-height advance of a blank line are.
- The regular-expression rewrites of headings, emphasis, code spans and list markers (Chat.jsx lines 15-22) are the function parameter `rewrite`. Only the character passes after them are modelled.
- ReactMarkdown rendering, `CodeBlock` and its clipboard timer, `TypingIndicator`, the welcome suggestions, the scroll effect, the key handler and the PDF export button are UI and are not modelled.
- The `recallPrompt` effect of Chat.jsx (lines 327-332) and the parent pages that wire the callbacks (`ChatPage.jsx`, `Navbar.jsx`) are not part of this model.
- `new Date(...)`, `toLocaleString` and `toLocaleDateString` are parameters: a timestamp is a natural number of milliseconds, an age is an elapsed time or None when the date does not parse, and the absolute date is a given string.
- `prompt` is read from `req.body` (chat.js line 44) and may be missing or not a string there. The model takes it as a string.
- JavaScript numbers are integers here. `tokens_left` and timestamps never carry fractions in this code.
- ChatComponent.ChatView.SendMessage: the render with `loading` set to true while the request is in flight is not observable in the model. Only the state after the request settles is stated.
- ChatComponent.ChatView.SendMessage: the parent's callbacks are taken not to throw, and their calls are recorded as effects.
- HistorySidebar.Preview: lengths count Unicode scalar values, while JavaScript's `length` and `slice` count UTF-16 code units. A prompt with characters outside the Basic Multilingual Plane is cut at a different place.
- ChatComponent.IsSectionHeader: the `trimmed.length < 55` test (Chat.jsx line 64) counts Unicode scalar values, while JavaScript counts UTF-16 code units. A header with characters outside the Basic Multilingual Plane can pass here and fail there.
- HistorySidebar.Sidebar.FetchHistory: a `history` field that is present but not an array is not modelled. The history is a list of entries or absent.
- ChatRoute.SearchContextOf: a hit that is `null` or `undefined` makes the `.map` throw, which the search `catch` turns into "no context, no sources". Other JavaScript values inside a hit are printed by `ToText`, but `toString` overrides are not modelled.
