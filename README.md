# Vibe Creator writing-style assistant: a verified model of its core logic

Vibe Creator is a Next.js application. A user pastes a video script. A workflow
service derives a "writing style" from it, and the style is saved as a row of
a `styles` table. Saved styles appear in a library grid, and a chat view
streams drafts written in a chosen style. This project models, in Dafny, the
logic buried in the application's React and server files:

- **CreateChat** (`app/create/CreateChat.tsx`): the chat view.
  - The server-sent-event stream reassembler. It buffers text across chunks, splits it into lines and keeps the unterminated tail. It filters `data: ` lines, appends `answer` deltas to the placeholder message and tracks the last truthy `conversation_id`.
  - The send sequence, its error clean-up and the reset. These are modelled as the class `ChatView`.
- **ChatRelay** (`app/api/chat/route.ts`): the `POST /api/chat` relay. It is a pure decision from the environment, the request body and the upstream reply to the upstream request and the response.
- **AnalyzeAction** (`app/actions/analyze.ts`): `runScriptAnalysis`.
  - Environment checks.
  - Selection of the configuration from the workflow outputs.
  - Removal of `<think>…</think>` blocks and the JSON-or-`{raw}` fallback.
  - Derivation of the saved row.
- **StylesGrid** (`components/styles-grid.tsx`): a database row becomes a card. It also models the case-insensitive tag filter and the count label.
- **StyleCard** (`components/style-card.tsx`): the optimistic-hide delete sequence and the usage label.
- **ChatMarkdown** (`v0_design/components/chat-messages.tsx`): the line classifier with its code-fence state, and the earliest-match inline tokenizer. Both are loops proved against specification functions.
- **AnalyzeFlow** (`v0_design/app/analyze/page.tsx`): the simulated five-step analysis run. It is a class whose timer callbacks are explicit steps.
- **ShowcaseGrid** (`v0_design/components/styles-grid.tsx`): the bidirectional tag filter over the nine fixed styles.
- **ChatDemo** (`v0_design/app/chat/page.tsx`): the keyword router for canned replies, and the message-id counter.
- **ScriptInput** (`v0_design/components/script-input.tsx`): word and character counts, and the Clear action.
- **ChatInput** (`v0_design/components/chat-input.tsx`): the submit guard, Enter handling and the height cap.
- **Shared modules**:
  - `Options`;
  - `Seqs` (order-preserving filter, subsequence, concatenation);
  - `Text` (ASCII trim, lower-casing, split and join, substring search, decimal rendering);
  - `Json` (values, property lookup with last-key-wins, truthiness, `String()`);
  - `Http`.

`JSON.parse` and `JSON.stringify` are parameters of the functions that use
them. Clock readings, the date, and the replies of `fetch`, of the stream
reader and of the database are inputs. Timer callbacks are explicit method
calls.

The model follows the code where the code and its design notes differ:

- A failed chat send removes the assistant placeholder together with any text already streamed into it (`app/create/CreateChat.tsx:134`). The partial reply is not kept.
- The configuration selection in `app/actions/analyze.ts` differs from the comment above it. `RunScriptAnalysis` stores what the code selects (`SelectAsWritten`); the selection the comment describes is modelled beside it as `SelectConfig`; see Findings.

## Model

| member | source | states |
|---|---|---|
| CreateChat.WelcomeMessage | app/create/CreateChat.tsx:14-22 | The greeting has id `welcome`, is from the assistant, and its text mentions the selected style's name. |
| CreateChat.IdsDiffer | app/create/CreateChat.tsx:42-49 | The user message id (`u-` + clock) and the placeholder id (`a-` + clock) can never be equal, whatever the two clock readings. |
| CreateChat.Payload | app/create/CreateChat.tsx:85-89 | A line yields a payload exactly when, trimmed, it starts with `data: ` and the trimmed rest is neither empty nor `[DONE]`; that rest is the payload. A blank line never yields one. |
| CreateChat.ConversationOf | app/create/CreateChat.tsx:92 | A conversation id taken from an event is always truthy. |
| CreateChat.Deltas | app/create/CreateChat.tsx:93-99 | There is one delta per line, in line order, and each is the text that line appends. |
| CreateChat.DeltasInit | app/create/CreateChat.tsx:93-99 | The deltas of all but the last line are a prefix of the deltas, and the last delta belongs to the last line. |
| CreateChat.ApplyLinesAppend | app/create/CreateChat.tsx:77-106 | Lines processed in two batches give the same state as processing them in one batch. |
| CreateChat.ApplyLinesAnswer | app/create/CreateChat.tsx:93-99 | The reply is the previous text followed by every line's delta in arrival order. Nothing is dropped, reordered or rewritten. |
| CreateChat.ConversationKept | app/create/CreateChat.tsx:75-92 | A conversation id, once seen, is never cleared. The last line that reports one decides it. Any id held was either the starting one or reported by some line. |
| CreateChat.FeedAllSplits | app/create/CreateChat.tsx:77-106 | After any number of reads, the buffer is the text's last line piece, and every complete line of the text so far has been processed in order. |
| CreateChat.ChunkBoundaryIndependence | app/create/CreateChat.tsx:77-129 | However the decoded text is cut into chunks, reading them and flushing the leftover gives the reply and conversation id of the whole text read at once. |
| CreateChat.AppendTo | app/create/CreateChat.tsx:95-99 | Only messages with the placeholder id change, and only by having the delta appended. Ids, roles, length and every other message are unchanged. |
| CreateChat.AppendToCompose | app/create/CreateChat.tsx:95-99 | Two appends to the same message equal one append of both deltas in order. An empty delta changes nothing. |
| CreateChat.RemoveId | app/create/CreateChat.tsx:134 | The result keeps, in order, exactly the messages whose id differs from the removed one. |
| CreateChat.RemoveAfterAppend | app/create/CreateChat.tsx:132-135 | Removing the placeholder after streaming into it leaves no trace of the streamed text. |
| CreateChat.FailedSendKeepsQuestion | app/create/CreateChat.tsx:40-49 | A failed send leaves the earlier transcript plus the user's question. Only the placeholder goes. |
| CreateChat.RequestBody | app/create/CreateChat.tsx:52-60 | The posted body carries the message, the conversation id (or `null`) and the style configuration. |
| CreateChat.SettleReply | app/create/CreateChat.tsx:62-137 | An error is reported exactly when the fetch, the status or a read fails: a rejected fetch or a failed read reports its own message, a non-ok status the server's truthy `error` or `Request failed (<status>)`. On failure the placeholder is removed and the id kept. A 2xx reply without a body leaves the transcript and id as they were. A stream read to the end appends the whole reassembled answer to the placeholder and takes the conversation id it carries, if any. The transcript keeps its length and its ids, every message but the placeholder is unchanged, and a changed conversation id is truthy. |
| CreateChat.ReassembledConversationTruthy | app/create/CreateChat.tsx:91-131 | The conversation id a stream reports is always truthy. |
| CreateChat.ChatView.constructor | app/create/CreateChat.tsx:14-22 | The view starts with the welcome message only, an empty input, no conversation and no error. |
| CreateChat.ChatView.ResetChat | app/create/CreateChat.tsx:149-153 | The transcript is exactly the welcome message, with no conversation id and no error. Input and loading are untouched. |
| CreateChat.ChatView.HandleLine | app/create/CreateChat.tsx:85-104 | One line appends its delta to the placeholder only, and replaces the pending conversation id when it reports one. |
| CreateChat.ChatView.ReadStream | app/create/CreateChat.tsx:77-129 | Without a read failure, the placeholder ends with the reply of the whole text, and the returned id is its last truthy conversation id. A failing read stops after the chunks delivered before it. |
| CreateChat.ChatView.Settle | app/create/CreateChat.tsx:62-137 | The transcript, error and conversation id after the reply are those `SettleReply` defines. |
| CreateChat.StreamedReplyInPlaceholder | app/create/CreateChat.tsx:77-131 | A send whose stream is read to the end leaves the earlier transcript and the question, and the placeholder holds the whole reassembled reply. |
| CreateChat.FillPlaceholder | app/create/CreateChat.tsx:95-99 | Appending to the placeholder at the end of the transcript changes that message only. |
| CreateChat.ChatView.Post | app/create/CreateChat.tsx:40-60 | A send appends the trimmed user message and an empty placeholder, in that order. It clears the input, sets loading, clears the error, and builds the request from the trimmed text. |
| CreateChat.ChatView.SendMessage | app/create/CreateChat.tsx:40-138 | A blank text or a send during loading changes nothing. Otherwise the transcript is settled from the transcript with both new messages appended, and loading ends. |
| ChatRelay.ChatApiUrl | app/api/chat/route.ts:4 | The chat URL is used unless it is absent or empty; then the general URL is used. |
| ChatRelay.MessageOf | app/api/chat/route.ts:22-25 | A message is accepted exactly when the body's `message` is a non-empty string, and it is that string. |
| ChatRelay.UpstreamBody | app/api/chat/route.ts:36-50 | The query is the message, with the fixed user and streaming mode. The conversation id is present exactly when truthy, and unchanged. A style prompt is present exactly when the style configuration has keys, and it is the fixed prefix plus the serialised configuration. |
| ChatRelay.Forward | app/api/chat/route.ts:53-80 | A rejected fetch crashes. A non-2xx reply gives a JSON error with its status and the upstream error text cut to 400 characters. A 2xx reply that is not an event stream gives 502 `Dify did not return a stream`; an event stream without a body gives 502 `No response body`. Otherwise the upstream stream is passed through with the three streaming headers. |
| ChatRelay.Relay | app/api/chat/route.ts:7-80 | Upstream is called exactly when the relay is configured and the body is JSON with a non-empty string message. An unconfigured relay gives 500, a non-JSON body 400, a JSON `null` body crashes, and a bad message gives 400, in that order. What is sent goes to the slash-stripped base + `/chat-messages`, and a streamed response is the upstream stream. |
| ChatRelay.TrailingSlashIgnored | app/api/chat/route.ts:27-28 | A configured base with or without one trailing slash posts to the same URL. |
| ChatRelay.ClientRequestAccepted | app/api/chat/route.ts:16-50 | What the chat view posts is always accepted by a configured relay. Its trimmed text becomes the upstream query, and its conversation id is forwarded unchanged. |
| Http.UpstreamError | app/api/chat/route.ts:53-59 | The error text starts with the fixed prefix, is bounded in length, and ends with the body text cut to the limit. |
| AnalyzeAction.FindCI | app/actions/analyze.ts:77 | The result is the first position where the pattern occurs ignoring case, or none when it occurs nowhere. |
| AnalyzeAction.StripThink | app/actions/analyze.ts:77 | Removing reasoning blocks never makes the text longer. |
| AnalyzeAction.StripThinkNoTag | app/actions/analyze.ts:77 | Text without an opening tag is returned unchanged. |
| AnalyzeAction.StripThinkBlock | app/actions/analyze.ts:77 | A leading `<think>` block is removed up to and including the first closing tag after it, across newlines. |
| AnalyzeAction.LeadingBlock | app/actions/analyze.ts:77 | The same for tags written in any letter case. |
| AnalyzeAction.StripThinkAfter | app/actions/analyze.ts:77 | A block anywhere, its tags in any letter case, is removed up to its first closing tag, and the text before it, which opens no block, is kept unchanged. |
| AnalyzeAction.KeepPrefix | app/actions/analyze.ts:77 | Text that opens no block is kept unchanged in front of a `<`. |
| AnalyzeAction.StripThinkNoClose | app/actions/analyze.ts:77 | Text without a closing tag is returned unchanged: an unclosed `<think>` stays. |
| AnalyzeAction.FirstCloseAfter | app/actions/analyze.ts:77 | The lazy match ends at the first closing tag, in any letter case, after a thought that contains none. |
| AnalyzeAction.ValuesOf | app/actions/analyze.ts:66 | The values of an array are its items. The values of an object are its member values in the order written (see Left out). |
| AnalyzeAction.FirstString | app/actions/analyze.ts:66-67 | The result is the first string value in the list: it occurs at a position before which no value is a string. There is none exactly when no value is a string. |
| AnalyzeAction.SelectAsWritten | app/actions/analyze.ts:58-76 | As written, any object or array with a key is taken verbatim and a string output is the text to parse, so the text fallbacks never apply. There is no configuration exactly when the output is neither a string nor an object or array with a key. |
| AnalyzeAction.SelectConfig | app/actions/analyze.ts:56-76 | An object naming a style or tone is used directly. A string output, or else `analysis_result` or the first string value, is parsed. Any other non-empty object or array, with no style, tone or string to fall back on, is used directly. There is no configuration exactly when the output is neither a string nor a non-empty object or array. |
| AnalyzeAction.SelectionsAgree | app/actions/analyze.ts:58-76 | The two selections agree except on objects without a style name or tone that hold a string value. |
| AnalyzeAction.AnalysisResultIgnored | app/actions/analyze.ts:60-69 | As written, an `analysis_result` string is stored wrapped in its object instead of being parsed. |
| AnalyzeAction.ParseStripped | app/actions/analyze.ts:77-82 | The stripped, trimmed text is parsed. When it does not parse, the configuration is `{raw: text}`. |
| AnalyzeAction.FallbackName | app/actions/analyze.ts:54 | The dated fallback name is never blank. |
| AnalyzeAction.TrimmedText | app/actions/analyze.ts:87-89 | A null or missing value gives `""`. Otherwise the text has no leading or trailing whitespace. |
| AnalyzeAction.RowFor | app/actions/analyze.ts:87-94 | The row stores the configuration verbatim. Its name is the trimmed style name or, when that is empty, the dated fallback, so it is never blank. Its description is the trimmed tone. |
| AnalyzeAction.OutputsOf | app/actions/analyze.ts:44-52 | The outputs read from a reply are never null. |
| AnalyzeAction.RunScriptAnalysis | app/actions/analyze.ts:12-116 | A request is made exactly when both settings are present, and goes to the slash-stripped URL + `/workflows/run` with the script. A rejected fetch or a body that is not JSON fails with its message; a non-ok reply fails with its status and cut text; a JSON `null` body fails reading `data`; missing or null outputs give the no-outputs error, and outputs without a configuration the no-configuration error. Otherwise the row built from the selected configuration is inserted, unless that configuration is `null`, which fails reading `style_name`. A row is inserted only in that case, and its name is never blank. Success holds exactly when the insert succeeded, and an insert error carries the row-level-security hint. |
| AnalyzeAction.TextOutputSaved | app/actions/analyze.ts:63-94 | A string output is stripped of reasoning blocks, trimmed and parsed (or wrapped as `{raw: ...}`), and the row is built from that configuration. |
| AnalyzeAction.ThoughtNotSaved | app/actions/analyze.ts:77-82 | A reasoning block in front of a string output does not change the configuration parsed from it. |
| AnalyzeAction.NamedOutputsSavedVerbatim | app/actions/analyze.ts:58-94 | An object reply naming its style is saved verbatim under that trimmed name. |
| StylesGrid.KeywordTags | components/styles-grid.tsx:75-86 | Keyword tags are never empty strings. An array gives the non-empty texts of its entries in order, a string its non-empty trimmed pieces split on `,` and `;`, and anything else no tags. |
| StylesGrid.ToneTags | components/styles-grid.tsx:87-93 | The tone tags are the first three (or fewer, if there are fewer) non-empty trimmed pieces of the tone split on `,` and `.`, in order. |
| StylesGrid.ArrayKeywordsKept | components/styles-grid.tsx:77-80 | An array of non-empty strings gives exactly those strings as tags. |
| StylesGrid.SingleKeyword | components/styles-grid.tsx:81-86 | A non-blank string without `,` or `;` gives one tag, the string trimmed. |
| StylesGrid.ToneTagsArePieces | components/styles-grid.tsx:87-93 | Every tone tag is non-empty and one of the trimmed pieces of the tone. |
| StylesGrid.Tags | components/styles-grid.tsx:75-96 | Tags are never empty. They are the keyword tags if there are any, else the tone tags if the tone gives any, else `Custom, Style`. |
| StylesGrid.RawName | components/styles-grid.tsx:65-69 | A non-null, non-empty row name wins; otherwise a string `style_name` from the configuration, else `""`. |
| StylesGrid.Tone | components/styles-grid.tsx:71-74 | A non-null description wins even when empty; otherwise a string `tone` from the configuration, else `""`. |
| StylesGrid.Title | components/styles-grid.tsx:101-103 | The title is never blank: the trimmed raw name, or `Bilibili Style - ` plus the first eight characters of the id. |
| StylesGrid.Uses | components/styles-grid.tsx:105-108 | The number of uses is `config.uses` when it is a number, else 0. |
| StylesGrid.Decorate | components/styles-grid.tsx:61-119 | A card carries the row's id, its `Title` (never blank), the tone or the default description, its `Tags` from the configuration and tone (never empty), its `Uses`, and the icon and gradient at position index mod 9. |
| StylesGrid.DecorateAll | components/styles-grid.tsx:60-121 | There is one card per row, in order, each decorated at its own position. |
| StylesGrid.DecorationCycles | components/styles-grid.tsx:98-99 | Icons and gradients repeat every nine cards. |
| StylesGrid.FilterCards | components/styles-grid.tsx:123-130 | `All` returns every card unchanged. Any other tab keeps, in order, exactly the cards with a tag whose lower-case form contains the lower-cased tab. |
| StylesGrid.FilterByOwnTagKeeps | components/styles-grid.tsx:123-130 | Filtering by a card's own first tag keeps that card. |
| StylesGrid.CountLabel | components/styles-grid.tsx:174-177 | The label reads `1 style in your library` for one card and `N styles in your library` otherwise. The showcase grid's label (v0_design/components/styles-grid.tsx:146) is the same. |
| StyleCard.UsageLabel | components/style-card.tsx:104 | The label is `N uses` for a positive count and `New style` otherwise. |
| StyleCard.UsageLabelFaithful | components/style-card.tsx:104 | The label is `New style` exactly when the count is not positive, and otherwise its digits read back as the count. |
| StyleCard.FailureAlert | components/style-card.tsx:52-57 | The alert is the server's truthy `error` member, or the default message when there is none or the body is not JSON. |
| StyleCard.StyleCardView.constructor | components/style-card.tsx:39 | A card starts shown, with no request, alert or refresh. |
| StyleCard.StyleCardView.BeginDelete | components/style-card.tsx:41-49 | Declining sends nothing and leaves the card shown. Confirming hides the card before its delete request is sent. |
| StyleCard.StyleCardView.FinishDelete | components/style-card.tsx:52-65 | A 2xx reply keeps the card hidden and refreshes. A non-ok reply shows the card again and alerts the server's error or the default. A thrown error shows it again and alerts the default. |
| StyleCard.StyleCardView.HandleDelete | components/style-card.tsx:41-68 | After a delete the card is shown exactly unless it was confirmed and succeeded. A request is sent exactly when confirmed. The page is refreshed once exactly when a confirmed delete succeeded. A confirmed delete that failed raises one alert: the fixed failure text if the request threw, otherwise the server's truthy `error` or `Failed to delete style.` |
| ChatMarkdown.CloseFrom | v0_design/components/chat-messages.tsx:109 | A found closing position holds `**` at or after the start. |
| ChatMarkdown.CloseFromCorrect | v0_design/components/chat-messages.tsx:109 | A found position is a valid close of the lazy `(.+?)\*\*` from the start, and when none is found no close exists. |
| ChatMarkdown.FindBold | v0_design/components/chat-messages.tsx:109 | A bold match opens and closes with `**` and encloses at least one character. |
| ChatMarkdown.FindBoldCorrect | v0_design/components/chat-messages.tsx:109 | The bold match found is a match of `\*\*(.+?)\*\*` with no match starting earlier. None is found only when none exists. |
| ChatMarkdown.FindCode | v0_design/components/chat-messages.tsx:111 | A code match is framed by backticks and encloses at least one character. |
| ChatMarkdown.FindCodeCorrect | v0_design/components/chat-messages.tsx:111 | The code match found is a match of `` `([^`]+)` `` with no match starting earlier. None is found only when none exists. |
| ChatMarkdown.Earliest | v0_design/components/chat-messages.tsx:113-122 | A chosen match lies inside the text and is at least three characters long, so each round consumes text. |
| ChatMarkdown.EarliestIsLeftmost | v0_design/components/chat-messages.tsx:113-122 | No bold or code match starts before the chosen one. A chosen bold match is a bold match. A chosen code match is a code match where no bold match starts. When nothing is chosen, neither pattern matches anywhere. |
| ChatMarkdown.RenderInline | v0_design/components/chat-messages.tsx:101-144 | The loop produces exactly the earliest-match tokenisation of the text. |
| ChatMarkdown.InlineLossless | v0_design/components/chat-messages.tsx:107-141 | The pieces, with `**` and backticks put back, spell the original text. |
| ChatMarkdown.InlineTokensNonEmpty | v0_design/components/chat-messages.tsx:107-141 | Only non-empty text yields pieces, and no piece is empty. |
| ChatMarkdown.NumberedItem | v0_design/components/chat-messages.tsx:75 | A numbered item is leading digits, `.`, one whitespace character and a non-empty text up to the first line terminator. When no item is found, no run of leading digits, `.` and whitespace is followed by a character other than a line terminator. |
| ChatMarkdown.LeadingDigitsExact | v0_design/components/chat-messages.tsx:75 | A digit run ended by a non-digit is exactly the run the number captures. |
| ChatMarkdown.Classify | v0_design/components/chat-messages.tsx:53-95 | The first rule that applies decides the block, in order: `### `, `## `, `- ` or `* `, a numbered item, a blank line, else a paragraph; each kind is chosen exactly when its rule is the first to apply. Heading and bullet prefixes are stripped. A numbered line keeps its number. The pieces of a bullet, numbered item or paragraph are `InlineTokens` of its text, and spell it. |
| ChatMarkdown.ClassifyPlain | v0_design/components/chat-messages.tsx:74-95 | A line without a heading or bullet prefix is a numbered item exactly when the item pattern matches, else a spacer exactly when blank, else a paragraph; a numbered item keeps its number, and the pieces of a numbered item or paragraph are `InlineTokens` of its text, and spell it. |
| ChatMarkdown.Step | v0_design/components/chat-messages.tsx:20-51 | A fence toggles the code state. A closing fence emits one code block of the buffered lines joined with newlines, and an opening fence records the trimmed language. Inside code, lines are buffered verbatim. Outside, each line adds its classified block. |
| ChatMarkdown.RenderMarkdown | v0_design/components/chat-messages.tsx:13-99 | The loop's elements are exactly those of the specification scan over the lines. |
| ChatMarkdown.RunAppend | v0_design/components/chat-messages.tsx:20-96 | Scanning two runs of lines is scanning the first, then the second from where it left off. |
| ChatMarkdown.RunInsideCode | v0_design/components/chat-messages.tsx:48-51 | Inside a code block, fence-free lines are only buffered, verbatim and in order. |
| ChatMarkdown.FencedBlock | v0_design/components/chat-messages.tsx:24-44 | A fenced block becomes exactly one code element: its language is the trimmed rest of the opening fence, and its code is the lines between the fences joined with newlines. |
| ChatMarkdown.UnterminatedFenceDropped | v0_design/components/chat-messages.tsx:24-51 | A code block that is never closed adds no element. |
| ChatMarkdown.BlocksAtMostLines | v0_design/components/chat-messages.tsx:20-96 | At most one element is produced per line. |
| AnalyzeFlow.WhileRunning | v0_design/app/analyze/page.tsx:42-46 | While step c runs, exactly the earlier steps are complete and exactly step c is running. |
| AnalyzeFlow.AfterFinishing | v0_design/app/analyze/page.tsx:51-55 | When step c finishes, exactly the steps up to c are complete and exactly step c+1 is running. |
| AnalyzeFlow.RunningWellOrdered | v0_design/app/analyze/page.tsx:42-56 | Every status display is complete steps, then at most one running step, then pending steps. |
| AnalyzeFlow.RoundPercent | v0_design/app/analyze/page.tsx:48-57 | The result is the percentage rounded to the nearest integer, with halves rounded up. |
| AnalyzeFlow.ProgressValues | v0_design/app/analyze/page.tsx:48-57 | With five steps, step c shows 20c+10 while running and 20c+20 once done. |
| AnalyzeFlow.ProgressIncreases | v0_design/app/analyze/page.tsx:48-63 | Progress strictly grows from running to finished to the next step, and reaches exactly 100. |
| AnalyzeFlow.AnalyzePage.IsDisabled | v0_design/app/analyze/page.tsx:70 | The start button is enabled exactly when the script is not blank and no run is in progress. |
| AnalyzeFlow.AnalyzePage.StartAnalysis | v0_design/app/analyze/page.tsx:28-68 | A blank script changes nothing. Otherwise a run starts with step 0 running, the steps shown accordingly and the first progress value. |
| AnalyzeFlow.AnalyzePage.AdvanceStep | v0_design/app/analyze/page.tsx:40-65 | Before the last step, the current step is shown running, its progress is set and the timer is armed. After it, the run is complete at 100. |
| AnalyzeFlow.AnalyzePage.TimerFires | v0_design/app/analyze/page.tsx:50-60 | A callback finishes the current step, strictly raises progress and moves on. After the fifth step the run is complete with every step complete and progress 100. |
| ShowcaseGrid.MatchesSymmetric | v0_design/components/styles-grid.tsx:112-113 | The tag–tab match does not depend on which side is the tag. |
| ShowcaseGrid.FilterStyles | v0_design/components/styles-grid.tsx:106-115 | `All` returns the styles unchanged. Any other tab keeps, in order, exactly the styles with a tag that contains the tab or is contained in it, ignoring case. |
| ShowcaseGrid.TaggedStyleShown | v0_design/components/styles-grid.tsx:109-115 | A style carrying a tag equal to the tab, up to case, is shown under that tab. |
| ChatDemo.Route | v0_design/app/chat/page.tsx:78-87 | The intro reply is chosen exactly when the lower-cased message mentions an intro keyword. The rewrite reply is chosen exactly when it mentions a rewrite keyword and no intro keyword. Otherwise the default reply is chosen. |
| ChatDemo.RouteIgnoresCase | v0_design/app/chat/page.tsx:79 | Lower-casing the message first does not change the route. |
| ChatDemo.IntroKeywordWins | v0_design/app/chat/page.tsx:80-82 | Any message containing an intro keyword in any case gets the intro reply, whatever else it contains. |
| ChatDemo.RewriteKeywordRoutes | v0_design/app/chat/page.tsx:83-85 | A message containing a rewrite keyword never gets the default reply. It gets the rewrite reply exactly when no intro keyword is present. |
| ChatDemo.MsgIdInjective | v0_design/app/chat/page.tsx:97-108 | Different counter values give different message ids. |
| ChatDemo.IdsDistinct | v0_design/app/chat/page.tsx:93-114 | In a transcript numbered in order, no two messages share an id. |
| ChatDemo.ChatPage.constructor | v0_design/app/chat/page.tsx:90-93 | The page starts with no messages, not typing, and the counter at 0. |
| ChatDemo.ChatPage.HandleSend | v0_design/app/chat/page.tsx:95-105 | A send appends the user message with the next id, advances the counter, sets typing and schedules a reply. |
| ChatDemo.ChatPage.DeliverReply | v0_design/app/chat/page.tsx:106-114 | A timer callback appends the routed reply with the next id, advances the counter and clears typing. Every id stays distinct. |
| ScriptInput.SplitWhitespace | v0_design/components/script-input.tsx:11 | Splitting on whitespace runs always yields at least one piece. |
| ScriptInput.WordsOfTrim | v0_design/components/script-input.tsx:11 | Trimming does not change the number of words. |
| ScriptInput.SplitCount | v0_design/components/script-input.tsx:11 | The number of pieces is the number of words, plus one for leading whitespace and one for trailing whitespace. |
| ScriptInput.WordCount | v0_design/components/script-input.tsx:11 | The count is the number of maximal non-whitespace runs, and it is 0 exactly when the value is blank. |
| ScriptInput.WordsAtMostChars | v0_design/components/script-input.tsx:11-12 | There are never more words than characters. |
| ScriptInput.Clear | v0_design/components/script-input.tsx:62-70 | Clear is offered only for a non-empty value, and it leaves no words, no characters and no Clear button. |
| ChatInput.TextareaHeight | v0_design/components/chat-input.tsx:18-23 | The height is the scroll height capped at 160. |
| ChatInput.TrimmedIsClean | v0_design/components/chat-input.tsx:26-27 | What is sent is non-blank and has no surrounding whitespace. |
| ChatInput.Composer.constructor | v0_design/components/chat-input.tsx:15-23 | The composer starts empty with nothing sent and the height for its content. |
| ChatInput.Composer.SetValue | v0_design/components/chat-input.tsx:53 | Typing replaces the value. |
| ChatInput.Composer.Resize | v0_design/components/chat-input.tsx:18-23 | The effect sets the capped height. |
| ChatInput.Composer.HandleSubmit | v0_design/components/chat-input.tsx:25-29 | A blank value or a disabled input changes nothing. Otherwise the trimmed value is sent once and the value is cleared. |
| ChatInput.Composer.HandleKeyDown | v0_design/components/chat-input.tsx:31-36 | The default is prevented exactly for Enter without Shift, which submits. Any other key sends nothing. |
| Text.TrimFacts | v0_design/components/script-input.tsx:11 | A trimmed text has no surrounding whitespace and is blank exactly when the original was. |
| Text.TrimIdempotent | v0_design/components/chat-input.tsx:26-27 | Trimming a trimmed text changes nothing. |
| Text.SplitJoin | app/create/CreateChat.tsx:82 | Splitting on a character and joining the pieces with it gives the text back. |
| Text.DecimalRoundTrip | components/style-card.tsx:104 | A rendered number reads back as itself. |
| Seqs.FilterAppend | components/styles-grid.tsx:125 | Filtering a concatenation is concatenating the filtered parts. |

## Left out

- Network, database and browser I/O are inputs: `fetch`, the stream reader, the Supabase client, `router.refresh`, `window.confirm`, `alert`. The reply or outcome each gives is a parameter, and confirm dialogs and alerts are flags and recorded strings.
- Incremental UTF-8 decoding (`TextDecoder`) is left out. The stream is a sequence of already-decoded text chunks.
- `JSON.parse` and `JSON.stringify` are function parameters. Nothing is assumed about them beyond their types.
- Clocks, `Date`, `Math.random` and `setTimeout` delays are left out. Ids and dates are parameters, and every timer callback is an explicit method call.
- Floating point: progress is integer rounding, exact for the five fixed steps, and `uses` is an integer.
- React rendering, JSX, CSS classes, icons, scrolling, clipboard access and the copy and regenerate buttons are not modelled. Blocks and inline pieces are datatypes.
- Unicode: whitespace is the six ASCII whitespace characters and lower-casing maps only `A`–`Z`. Regex `\s`, `trim` and `toLowerCase` cover more characters in the source.
- `encodeURIComponent` in the delete URL is left out: a delete request records the style id.
- Console logging is left out.
- The relay's passed-through stream is an opaque value. The model does not follow its bytes.
- AnalyzeFlow.AnalyzePage.StartAnalysis requires that no run is in progress. The source reaches it only from the start button, which is disabled during a run, so a second overlapping run is not modelled.
- ScriptInput.WordCount does not model the locale formatting of the displayed count (`toLocaleString`).
- ScriptInput.Clear: the character count is a count of characters, not of UTF-16 code units.
- Http.UpstreamError: the error text is cut to 300 or 400 characters, not UTF-16 code units as `text.slice` counts them.
- AnalyzeAction.ValuesOf lists an object's values in the order written, keeping duplicate keys. `Object.values` lists integer-like keys first, in ascending order, and keeps one value per key. Only the corrected selection `SelectConfig` uses it.
- CreateChat.ChatView.SendMessage is one atomic step, so the model cannot show `ResetChat` running between two reads of a streamed reply. In the source the reset button stays enabled while loading. After such a reset, later deltas match no message, and the old stream's conversation id is restored after the reset had cleared it.
- ChatInput.Composer.HandleSubmit does not re-run the resize effect after clearing; that effect is the separate `Resize` step.
- ChatDemo.ChatPage.DeliverReply: with several replies pending, the first reply clears typing, as in the source. Replies may be delivered in any order.
- The canned reply texts in ChatDemo are constants. Only which of the three is chosen is proved.
- Page and layout files, the theme toggle, sidebars, headers and stats bars are not part of this model.

## Findings

| source | as written | input that shows it | evidently intended | confidence | as-written member | corrected member |
|---|---|---|---|---|---|---|
| app/actions/analyze.ts:58-69 | Any object `outputs` with at least one key is used verbatim, so the `analysis_result` and first-string-value fallbacks at lines 63-69 can only run on an empty object, where they find nothing. | `outputs = {"analysis_result": "{\"style_name\": \"X\"}"}` is stored as that wrapper object, with name set to the dated fallback, instead of the parsed `{style_name: "X"}`. | The comment at line 56 says an object is used directly when it names a style or tone; otherwise a string field holding the JSON is parsed. | low (rests on the comment alone), not executed | AnalyzeAction.SelectAsWritten, AnalyzeAction.AnalysisResultIgnored | AnalyzeAction.SelectConfig |
