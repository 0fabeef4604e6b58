# WhatsApp AI Co-Pilot — a verified model of its core

The system has two halves, and this project models both.

The **backend** is a Node/Express server. It drives a WhatsApp Web session and serves the group list, a group's messages, and AI summaries and answers computed over those messages.

The **Chrome extension** has four scripts:
- a background worker that polls the backend and relays to the WhatsApp Web tabs;
- a content script that injects the side panel into the page and lays the page out around it;
- a page script that works out which chat is focused and relays the panel's requests;
- the panel's own script, with its chat selector and AI buttons.

The model is written in Dafny, one module per source file:

| module | models |
|---|---|
| `Wrappers` | `Option` and `Result` |
| `JsText` | the JavaScript string built-ins the core relies on: `trim`, `parseInt(_, 10)`, `split`, `includes`, `startsWith`, digit extraction |
| `WhatsAppService` | `backend/src/whatsapp.service.ts`: the session variables and the client events that set them, the initialisation retry, `getClient`, `getGroups`, `getGroupMessages` with its pool size, `DD/MM/YYYY` parsing and day-range filter |
| `AiService` | `backend/src/ai.service.ts`: the chronological transcript, the date phrase, the token budget, custom-prompt augmentation, and the guards and replies of `generateSummary` and `answerQuestion` |
| `Routes` | `backend/src/index.ts`: every route as a function from the session state and the request to a status code and a JSON body |
| `Background` | `extension/background.js`: the worker's state as a class, status polling, the group fetch, the handshake messages and the action button |
| `Bridge` | `extension/bridge.js`: the pending-callback table of `chromeRuntimeSendMessage`, its response listeners and its timeouts |
| `Sidebar` | `extension/content.js`: injection, the collapsed state and its persistence, layout, the frame/background relay, and the injection poll |
| `Focus` | `content.js`: the eight-step JID guesser, `getCurrentChatInfo`, `getDirectChatInfo`, the relay of `SEND_TO_BACKGROUND` with its timeout, the chat-change notifications, the degraded-mode flag and the page reloads that clear it, and `safelySendMessageToBackground`. Nothing in `content.js` calls that function (it is only defined, at `content.js:1048`), so the script never sets the flag itself and its own sends are not guarded by it; `SafelySend`, `OnSafeSendReply` and `DegradedSendsNothing` describe the function as written, not protection any entry point has |
| `Panel` | `extension/panel.js`: the chat selector and how it keeps the selection, the enabled and shown state of the AI controls, the status dispatch, and the guards of the summarize and ask buttons |

How the source is represented:
- Code that mutates module state is a class, whose methods state their whole new state with `old`. This covers the session variables, the background worker, the bridge table, the page script, the content script and the panel.
- Pure computations are functions. Each one is related by lemmas to a partner: an inverse, an independent characterisation, or an invariant.
- Loops in the source are methods with loop invariants, proved equal to the function that specifies them. These are `formatMessagesForAI`, the retry of `initializeWhatsAppClient`, `populateChatSelector`, the `for … of` searches of `extractJidFromDom`, and the ancestor walk.
- The outside world is a parameter. This includes the WhatsApp client's answers, `fetch` results, the chat-completion call, `new Date`, `Date.now()` and the DOM.

## Model

| member | source | states |
|---|---|---|
| `JsText.Or` | backend/src/ai.service.ts:34 | `a \|\| b` on optional strings: `a` when it is a non-empty string, `b` otherwise |
| `JsText.LeadingSpace` | backend/src/ai.service.ts:169 | the count of leading white-space characters is within the string and is followed by a non-space |
| `JsText.TrailingSpace` | backend/src/ai.service.ts:169 | the count of trailing white-space characters is within the string and is preceded by a non-space |
| `JsText.LeadingSpaceBlank` | backend/src/ai.service.ts:169 | every counted leading character is white space |
| `JsText.TrailingSpaceBlank` | backend/src/ai.service.ts:169 | every counted trailing character is white space |
| `JsText.TrimStart` | backend/src/ai.service.ts:169 | the result is a suffix of the input that does not start with white space |
| `JsText.TrimEnd` | backend/src/ai.service.ts:169 | the result is a prefix of the input that does not end with white space |
| `JsText.TrimStartCutsBlank` | backend/src/ai.service.ts:169 | what `TrimStart` removes is all white space |
| `JsText.TrimEndCutsBlank` | backend/src/ai.service.ts:169 | what `TrimEnd` removes is all white space |
| `JsText.TrimIsSlice` | backend/src/ai.service.ts:169 | `trim()` returns a contiguous slice of its input |
| `JsText.TrimCutsBlank` | backend/src/ai.service.ts:169 | everything `trim()` removes on either side is white space |
| `JsText.TrimEndsWithNonSpace` | backend/src/ai.service.ts:169 | a non-empty trimmed string starts and ends with a non-space |
| `JsText.TrimEmptyIffBlank` | backend/src/index.ts:242 | `s.trim() === ""` holds exactly when `s` is all white space |
| `JsText.TrimIdempotent` | backend/src/ai.service.ts:169-170 | trimming twice is trimming once |
| `JsText.DigitChar` | backend/src/whatsapp.service.ts:222-224 | the digit character of a value 0–9 is a digit with that value |
| `JsText.DigitPrefix` | backend/src/whatsapp.service.ts:222-224 | the digit run `parseInt` reads is no longer than its input |
| `JsText.DigitPrefixSpec` | backend/src/whatsapp.service.ts:222-224 | the digit run is a prefix made only of digits, and the next character (if any) is not a digit |
| `JsText.NatToString` | backend/src/index.ts:162 | a number's decimal text is non-empty, all digits, and has no leading zero |
| `JsText.DecimalRoundTrip` | backend/src/index.ts:162 | reading a number's decimal text gives the number back |
| `JsText.DigitPrefixOfDigits` | backend/src/whatsapp.service.ts:222-224 | `parseInt` stops at the first non-digit |
| `JsText.ParseIntRoundTrip` | backend/src/index.ts:162 | `parseInt(String(n) + rest, 10) == n` for every integer `n`, when `rest` does not start with a digit |
| `JsText.ParseIntOfSignedDigits` | backend/src/whatsapp.service.ts:222-224 | an optional `-` then digits then a non-digit parse to the signed value of the digits |
| `JsText.ParseIntOfDigitsThen` | backend/src/whatsapp.service.ts:222-224 | digits followed by a non-digit parse to their value |
| `JsText.ParseIntOfMinusDigits` | backend/src/whatsapp.service.ts:222-224 | `-` then digits parse to the negated value |
| `JsText.ParseIntOfTrimmed` | backend/src/whatsapp.service.ts:222-224 | a string without leading space whose unsigned part starts with `digits` parses to their signed value |
| `JsText.ParseIntNegative` | backend/src/whatsapp.service.ts:222-224 | a leading `-` negates the parsed value |
| `JsText.ParseIntOfNat` | backend/src/index.ts:162 | a written natural number parses back to itself |
| `JsText.ParseIntOfDigits` | backend/src/whatsapp.service.ts:222-224 | a non-empty digit string parses to its decimal value |
| `JsText.IntToString` | backend/src/index.ts:162 | the text of an integer is non-empty |
| `JsText.Split` | backend/src/whatsapp.service.ts:220 | `split(sep)` returns one more part than there are separators, and no part contains the separator |
| `JsText.SplitJoin` | backend/src/whatsapp.service.ts:220 | joining the parts with the separator gives the input back |
| `JsText.SplitNoSeparator` | backend/src/whatsapp.service.ts:220 | a string without the separator splits into itself alone |
| `JsText.SplitAtFirstSeparator` | backend/src/whatsapp.service.ts:220 | the split cuts at the first separator and splits the rest |
| `JsText.SplitOfJoin` | backend/src/whatsapp.service.ts:220 | splitting a join of separator-free parts gives the parts back |
| `JsText.ContainsIff` | content.js:1083-1101 | `includes(sub)` holds exactly when `sub` occurs at some index |
| `JsText.Digits` | content.js:778-789 | `replace(/\D/g, '')` keeps only digits and never lengthens; one character gives itself when it is a digit and nothing otherwise, so with `DigitsAppend` the result is exactly the digits of the input in order |
| `JsText.StripSpaces` | content.js:778-789 | `replace(/\s+/g, '')` leaves no white space and never lengthens; one character gives itself unless it is white space, so with `StripSpacesAppend` the result is exactly the other characters in order |
| `JsText.DigitsAppend` | content.js:778-789 | the digits of a concatenation are the digits of each part, in order |
| `JsText.StripSpacesAppend` | content.js:778-789 | white space is removed from each part of a concatenation separately, keeping order |
| `JsText.LastPartSpec` | content.js:817-819 | `split('-').pop()` is the suffix after the last `-` (the whole string when there is none), and holds no `-` |
| `WhatsAppService.ReplayReadiness` | backend/src/whatsapp.service.ts:38-79 | after any sequence of client events, `clientReady` is the value set by the latest event that sets it: `qr`, `auth_failure` and `disconnected` set false, `ready` sets true |
| `WhatsAppService.ReplayQr` | backend/src/whatsapp.service.ts:38-79 | after any sequence of events, the QR code is the latest `qr` event's code, unless a later `authenticated` or `disconnected` cleared it |
| `WhatsAppService.InitErrorText` | backend/src/whatsapp.service.ts:88 | the failure status is the error's message when it has one, else `Unknown error` |
| `WhatsAppService.InitAllFail` | backend/src/whatsapp.service.ts:81-100 | when every attempt fails there are exactly `retries + 1` attempts, the last error is rethrown, and the status describes it |
| `WhatsAppService.InitFirstSuccess` | backend/src/whatsapp.service.ts:81-100 | the first attempt within the budget that succeeds supplies the client, and no later attempt is made |
| `WhatsAppService.InitAttemptsBound` | backend/src/whatsapp.service.ts:81-100 | there is at least one attempt and never more than `retries + 1` |
| `WhatsAppService.Session.constructor` | backend/src/whatsapp.service.ts:4-7 | starts not ready, with no QR code, no client, and the status `Initializing...` |
| `WhatsAppService.Session.OnQr` | backend/src/whatsapp.service.ts:38-45 | the `qr` handler stores the code, clears readiness and sets its status |
| `WhatsAppService.Session.OnLoadingScreen` | backend/src/whatsapp.service.ts:46-50 | the `loading_screen` handler only rewrites the status |
| `WhatsAppService.Session.OnAuthenticated` | backend/src/whatsapp.service.ts:51-56 | the `authenticated` handler clears the QR code and leaves readiness alone |
| `WhatsAppService.Session.OnAuthFailure` | backend/src/whatsapp.service.ts:57-64 | the `auth_failure` handler clears readiness, keeps the QR code and reports the reason |
| `WhatsAppService.Session.OnReady` | backend/src/whatsapp.service.ts:65-70 | the `ready` handler sets readiness and leaves the QR code alone |
| `WhatsAppService.Session.OnDisconnected` | backend/src/whatsapp.service.ts:71-79 | the `disconnected` handler clears readiness and the QR code |
| `WhatsAppService.Session.Initialize` | backend/src/whatsapp.service.ts:81-100 | the retry loop gives the outcome, attempt count and status of the recursive retry, and keeps the client only on success |
| `WhatsAppService.Session.GetClient` | backend/src/whatsapp.service.ts:106-111 | returns the kept client exactly when there is one, else the "not initialized" error |
| `WhatsAppService.DisplayName` | backend/src/whatsapp.service.ts:152 | a group's name is the chat's name, or its user id when the name is empty |
| `WhatsAppService.GroupsOf` | backend/src/whatsapp.service.ts:147-153 | a group entry is listed exactly when some group chat gives it; non-group chats are dropped |
| `WhatsAppService.GroupsOfAppend` | backend/src/whatsapp.service.ts:147-153 | the group list keeps the chats' order |
| `WhatsAppService.GetGroups` | backend/src/whatsapp.service.ts:136-160 | the three errors (not ready, no client, `getChats` threw and is rethrown); otherwise exactly the groups of the chats |
| `WhatsAppService.EffectiveCount` | backend/src/whatsapp.service.ts:195-206 | uses the unread counter only when unread messages are asked for and the counter is positive |
| `WhatsAppService.FetchLimit` | backend/src/whatsapp.service.ts:210 | the pool is `max(count, 1000)` when both dates are given, else the count |
| `WhatsAppService.ParseDdMmYyyy` | backend/src/whatsapp.service.ts:219-230 | a date is produced exactly when there are three `/`-parts and each one parses |
| `WhatsAppService.ParseFormattedDate` | backend/src/whatsapp.service.ts:219-230 | reading back `D/M/Y` gives `(Y, M-1, D)` |
| `WhatsAppService.FormattedDateSplits` | backend/src/whatsapp.service.ts:220 | a date written from digit strings splits into its three parts |
| `WhatsAppService.FilterByDays` | backend/src/whatsapp.service.ts:241-244 | a message is kept exactly when its timestamp lies from the first day's midnight to the last day's 23:59:59.999 |
| `WhatsAppService.FilterByDaysAppend` | backend/src/whatsapp.service.ts:241-244 | filtering keeps the messages' order |
| `WhatsAppService.ApplyDateFilter` | backend/src/whatsapp.service.ts:216-247 | no filter unless both dates are given and both parse; otherwise exactly the messages in the day range |
| `WhatsAppService.GetGroupMessages` | backend/src/whatsapp.service.ts:172-254 | the not-ready and no-client errors outside the `try`; a missing chat, a non-group chat or a failed fetch becomes `Failed to fetch messages for group …`; otherwise the date-filtered fetch of the computed pool size |
| `AiService.ConsSorted` | backend/src/ai.service.ts:31 | a message no later than the head of a sorted list keeps it sorted |
| `AiService.Insert` | backend/src/ai.service.ts:31 | insertion adds one element |
| `AiService.InsertSpec` | backend/src/ai.service.ts:31 | inserting into a sorted list keeps it sorted and adds exactly that message |
| `AiService.SortByTime` | backend/src/ai.service.ts:31 | the sort keeps the length |
| `AiService.SortByTimeSpec` | backend/src/ai.service.ts:31 | the sorted copy is in timestamp order and is a permutation of the input |
| `AiService.AtTimeAppend` | backend/src/ai.service.ts:31 | the messages sent at one second, taken from two runs, are those of each run |
| `AiService.AtTimeOfLater` | backend/src/ai.service.ts:31 | messages all later than `t` hold none sent at `t` |
| `AiService.AtTimeInsert` | backend/src/ai.service.ts:31 | an inserted message goes after the messages already there with its timestamp |
| `AiService.SortByTimeStable` | backend/src/ai.service.ts:31 | the sort is stable: messages sent at the same second keep their relative order |
| `AiService.Sender` | backend/src/ai.service.ts:34 | the sender is `You` for own messages, else the author when set, else `from` |
| `AiService.LinesAppend` | backend/src/ai.service.ts:33-48 | the lines of two runs are the lines of each run |
| `AiService.LinesSnoc` | backend/src/ai.service.ts:33-48 | one more message adds its line at the end |
| `AiService.TranscriptLines` | backend/src/ai.service.ts:28-50 | the transcript is the header, then the line of each message in chronological order, each message's line following those of all messages sorted before it |
| `AiService.LinesAround` | backend/src/ai.service.ts:33-48 | the lines of a list split around any one message |
| `AiService.FormatMessagesForAI` | backend/src/ai.service.ts:28-50 | the loop builds exactly the transcript of the sorted messages |
| `AiService.DateRangePhrase` | backend/src/ai.service.ts:76-83 | the four cases of the date phrase; it is empty exactly when neither date is given |
| `AiService.DateRangePhraseMentions` | backend/src/ai.service.ts:76-83 | every given date appears in the phrase |
| `AiService.MaxTokens` | backend/src/ai.service.ts:85-100 | the token budget for each band of message counts; it always lies in 1500–4000 |
| `AiService.MaxTokensMonotone` | backend/src/ai.service.ts:85-100 | for non-empty lists, more messages never get a smaller budget |
| `AiService.AugmentPrompt` | backend/src/ai.service.ts:168-174 | a non-blank custom text, trimmed, is put before the fixed separator and the default prompt; otherwise the default prompt is used |
| `AiService.AugmentPromptDefaultIff` | backend/src/ai.service.ts:233-239 | the default prompt is used unchanged exactly when the custom text is absent or blank, and otherwise the prompt ends with the default |
| `AiService.AugmentPromptTrimmed` | backend/src/ai.service.ts:168-174 | custom text that is already trimmed gives the same prompt |
| `AiService.ApiKey` | backend/src/ai.service.ts:8-10 | the API key is the trimmed environment variable, absent when the variable is |
| `AiService.Reply` | backend/src/ai.service.ts:190-197 | the completion's content when non-empty, else the apology; `AI API Error: …` for an API error; otherwise the fixed failure text |
| `AiService.SummaryRequest` | backend/src/ai.service.ts:183-188 | the summary request carries the count's token budget and temperature 0.5 |
| `AiService.GenerateSummary` | backend/src/ai.service.ts:60-198 | not configured without a key; the no-messages text for an empty list; otherwise the reply to the summary request |
| `AiService.QuestionRequest` | backend/src/ai.service.ts:248-253 | the question request carries 250 tokens and temperature 0.3 |
| `AiService.AnswerQuestion` | backend/src/ai.service.ts:207-263 | the key, empty-context and blank-question guards in order, otherwise the reply to the question request |
| `AiService.BlankQuestionIff` | backend/src/ai.service.ts:218-220 | a present question is refused exactly when it is all white space |
| `Routes.AuthStatus` | backend/src/index.ts:49-55 | 200 with readiness and status; a QR code is available exactly when one is held and the client is not ready |
| `Routes.AuthQr` | backend/src/index.ts:62-72 | the code when held and not ready; `already authenticated` when ready; otherwise 404 |
| `Routes.AuthQrAgreesWithStatus` | backend/src/index.ts:49-72 | `/auth/qr` hands out a code exactly when `/auth/status` says one is available |
| `Routes.QrPage` | backend/src/index.ts:79-118 | the page shows the status line and then the connected note, the code, or the waiting note |
| `Routes.NoQrOnceReady` | backend/src/index.ts:49-118 | once the latest readiness event is `ready`, no route offers a QR code |
| `Routes.NoQrAfterClear` | backend/src/index.ts:49-118 | after `authenticated` or `disconnected` with no later `qr`, no route offers a QR code |
| `Routes.Health` | backend/src/index.ts:270-277 | always 200 with `UP`, readiness and status |
| `Routes.ErrorText` | backend/src/index.ts:135 | `error.message \|\| fallback` |
| `Routes.GroupsRoute` | backend/src/index.ts:126-137 | 503 when not ready; 200 exactly when the groups were listed, with those groups; 500 with the error's text otherwise |
| `Routes.ParseCount` | backend/src/index.ts:162 | defaults to 1000 when the parameter is absent or empty, else `parseInt` |
| `Routes.ParseCountOfNumber` | backend/src/index.ts:162-166 | a written positive count is accepted as that number |
| `Routes.Project` | backend/src/index.ts:171-178 | one view per message, field for field |
| `Routes.ProjectLossless` | backend/src/index.ts:171-178 | the projection is injective: equal views mean equal messages |
| `Routes.MessagesRoute` | backend/src/index.ts:149-184 | 503, then 400 for a NaN or non-positive count, then 200 with the projected messages or 500 with the service error's text |
| `Routes.Summarize` | backend/src/index.ts:197-222 | 400 without a chat id, 503 when not ready, 500 when the fetch fails, 404 for no messages, otherwise 200 with the summary |
| `Routes.Ask` | backend/src/index.ts:236-263 | 400 without a chat id, 400 for a blank question, 503, 500, 404, otherwise 200 with the answer |
| `Routes.AiRoutesIgnoreRequestKey` | backend/src/index.ts:198 | the `openaiApiKey` in the body changes neither route's response |
| `Routes.AskAnswerOnlyWhenAllGuardsPass` | backend/src/index.ts:236-263 | an answer is produced only with a chat id, a non-blank question, a ready client and a non-empty fetch |
| `Routes.SummarizeOnlyWhenAllGuardsPass` | backend/src/index.ts:197-222 | a summary is produced only with a chat id, a ready client and a non-empty fetch |
| `Background.FailureText` | extension/background.js:25-31 | `errorData.error \|\| errorData.message \|\| prefix + status`, or the network error |
| `Background.Classify` | extension/background.js:40-48 | QR available exactly when a code is offered and the client is not ready; client ready exactly when ready; otherwise a status update carrying the status |
| `Background.HandshakePush` | extension/background.js:162-167 | after `PANEL_READY`, a push is made exactly when the poll would not send a plain status update, and it is the poll's message |
| `Background.Deliveries` | extension/background.js:122-137 | a message goes to exactly the open WhatsApp tabs that reported ready |
| `Background.DeliveriesMonotone` | extension/background.js:115-137 | a tab that reports in later also receives later broadcasts |
| `Background.Coordinator.constructor` | extension/background.js:8-11 | the initial cached status, no ready panel or tabs, nothing sent |
| `Background.Coordinator.SendToAllTabs` | extension/background.js:122-137 | appends the deliveries to ready tabs and keeps the invariant that no message reaches a tab that did not report ready |
| `Background.Coordinator.Poll` | extension/background.js:22-59 | caches the fetched status, or the failure status, with readiness mirrored; broadcasts its classification, or the backend error, only when the panel is ready |
| `Background.Coordinator.FetchGroups` | extension/background.js:68-101 | no request when the client is not ready; on success caches and stores the groups; on failure returns `[]` and broadcasts the error only for a proactive update with the panel ready |
| `Background.Coordinator.OnMessage` | extension/background.js:147-187 | `PANEL_READY` marks the panel ready, replies with the cached status and pushes the handshake; `CONTENT_SCRIPT_READY` adds the sender's tab; other types get the error reply |
| `Background.Coordinator.OnActionClicked` | extension/background.js:192-223 | forwards the toggle only to a WhatsApp Web tab that reported ready |
| `Bridge.WithMessageId` | extension/bridge.js:17-30 | the posted message is the original plus `_messageId` |
| `Bridge.Remaining` | extension/bridge.js:33-55 | a listener stays exactly when the event does not make it remove itself |
| `Bridge.ForeignAndEmptyEvents` | extension/bridge.js:33-55 | events from other windows change no listener; an event without data removes every listener, because reading its data throws |
| `Bridge.ResponseRemovesOnlyItsListener` | extension/bridge.js:35-49 | a matching response removes exactly its own listener |
| `Bridge.PendingTable.constructor` | extension/bridge.js:20-21 | an empty table with no listeners, timers or calls |
| `Bridge.PendingTable.PostToExtension` | extension/bridge.js:2-11 | posts the message from `panel-script` and changes nothing else |
| `Bridge.PendingTable.Send` | extension/bridge.js:14-83 | stores the callback and posts with the id, arming a listener and a timer; if posting throws, calls back with the send error instead; no callback is ever called twice |
| `Bridge.PendingTable.Receive` | extension/bridge.js:33-55 | the matching response calls its callback once with the response and deletes the entry |
| `Bridge.PendingTable.Timeout` | extension/bridge.js:60-72 | a still-pending request is called back with the timeout error and its listener removed; an answered one is left alone |
| `Focus.FirstHitSpec` | content.js:768-846 | the first hit of a search comes from some element, and there is none exactly when no element hits |
| `Focus.FindFirst` | content.js:768-846 | the `for … of` loop with early return finds the first hit |
| `Focus.IfTruthy` | content.js:741-752 | keeps a value exactly when it is a non-empty string |
| `Focus.Else` | content.js:741-846 | the first guess that produced something wins |
| `Focus.DrawerPhoneJid` | content.js:778-789 | a drawer span gives a JID exactly when, without white space, it is `+` and 6–15 digits |
| `Focus.DigitsIgnoreSpaces` | content.js:778-789 | removing white space does not change a text's digits |
| `Focus.DrawerPhoneJidIsNumber` | content.js:778-789 | that JID is the number without its `+`, and has 6–15 digits |
| `Focus.NameJid` | content.js:793-809 | a name gives a JID exactly when it matches the phone pattern and has at least 8 digits; the JID is its digits plus `@c.us` |
| `Focus.PatternNeedsDigitCount` | content.js:793-809 | the phone pattern alone accepts a single digit followed by spaces, and the 8-digit test is what rejects it |
| `Focus.ContainerJid` | content.js:768-775 | a container gives a JID exactly when `data-jid \|\| data-id` is truthy and names a contact or a group, and the JID is that attribute |
| `Focus.GroupJid` | content.js:812-827 | a test id gives a JID exactly when it contains `group-` and its last `-`-piece is longer than 5 characters; the JID is that piece plus `@g.us` |
| `Focus.WalkUp` | content.js:830-846 | the walk up from the selected cell returns the first truthy `data-id` among the cell and its first ten ancestors |
| `Focus.FirstHitAt` | content.js:768-846 | when element `i` is the first hit, it is the result |
| `Focus.ExtractJidFromDom` | content.js:736-854 | the eight guesses are tried in order and the first success is returned |
| `Focus.FirstHitNonEmpty` | content.js:768-846 | a search whose hits are non-empty returns a non-empty hit |
| `Focus.JidFromDomNonEmpty` | content.js:736-854 | a JID that is found is never the empty string |
| `Focus.CurrentChatInfo` | content.js:857-895 | chat info exists exactly when the header has a non-blank title; the name is the trimmed title and the JID is the guessed one |
| `Focus.DirectPhoneJid` | content.js:1212-1223 | an info span gives a JID exactly when its digits number 6–15, and the JID is those digits plus `@c.us` |
| `Focus.DataIdJid` | content.js:1202-1209 | a `data-id` is kept, unchanged, exactly when it is truthy and names a contact or a group |
| `Focus.DirectChatInfo` | content.js:1192-1230 | the trimmed title, and the first contact or group id, else the first phone number |
| `Focus.GetDirectChatInfo` | content.js:1192-1230 | the imperative search agrees with `DirectChatInfo` |
| `Focus.RequestIdOf` | content.js:536 | the panel's request id when it is truthy, else the clock |
| `Focus.RelayReply` | content.js:549-622 | the reply always carries the request id. For GET_FOCUSED_CHAT: the background's chat (its `name`, and `jid \|\| id`) when it gave one; else the DOM's chat as the fallback exactly when the DOM has one; else `No chat info available` exactly when no runtime error occurred. Otherwise a BACKGROUND_RESPONSE with exactly the runtime error's message or exactly the response, never both |
| `Focus.ShouldSendIffChanged` | content.js:903-906 | a chat is re-sent exactly when forced or when its name or JID changed |
| `Focus.FocusTracker.constructor` | content.js:15-26 | `Fresh`: nothing cached, no relay pending, nothing sent, and the degraded flag as stored |
| `Focus.FocusTracker.SendCurrentChatInfo` | content.js:897-952 | caches the current chat only when it is forced or has changed, and then announces it unless `sendMessage` throws; a throw leaves the cache updated and sends nothing |
| `Focus.FocusTracker.ExtractAndNotify` | content.js:297-362 | a new non-blank title replaces the cached name and goes to the background unless `sendMessage` throws (the throw is caught and logged); when the frame exists it is posted to the panel twice (the `chatChanged` listener and the direct post), untagged, in either case |
| `Focus.FocusTracker.OnFocusedChatUpdated` | content.js:167-191 | truthy fields replace the cached name and JID, the message is relayed to the frame, and it is always acknowledged |
| `Focus.FocusTracker.OnManualChatSelected` | content.js:964-993 | a truthy name becomes the focused chat, is sent to the background and is confirmed to the panel from the send's callback; a throwing `sendMessage` leaves the cache set but sends nothing and confirms nothing |
| `Focus.FocusTracker.OnRequestDomChatInfo` | content.js:996-1037 | posts the chat found in the DOM and announces it to the background unless `sendMessage` throws, or posts the failure with the panel's request id |
| `Focus.FocusTracker.Relay` | content.js:532-549 | arms a timer, records the request id and the relayed type its callback and timer capture, and forwards the inner message; a throwing `sendMessage` (caught at content.js:646) leaves the timer armed, sends nothing and leaves no callback due |
| `Focus.FocusTracker.OnRelayTimeout` | content.js:537-546 | posts a timed-out response carrying the request id captured when the request was relayed |
| `Focus.FocusTracker.OnRelayReply` | content.js:549-622 | the callback comes once per successful send: it clears the timer and posts the reply `RelayReply` gives for the relayed type (GET_FOCUSED_CHAT or not) and the DOM at that moment, with the request id captured when the request was relayed |
| `Focus.FocusTracker.SafelySend` | content.js:1048-1133 | in degraded mode, without a runtime, or when the send throws, nothing is sent and the callback gets the matching error (a throw switches to degraded mode); otherwise the message is sent |
| `Focus.FocusTracker.OnSafeSendReply` | content.js:1083-1101 | a `context invalidated` error switches to degraded mode and tells the frame; every outcome reaches the callback |
| `Focus.FocusTracker.ClearDegraded` | content.js:1170-1175 | the reload button and REFRESH_PAGE clear the degraded flag and reload the page: the script starts again with nothing cached, no relay pending and the flag cleared (`Fresh(false)`) |
| `Focus.FocusTracker.Reload` | content.js:1178-1188 | leaving or reloading the page loses the script's state; the flag is cleared only when the page had loaded with it set, through the `beforeunload` listener |
| `Focus.LateReplyAnsweredTwice` | content.js:537-622 | a reply arriving after the relay timeout is still posted, so the panel receives two responses with one request id |
| `Focus.DegradedSendsNothing` | content.js:1050-1058 | on a page loaded in degraded mode, repeated `safelySendMessageToBackground` calls send nothing to the background, whatever the runtime does, and each caller gets the fallback-mode error (no entry point calls that function, and the direct sends of the relay and the chat notifications are not guarded by the flag) |
| `Focus.ThrownRelayOnlyTimesOut` | content.js:532-549 | a relayed request whose send throws is answered only by its timeout, and nothing reaches the background |
| `Focus.FlagSurvivesOneReload` | content.js:1178-1188 | a flag set during a session survives the next reload, because only a page that loaded with it registers the `beforeunload` clear; the reload after that clears it |
| `Sidebar.WidthFor` | extension/content.js:54-60 | the panel is `0px` wide exactly when collapsed, and `375px` wide otherwise |
| `Sidebar.LayoutFor` | extension/content.js:79-96 | the `#app` overrides are removed exactly when collapsed; otherwise the width is `calc(100% - 375px)` and the right margin `375px`, the panel's width |
| `Sidebar.PanelWidthText` | extension/content.js:29 | the fixed panel width 375 is written `375` |
| `Sidebar.LoadCollapsed` | extension/content.js:30 | collapsed exactly when the stored value is `'true'` |
| `Sidebar.SaveLoadRoundTrip` | extension/content.js:30-36 | saving a state and reading it back gives the state |
| `Sidebar.SendToBackgroundReply` | extension/content.js:158-181 | the answer carries exactly the runtime error's message or exactly the response, never both |
| `Sidebar.OtherRelayReply` | extension/content.js:182-197 | an error is reported; a response is forwarded only when truthy |
| `Sidebar.SidebarHost.constructor` | extension/content.js:262-321 | nothing injected, polling and observing running, and `CONTENT_SCRIPT_READY` sent to the background |
| `Sidebar.SidebarHost.Inject` | extension/content.js:16-20 | injection happens once; the collapsed state comes from storage and the layout follows it |
| `Sidebar.SidebarHost.ApplyCollapsed` | extension/content.js:54-96 | width and `#app` layout follow the collapsed state |
| `Sidebar.SidebarHost.OnFrameLoad` | extension/content.js:108-118 | the frame is told the current collapsed state |
| `Sidebar.SidebarHost.SetCollapsed` | extension/content.js:145-156 | sets, lays out, saves and announces the state |
| `Sidebar.SidebarHost.OnToggleFromAction` | extension/content.js:210-233 | flips the state and replies with success and the new state |
| `Sidebar.SidebarHost.OnFrameMessage` | extension/content.js:131-203 | a toggle sets the state; a relay forwards the inner or the whole message and records which kind of answer its callback owes the frame; a throwing `sendMessage` (caught at extension/content.js:199) sends nothing and leaves no answer due; anything else is ignored |
| `Sidebar.SidebarHost.OnRelayOutcome` | extension/content.js:158-197 | the background's answer, called back once, reaches the frame in the form the kind of the relayed message calls for |
| `Sidebar.SidebarHost.OnBackgroundMessage` | extension/content.js:235-243 | other background messages are passed to the frame and acknowledged |
| `Sidebar.SidebarHost.OnPollTick` | extension/content.js:288-300 | injects (with the stored collapsed state) when the chat list is present and no panel exists, and otherwise leaves the panel, its state, width and layout alone; stops polling and observing exactly once the panel exists |
| `Sidebar.SidebarHost.OnMutation` | extension/content.js:262-284 | injects when the chat list is present and the panel is not; otherwise changes nothing |
| `Sidebar.SidebarHost.OnSettled` | extension/content.js:269-272 | disconnects the observer once the panel exists |
| `Sidebar.SidebarHost.OnGiveUp` | extension/content.js:303-307 | after 30 seconds both the poll and the observer are stopped |
| `Sidebar.ToggleTwice` | extension/content.js:210-233 | two presses of the action button restore the state, width and layout |
| `Sidebar.SetTwice` | extension/content.js:145-156 | setting a state twice is setting it once, apart from the repeated notice |
| `Sidebar.InjectTwice` | extension/content.js:16-20 | injecting again changes nothing; a panel element already in the page prevents injection |
| `Panel.GroupOptions` | extension/panel.js:241-249 | no more options than groups |
| `Panel.OptionsFor` | extension/panel.js:236-239 | the options are the empty-valued placeholder (`-- Select a Group --`, or `-- No Groups Available --` for an empty list) followed by the group options |
| `Panel.GroupOptionsIff` | extension/panel.js:241-249 | an option is offered exactly for a group with that non-empty id and name |
| `Panel.GroupOptionsAppend` | extension/panel.js:241-249 | the options keep the groups' order |
| `Panel.Values` | extension/panel.js:250-255 | the values of the options, in order |
| `Panel.NameBeforeParenSpec` | extension/panel.js:487 | `split(' (')[0]` is a prefix with no ` (` in it, and is the whole caption or is followed by ` (` |
| `Panel.AsWrittenSummaryRequest` | extension/panel.js:360-364 | the summarize body as posted carries no chat id |
| `Panel.AsWrittenAskRequest` | extension/panel.js:393-397 | the ask body as posted carries the question but no chat id |
| `Panel.AsWrittenRequestsRejected` | extension/panel.js:360-397 | as posted, both AI requests are refused with the chat-id 400, whatever the backend's state |
| `Panel.SummaryBodyFor` | backend/src/index.ts:198-202 | the corrected summarize body names the chat |
| `Panel.AskBodyFor` | backend/src/index.ts:237-244 | the corrected ask body names the chat and carries the question |
| `Panel.SummaryReachesSelectedChat` | backend/src/index.ts:197-222 | with the chat id sent, the route passes its 400 guard and fetches that chat's messages |
| `Panel.AskReachesSelectedChat` | backend/src/index.ts:236-263 | with the chat id and a non-blank question, the route passes both 400 guards |
| `Panel.PanelView.constructor` | extension/panel.js:8-12 | nothing selected or fetched |
| `Panel.PanelView.PopulateChatSelector` | extension/panel.js:230-258 | the options are the placeholder plus each usable group; the previous selection is kept when offered and otherwise becomes `""` |
| `Panel.PanelView.HideAILoading` | extension/panel.js:313-335 | the buttons are disabled exactly when no messages are fetched, and shown exactly when a chat is selected |
| `Panel.PanelView.ShowStatus` | extension/panel.js:94-111 | sets the status line; an error also hides the selector, the summarize button and the input area and shows the QR area, and a non-error leaves them alone |
| `Panel.PanelView.HideClientControls` | extension/panel.js:437-468 | hides the selector, the summarize button and the input area |
| `Panel.PanelView.FetchGroups` | extension/panel.js:171-177 | without a backend connection nothing is requested and the error status hides the client controls and shows the QR area; otherwise the group list is requested and visibility is unchanged |
| `Panel.PanelView.OnStatus` | extension/panel.js:420-471 | a ready client leads to the group list with the QR area hidden; an available QR code hides the client controls, requests the QR code and shows `Fetching QR code...` (the first step of `fetchAndDisplayQrCode`); anything else hides every control; the status is an error exactly when neither applies |
| `Panel.PanelView.OnGroups` | extension/panel.js:197-222 | fills the selector and the status line and shows the selector; on an error reports it, empties the selector, hides the client controls and shows the QR area |
| `Panel.PanelView.OnSelectionChange` | extension/panel.js:484-535 | records the selection and clears the fetched messages; a chosen chat shows disabled controls and requests its 1000 messages, the placeholder hides them |
| `Panel.PanelView.OnMessages` | extension/panel.js:505-527 | the AI controls are enabled exactly when at least one message arrived |
| `Panel.PanelView.OnSummarizeClick` | extension/panel.js:352-376 | corrected, see ## Findings: a selected chat with messages is required, and the request carries that chat's id (the script as written posts `{ messages }`) |
| `Panel.PanelView.OnAskClick` | extension/panel.js:378-410 | corrected, see ## Findings: a non-blank question, then a chat with messages, are required; the request carries the chat id and the trimmed question (the script as written posts `{ messages, question }`) |
| `Panel.SummarizeNamesTheChat` | extension/panel.js:352-376 | corrected, see ## Findings: with the corrected body every summarize request the panel sends passes the route's chat-id guard; as written every one fails it (`AsWrittenRequestsRejected`) |

## Left out

- I/O, timers and asynchrony. HTTP, `fetch`, `chrome.*` messaging, `setTimeout`/`setInterval` and `MutationObserver` are method calls or parameters. Interleavings of concurrent callbacks and stale responses are not modelled.
- Logging, `console.*`, the terminal QR code, the emoji and Hebrew UI strings, and DOM styling beyond width, layout and visibility.
- `new Date(year, month, day)` and local-time midnights: `dayStart` is a parameter, so time zones, DST and date overflow (day 32 rolling over) are not modelled.
- Numbers are unbounded integers. `parseInt` precision limits, floating-point timestamps and `Number` formatting are not modelled.
- The full text of the two default system prompts: they are parameters (`summaryPrompt`, `qaPrompt`) of what they embed.
- The Express plumbing (CORS, JSON parsing), `app.listen` and the `SIGINT` shutdown; `encodeURIComponent` in the panel's URLs.
- `backend/install.js`, `extension/panel-inline.js` and `extension/icons/icon16.js`, which are outside the core.
- The bridge's global error handler (`extension/bridge.js:86-101`). It only logs.
- `observeChatHeader` (`content.js:199-279`), the page script's own `injectSidebar` DOM construction (`content.js:364-503`), its `toggleSidebar` frame handler (`content.js:513-529`), its relay of other typed frame messages (`content.js:624-644`), its `iframe.onload` wiring (`content.js:669-732`) and `insertTextIntoWhatsAppInput` (`content.js:1268` onwards). They are DOM plumbing around the modelled operations.
- The `FORCE_DOM_CHECK_FOR_CHAT`, `PING` and `EXTRACT_CHAT_INFO_FROM_DOM` handlers (`content.js:117-164`). They call the modelled `SendCurrentChatInfo` and `CurrentChatInfo`.
- The error indicator's DOM (`content.js:1138-1169`); only its reload button is modelled, as `ClearDegraded`. What the page posts to the panel or the background before a reload is reset with the rest of the script's state, not kept as a history.
- Callbacks that are not functions are modelled as an absent callback in `Bridge`; non-boolean `isCollapsed` values are not modelled.
- `Bridge.PendingTable.Send`: message ids are supplied fresh instead of drawn at random, so an id collision is not modelled.
- `Panel.PanelView.OnSummarizeClick`, `Panel.PanelView.OnAskClick` and `Panel.SummarizeNamesTheChat` describe the panel with the corrected request bodies (see ## Findings), not the script as written. The as-written bodies are `Panel.AsWrittenSummaryRequest` and `Panel.AsWrittenAskRequest`.
- `Panel.PanelView.OnSummarizeClick` and `Panel.PanelView.OnAskClick` stop at sending the request. The answer's chat line and the `finally` that re-enables the buttons are not modelled.
- `Panel.PanelView.HideClientControls` does not model the QR image element itself, only whether the QR area is shown.
- `Focus.FocusTracker.constructor` starts `currentChatJid` as `null`. In `content.js` that variable is never declared, so reading it before its first assignment throws a `ReferenceError`; the model does not throw there.
- `AiService.SummaryRequest` and `AiService.QuestionRequest` state the token budget and temperature. The prompt and query texts are computed by the model but not stated in the contract, because they are fixed templates.
- `Focus.FocusTracker.SendCurrentChatInfo` does not model its callback's CHAT_SWITCHED_TO_NAME post to the frame (`content.js:927-941`). It would fire only on a `success` reply, and the background answers that message type with `success: false` (`extension/background.js:179-182`).
- `Bridge.PendingTable.PostToExtension` does not model its `catch` (`extension/bridge.js:3-10`), which only logs.
- `Panel.PanelView.OnStatus` stops at requesting the QR code; the rest of `fetchAndDisplayQrCode` (`extension/panel.js:124-163`) is not modelled.
- `Routes.QrPage` states the page's content as a datatype, not its HTML.

## Findings

| source | as written | input that shows it | evidently intended | confidence | as-written member | corrected member |
|---|---|---|---|---|---|---|
| extension/panel.js:360-364 | the summarize button posts `{ messages }` with no `chatId`, and `/ai/summarize` (backend/src/index.ts:198-202) answers 400 when `chatId` is missing and ignores `messages` | any click with a selected chat that has messages: the body is `{"messages":[…]}` and the route returns 400 "Chat ID is required for summarization." | post the selected chat's id so the route fetches and summarizes that chat | not executed | `Panel.AsWrittenRequestsRejected` | `Panel.SummaryReachesSelectedChat` |
| extension/panel.js:393-397 | the ask button posts `{ messages, question }` with no `chatId`, and `/ai/ask` (backend/src/index.ts:239-241) answers 400 when `chatId` is missing | any non-blank question with a selected chat: the route returns 400 "Chat ID is required to answer a question." | post the selected chat's id with the question | not executed | `Panel.AsWrittenRequestsRejected` | `Panel.AskReachesSelectedChat` |
