# Chat orchestration of the games-predictor assistant, in Dafny

This project models the chat layer of a Next.js assistant: the chat
endpoint that classifies each request before streaming an answer, the
bundled model registry and its runtime type guard, the conversation-log
edits behind "edit and regenerate" and "reload from here", the registration
gate that stops an unregistered user after the first question, the page's
view switch and registration state, the model picker, the input panel's
gating rules, the assistant-message text preprocessing, the registration
modal, and the server-action stubs left after chat history was switched off.

Each source file is one module:

| module | file | form |
|---|---|---|
| `ChatRoute` | route.dfy | pure functions over JSON values; the request chain is `Post` |
| `ModelConfig` | models.dfy | the `validateModel` guard and the all-or-nothing `getModels` |
| `Chat` | chat.dfy | log functions plus the class `ChatSession` (log, stream data, fired callbacks) |
| `Page` | page.dfy | the class `PageState` (view, flags, user id, `localStorage`) |
| `ModelSelector` | selector.dfy | the grouping loop, the toggle and the cookie restore, class `ModelSelectorState` |
| `ChatPanel` | panel.dfy | gating predicates and the class `ChatPanelState` |
| `MessageView` | message.dfy | LaTeX rewrite, word split, and the in-place code renderer on an `array` |
| `RegistrationModal` | registration.dfy | id check, outcome mapping and the class `RegistrationModalState` |
| `AppActions`, `ChatActions` | actions.dfy, chat_actions.dfy | constant-returning server actions |

Helper modules: `Js` (JSON/JavaScript values; property reads that throw on
`null` and `undefined`; truthiness; `typeof`; `String(...)`), `Strings`
(JavaScript whitespace, `trim`, `indexOf`, `includes`, string `replace`),
`Messages` (the message shape of the `ai` library, which is not part of this
model), `Wrappers` (`Option`).

Everything the code gets from outside is an input. This covers
`JSON.parse` and `JSON.stringify`, `isProviderEnabled`, `createModelId`, the
two stream builders, `generateId(16)`, and the parsed answers of the status
requests. Callbacks the components fire (`reload`, `handleSubmit`, `append`,
the gate trigger, `stop`, router pushes, `onRegistrationSuccess`) are
recorded, in order, in an `effects` field or a counter. React effects and
timers are methods that the caller invokes.

Behaviour of the code worth noting:
- `getModels` does not filter: one invalid entry empties the whole list.
- The chat endpoint uses the cookie's model without `validateModel`.
- `onQuerySelect` and the pending game-message effect append without
  consulting the registration gate.
- Reload-from looks for a user message strictly before the target.
- The panel appends `query` on the first run of its effect that sees a
  non-blank query. That run need not be the first render.

## Model

| member | source | states |
|---|---|---|
| ChatRoute.SelectModel | app/api/chat/route.ts:49-57 | the parsed cookie when it is present, non-empty and parses; the default descriptor in every other case |
| ChatRoute.StrategyFor | app/api/chat/route.ts:72-86 | native strategy exactly when `toolCallType` reads `"native"`; any other value, absent included, is manual |
| ChatRoute.CatchError | app/api/chat/route.ts:87-97 | 400 with the empty-batch text iff an `Error` whose message contains "messages must not be empty"; otherwise 500 "Internal Server Error" with "Error processing your request" |
| ChatRoute.IsEmptyBatch | app/api/chat/route.ts:24 | the empty-batch test; EmptyBatchRejectedFirst states that it answers 400 before any other check |
| ChatRoute.IsSharePage | app/api/chat/route.ts:31-32 | the share-page test; SharePageForbidden states that it answers 403 before the model is resolved |
| ChatRoute.Post | app/api/chat/route.ts:20-98 | only 400, 403, 404 or 500 are returned; a streamed request has search off and a builder that did not throw; AcceptedRequestStreams states the converse |
| ChatRoute.EmptyBatchRejectedFirst | app/api/chat/route.ts:24-29 | missing or empty `messages` gives 400 "Messages array cannot be empty." whatever the referer, cookie, registry and builders |
| ChatRoute.SharePageForbidden | app/api/chat/route.ts:31-39 | a non-empty batch from a referer containing `/share/` gives 403, before the model is resolved |
| ChatRoute.NotFoundIff | app/api/chat/route.ts:59-70 | past the request checks: 404 iff the provider is disabled or `enabled === false`, with body "Selected provider is not enabled " + provider id; a missing `enabled` does not reject |
| ChatRoute.StreamedRequestShape | app/api/chat/route.ts:44-86 | a streamed request passed every check and carries the selected model, the request's messages and chat id, `searchMode` false, and the strategy the model declares |
| ChatRoute.AcceptedRequestStreams | app/api/chat/route.ts:44-86 | a request past the checks with a resolved model whose provider is enabled and which is not switched off is built with the model's own strategy, messages, chat id and search off; it streams iff the builder returns normally, else the `catch` answers |
| ChatRoute.DefaultModelStreamsManually | app/api/chat/route.ts:11-18 | without a cookie the Gemini 2.0 Flash default is used and streams with the manual strategy |
| ChatRoute.UnvalidatedCookieModelStreams | app/api/chat/route.ts:49-57 | a cookie object holding only a `providerId` fails `validateModel` yet is streamed |
| ChatRoute.NullCookieModelFails | app/api/chat/route.ts:59-61 | a cookie parsing to `null` makes the property read throw, answered with 500 |
| ChatRoute.PropertyErrorIsInternal | app/api/chat/route.ts:87-97 | the TypeError of a property read on `null` or `undefined` is answered with 500, not with the empty-batch 400 |
| ModelConfig.ValidateModel | lib/config/models.ts:8-19 | throws exactly on `null`/`undefined`; only objects pass |
| ModelConfig.EncodeIsValid | lib/config/models.ts:8-19 | every well-typed descriptor passes the guard and decodes back to itself |
| ModelConfig.ValidIsEncoded | lib/config/models.ts:8-19 | every value that passes the guard reads, field by field, like the encoding of a descriptor |
| ModelConfig.Every | lib/config/models.ts:29 | `true` iff every entry validates; a throw only when some entry is nullish |
| ModelConfig.GetModels | lib/config/models.ts:24-40 | the result is `[]` or exactly the configured array, every element validates, and an all-valid array is returned unchanged; nothing escapes as a throw |
| ModelConfig.GetModelsAllOrNothing | lib/config/models.ts:32-35 | one entry that fails validation empties the result |
| ModelConfig.NullEntryEmptiesRegistry | lib/config/models.ts:36-39 | a `null` entry after a valid one yields `[]` |
| ModelConfig.GetModelsOfEncoded | lib/config/models.ts:29-31 | a list of well-typed descriptors comes back unchanged |
| Chat.IsLoading | components/chat.tsx:78 | loading exactly while the status is neither ready nor errored |
| Chat.UserCount | components/chat.tsx:103-104 | the count of user messages is at most the log's length; UserCountPositiveIff states it is positive iff a user message exists |
| Chat.GateBlocked | components/chat.tsx:102-109 | blocked iff not registered and some message has role `user`; open whatever the registration when there is none |
| Chat.UserCountPositiveIff | components/chat.tsx:103-104 | the user-message count is at least 1 iff a user message exists |
| Chat.WithContent | components/chat.tsx:120 | same length; exactly the messages with the id get the new content, all others unchanged |
| Chat.FindIndex | components/chat.tsx:123 | -1 iff no message has the id; otherwise the first index with it |
| Chat.FindLastUser | components/chat.tsx:137 | -1 iff no user message; otherwise the last index of one |
| Chat.EditedLog | components/chat.tsx:118-132 | the log left by an edit; EditFound, EditedIsTail and EditNotFound state its shape for a found and an unknown id |
| Chat.EditFound | components/chat.tsx:118-132 | with the id at index i, the log becomes the first i messages followed by the edited i-th |
| Chat.EditedIsTail | components/chat.tsx:125-126 | the new log has i+1 messages and ends with the edited message carrying the new content |
| Chat.EditNotFound | components/chat.tsx:124 | an unknown id leaves the log equal to the original |
| Chat.ReloadLog | components/chat.tsx:134-145 | the log left by reload-from; ReloadFound and ReloadUnchangedIff state when and where it is cut |
| Chat.ReloadFound | components/chat.tsx:136-141 | with a user message before the target, the log becomes a non-empty proper prefix ending at the last such user message; no user message lies between it and the target |
| Chat.ReloadUnchangedIff | components/chat.tsx:134-145 | the log is unchanged iff the target is missing or no user message precedes it |
| Chat.ReloadExample | components/chat.tsx:136-141 | reloading from the last assistant message of [user, assistant, user, assistant] keeps the first three |
| Chat.ChatSession.constructor | components/chat.tsx:58-62 | the session starts with the saved messages as its log, no stream data and no effects |
| Chat.ChatSession.CheckRegistrationGate | components/chat.tsx:102-109 | returns the gate's verdict and fires the trigger exactly when blocked; the log is untouched |
| Chat.ChatSession.HandleInterceptSubmit | components/chat.tsx:111-116 | blocked: only the trigger fires; open: stream data cleared, then the hook's submit is called |
| Chat.ChatSession.HandleUpdateAndReloadMessage | components/chat.tsx:118-132 | blocked: only the trigger; open: log becomes the edited log, and only a found id clears data and requests a regeneration with the chat id |
| Chat.ChatSession.HandleReloadFrom | components/chat.tsx:134-145 | blocked: only the trigger; open: log becomes the reload log and `reload` is called with the caller's options, found or not |
| Chat.ChatSession.OnQuerySelect | components/chat.tsx:97-99 | appends the query as a user message; the log and data are untouched |
| Chat.ChatSession.ConsumePendingMessage | components/chat.tsx:86-91 | a pending message with a consumer is appended and reported consumed; otherwise nothing fires |
| Page.HasMessages | app/page.tsx:106 | true iff some message has a character that is not whitespace |
| Page.Flip | app/page.tsx:81 | the other view mode |
| Page.PageState.constructor | app/page.tsx:19-26 | the chat view, no messages seen, no user id, not registered and the modal closed, over the given storage |
| Page.PageState.InitUserId | app/page.tsx:30-37 | a stored non-empty id is reused; otherwise the generated id is stored and used; afterwards the stored id equals the user id |
| Page.PageState.CheckInitialStatus | app/page.tsx:39-61 | skipped without a user id; a stored `registered` status registers without the network; otherwise only a `registered` answer registers and is stored; registration never reverts |
| Page.PageState.ToggleViewMode | app/page.tsx:76-82 | with messages and no registration the modal opens and the view stays; otherwise the view flips |
| Page.PageState.ToggleTwice | app/page.tsx:76-82 | two toggles the gate lets through restore the view |
| Page.PageState.OnMessagesChange | app/page.tsx:102-107 | `hasMessages` becomes the non-blank test of the new log; nothing else changes |
| Page.PageState.OnRegistrationGateTrigger | app/page.tsx:109 | the registration modal opens |
| Page.PageState.OnRegistrationSuccess | app/page.tsx:159-164 | registered, modal closed, status `registered` stored |
| ModelSelector.EnabledModels | components/model-selector.tsx:62 | every model kept is enabled |
| ModelSelector.FilterThenGroup | components/model-selector.tsx:61-73 | grouping the filtered list gives the same groups and key order as the enabled models of the whole list |
| ModelSelector.InGroupCounts | components/model-selector.tsx:63-70 | each occurrence of an enabled model is in the group of its provider name and in no other group |
| ModelSelector.ProviderOrderMembers | components/model-selector.tsx:65-67 | a provider has a key iff its group is non-empty |
| ModelSelector.ProviderOrderDistinct | components/model-selector.tsx:65-67 | keys are created once each |
| ModelSelector.GroupModelsByProvider | components/model-selector.tsx:60-74 | the keys are the providers with enabled models, in first-appearance order; each group is that provider's enabled models in input order |
| ModelSelector.NewValue | components/model-selector.tsx:124 | empty iff the id is the current value or empty; otherwise the id, which differs from the current value |
| ModelSelector.SelectTwice | components/model-selector.tsx:124 | selecting the same id twice returns to the original value from nothing or from that id |
| ModelSelector.FindModel | components/model-selector.tsx:127-129 | the first model whose id matches, or none iff no model matches |
| ModelSelector.RestoredValue | components/model-selector.tsx:105-121 | a value is restored iff the cookie parses to a non-null value with truthy `id` and `providerId` |
| ModelSelector.SaveThenRestore | components/model-selector.tsx:105-144 | a saved selection is restored on the next mount when its id and provider id are non-empty |
| ModelSelector.SavedRecordStreamsManually | components/model-selector.tsx:131-137 | the saved cookie record has no `toolCallType` or `enabled`, so the chat endpoint streams it with the manual strategy |
| ModelSelector.ModelSelectorState.constructor | components/model-selector.tsx:101-103 | the popover starts closed and the value empty |
| ModelSelector.ModelSelectorState.RestoreSavedModel | components/model-selector.tsx:105-121 | no cookie: nothing; restorable: the value is set; otherwise the cookie is cleared and the value kept |
| ModelSelector.ModelSelectorState.HandleModelSelect | components/model-selector.tsx:123-144 | the value toggles; the matching model's record is saved or the cookie cleared; the popover closes |
| ChatPanel.ToolInvocationInProgress | components/chat-panel.tsx:86-96 | true iff the last message is an assistant message with parts whose last part is a tool invocation in the `call` state |
| ChatPanel.UserMessageEndsToolCall | components/chat-panel.tsx:87-89 | a log ending in a non-assistant message, or one without parts, has no call in progress |
| ChatPanel.ToolCallDependsOnLast | components/chat-panel.tsx:88-95 | only the last message decides |
| ChatPanel.EnterKey | components/chat-panel.tsx:198-204 | submits iff Enter without Shift, not composing, not locked, and the input has a non-whitespace character; the same key on a blank input is prevented |
| ChatPanel.SendDisabled | components/chat-panel.tsx:225 | disabled iff (blank input and not loading) or a tool call is in progress |
| ChatPanel.InputDisabled | components/chat-panel.tsx:195 | the textarea lock; StopReachableWhileLoading, IdleSendIff and HandleKeyDown state its effect |
| ChatPanel.ShowSuggestions | components/chat-panel.tsx:105-111 | the suggestions rule that SuggestionsEffect stores |
| ChatPanel.StopReachableWhileLoading | components/chat-panel.tsx:195-226 | while loading with no pending call the textarea is locked but the button is not disabled |
| ChatPanel.IdleSendIff | components/chat-panel.tsx:195-225 | when idle, typing is possible and sending is possible iff the input is non-blank |
| ChatPanel.ChatPanelState.constructor | components/chat-panel.tsx:54-61 | no composition, no Enter lock, unfocused, no suggestions, first render pending, no effects; the query is not yet appended |
| ChatPanel.ChatPanelState.HandleKeyDown | components/chat-panel.tsx:195-204 | while the textarea is disabled (loading or a tool call pending) no key does anything; otherwise the form is submitted exactly when the Enter rule says so, and only with a non-blank input |
| ChatPanel.ChatPanelState.ClickSendButton | components/chat-panel.tsx:215-230 | a disabled button does nothing; otherwise an activation while loading stops, else submits |
| ChatPanel.ChatPanelState.HandleNewChat | components/chat-panel.tsx:268-278 | a click while the button is disabled (loading or a tool call pending) changes nothing; otherwise the log becomes empty and the router goes to `/` |
| ChatPanel.ChatPanelState.QueryEffect | components/chat-panel.tsx:98-103 | a non-blank query is appended as a user message on the first qualifying run only; afterwards the effect never appends |
| ChatPanel.ChatPanelState.SuggestionsEffect | components/chat-panel.tsx:105-111 | suggestions shown iff focused, input empty and no messages |
| ChatPanel.ChatPanelState.ReceiveProps | components/chat-panel.tsx:42-53 | the props `input`, `messages` and `isLoading` are replaced; the panel's own state is kept |
| ChatPanel.ChatPanelState.HandleCompositionStart | components/chat-panel.tsx:74 | composition starts; nothing else changes |
| ChatPanel.ChatPanelState.HandleFocus | components/chat-panel.tsx:205 | the input is focused; nothing else changes |
| ChatPanel.ChatPanelState.HandleCompositionEnd | components/chat-panel.tsx:75-79 | composition ends and Enter is locked |
| ChatPanel.ChatPanelState.EnterLockTimerFired | components/chat-panel.tsx:78 | the Enter lock is released |
| ChatPanel.ChatPanelState.BlurTimerFired | components/chat-panel.tsx:206-212 | focus is kept only when the newly focused element is inside the suggestions |
| ChatPanel.ChatPanelState.SubmitSuggestion | components/chat-panel.tsx:236-240 | the suggestion becomes the input and focus is released |
| MessageView.LocatePair | components/message.tsx:123-133 | a delimiter pair occurs iff some closing delimiter follows the first opening one; the first opening delimiter and the first closing one after it are then the leftmost, shortest match |
| MessageView.FirstPairRewritten | components/message.tsx:123-133 | that first match becomes wrapper + enclosed text + wrapper, and the rewrite goes on after its closing delimiter |
| MessageView.NoPairUnchanged | components/message.tsx:123-133 | a text with no delimiter pair is returned unchanged |
| MessageView.ReplacePairsChangesIff | components/message.tsx:124-131 | the text changes iff a delimiter pair is present |
| MessageView.ContainsLaTeX | components/message.tsx:46-48 | true iff a `\[..\]` or a `\(..\)` pair occurs |
| MessageView.ReplacePairs | components/message.tsx:124-131 | one regex replace pass; LocatePair, FirstPairRewritten, NoPairUnchanged and ReplacePairsChangesIff state its meaning |
| MessageView.PreprocessLaTeX | components/message.tsx:123-133 | display pairs become `$$`, then inline pairs `$`; NoLaTeXUnchanged and BlockLaTeXRewritten state its effect |
| MessageView.NoLaTeXUnchanged | components/message.tsx:123-133 | text without a complete pair is returned unchanged |
| MessageView.BlockLaTeXRewritten | components/message.tsx:124-127 | text with a display pair is changed by the first pass |
| MessageView.BotMessage | components/message.tsx:46-113 | math plugins iff `containsLaTeX`; the paragraph, code and link overrides iff not; the text rendered equals the preprocessed text in both branches |
| MessageView.SplitFromConcat | components/message.tsx:22 | the pieces of the split concatenate back to the text |
| MessageView.SplitFromAlternating | components/message.tsx:22 | the pieces alternate between words without whitespace and non-empty whitespace runs; inner words are not empty |
| MessageView.SplitFromStartsWithWord | components/message.tsx:22 | a text starting with a non-whitespace character starts with a non-empty word |
| MessageView.SplitFrom | components/message.tsx:22 | the split from a position; SplitFromConcat, SplitFromAlternating and SplitFromStartsWithWord state its meaning |
| MessageView.SplitKeepingSpaces | components/message.tsx:22 | the pieces concatenate to the text and alternate between words and maximal whitespace runs |
| MessageView.SplitOfEmpty | components/message.tsx:22 | the empty string splits into one empty piece |
| MessageView.AnimatedText | components/message.tsx:16-36 | a string becomes spans reading back as the string; other children pass through |
| MessageView.LanguageMatchMeaning | components/message.tsx:97 | the match position is -1 iff no `language-` is followed by a word character; otherwise it is the leftmost such position |
| MessageView.LanguageFrom | components/message.tsx:97 | the word run after the first `language-` followed by a word character, or "" iff there is none |
| MessageView.LanguageOf | components/message.tsx:97-108 | empty iff there is no class name or no `language-` followed by a word character in it |
| MessageView.LanguageOfExample | components/message.tsx:108 | `language-ts` gives `ts` |
| MessageView.StripFinalNewline | components/message.tsx:109 | exactly one final newline removed when present; otherwise unchanged |
| MessageView.RenderCode | components/message.tsx:88-113 | a first child equal to the cursor renders as the cursor; otherwise the first child's quoted cursor is unquoted in place and the children render inline or as a block of their joined text |
| RegistrationModal.StatusUrl | components/registration-modal.tsx:39 | the status endpoint, then `?oneWinId=`, then the id, and nothing else |
| RegistrationModal.Classify | components/registration-modal.tsx:38-50 | registered iff the answer's status is `registered`; failed iff the request failed or the answer is null |
| RegistrationModal.RegistrationModalState.BeginVerify | components/registration-modal.tsx:30-36 | an id that is empty or has a non-digit: only the numeric-id error, checking unchanged; otherwise checking starts, the error clears and the URL is returned |
| RegistrationModal.RegistrationModalState.CompleteVerify | components/registration-modal.tsx:38-53 | registered answers call back once; others set the not-found or failure error; checking ends |
| RegistrationModal.RegistrationModalState.HandleVerify | components/registration-modal.tsx:29-54 | the whole handler: invalid id, or one outcome with checking ended |
| RegistrationModal.RegistrationModalState.Render | components/registration-modal.tsx:56-98 | nothing iff closed; otherwise the affiliate link tagged with the user id, input and button locked while checking |
| RegistrationModal.FailureNeverRegisters | components/registration-modal.tsx:48-50 | a failed request or a null answer is a failure with the "Verification failed" text |
| RegistrationModal.OtherStatusIsNotFound | components/registration-modal.tsx:45-47 | any other status is a not-found |
| RegistrationModal.NumericIdExamples | components/registration-modal.tsx:30 | digit strings pass; empty, letters, spaces and signs fail |
| RegistrationModal.RegistrationModalState.constructor | components/registration-modal.tsx:25-27 | empty id, not checking, no error, no success call |
| RegistrationModal.IsNumericId | components/registration-modal.tsx:30 | the id test; NumericIdExamples and BeginVerify state its use |
| RegistrationModal.RegistrationModalState.HandleInput | components/registration-modal.tsx:85 | the typed value becomes the id; checking, error and callbacks are unchanged |
| AppActions.FetchModelsAction | app/actions.ts:8-16 | returns exactly the registry's list, every element valid |
| AppActions.FetchModelsNeverFails | app/actions.ts:12-15 | the rethrow branch is never taken |
| AppActions.GetChat | app/actions.ts:22-25 | `null` |
| AppActions.GetChats | app/actions.ts:28-31 | `[]` |
| AppActions.RemoveChat | app/actions.ts:34-39 | the history-disabled error record |
| AppActions.ClearChats | app/actions.ts:42-47 | the history-disabled error record |
| AppActions.GetSharedChat | app/actions.ts:50-53 | `null` |
| AppActions.ShareChat | app/actions.ts:56-61 | the history-disabled error record |
| AppActions.HistoryActionsIgnoreArguments | app/actions.ts:22-61 | every history action answers the same whatever its arguments |
| ChatActions.UserOrAnonymous | lib/actions/chat.ts:18 | the given user id, `anonymous` when absent |
| ChatActions.GetChats | lib/actions/chat.ts:13-16 | `[]` |
| ChatActions.GetChat | lib/actions/chat.ts:18-21 | `null` |
| ChatActions.ClearChats | lib/actions/chat.ts:23-28 | no data change; revalidates `/` then redirects to `/` |
| ChatActions.SaveChat | lib/actions/chat.ts:30-34 | returns `undefined` |
| ChatActions.GetSharedChat | lib/actions/chat.ts:36-39 | `null` |
| ChatActions.ShareChat | lib/actions/chat.ts:41-44 | `null` |
| ChatActions.StubsCompared | lib/actions/chat.ts:41-44 | this `shareChat` answers `null` where the other one returns an error record; the other stubs agree |

## Left out

- `maxDuration` (app/api/chat/route.ts:9) is a hosting-platform setting that no code of the route reads; it is not modelled.
- The stream builders, the `ai` library and `useChat` are not part of this model. The builders' answer is an input saying only whether they threw, and `reload`, `append`, `handleSubmit` and `stop` are recorded effects.
- ChatRoute.Post: a builder that rejects asynchronously after returning is not modelled. Only a synchronous throw reaches the `catch`.
- Numbers are integers. No float arithmetic occurs on the modelled paths; the animation delays `index * 0.02` are not modelled.
- ModelSelector.GroupModelsByProvider: the grouping object is modelled without a prototype. In the code, a provider named `__proto__`, `constructor`, `toString`, `hasOwnProperty` or any other inherited `Object.prototype` member finds an existing non-array value under `groups[provider]`, so `push` throws a TypeError; the model groups such a provider like any other. The reordering `Object.entries` applies to integer-like keys is not modelled either: the model states first-appearance order.
- Framework and browser calls are inputs or effects: `cookies()`, `localStorage`, `fetch`, `JSON.parse`/`stringify`, `generateId`, `createModelId`, `isProviderEnabled`, `revalidatePath`/`redirect`, and the router.
- `toast`, `console` and the history stubs' log lines are not modelled.
- React scheduling is reduced to explicit method calls: effects, timers, scroll listeners, and re-renders (`ReceiveProps`).
- The scroll-to-bottom button and the auto-scroll hook are not modelled. They depend on window geometry.
- Page.PageState.CheckInitialStatus: the request URL carrying the user id is not modelled, only the parsed answer.
- The game prediction section, the manual researcher agent, and the static or presentational components are not part of this model.
- MessageView.RenderCode: children are modelled as strings, so the TypeError a non-string first child would raise is not modelled.
- RegistrationModal.RegistrationModalState.BeginVerify: a second click during a check is ignored because the button is disabled while checking (Render states this); the handler itself does not guard against it.
- The `tags` icons, the attributes of the rendered elements and the CSS class lists are not modelled, except the `disabled` rules.
- ChatPanel.StopReachableWhileLoading / ChatPanel.ChatPanelState.ClickSendButton: the wrapper around the textarea and the send button gets `pointer-events-none` while loading or while a tool call is pending (components/chat-panel.tsx:179-180). So in the page a mouse click never reaches `stop` while a reply streams; only keyboard activation of the focused button does. `ClickSendButton` models activation by any means, and neither member captures that the mouse is blocked.
