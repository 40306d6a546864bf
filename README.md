# Block Query: a Dafny model

Block Query answers blockchain questions with several transformer models. It has two parts:

- **The inference server.** It loads up to four models (BART, T5, Flan-T5 and Pegasus) at startup. It reports its health and its model list. On `/predict` it asks the chosen models one question and returns one answer per model.
- **The Next.js web client.** It stores conversations through the `/api/chats` route and keeps the open conversation's messages on screen. It also offers a model picker and a question box, and probes the server's health.

This project models the logic of both parts and proves what each part promises:

- **Server registry and endpoints.** `InferenceServer` models the registry of loaded models and tokenizers as a class with the dictionaries as fields. `/predict` is a method proved against the pure `Respond` function. The answer loop and the startup loop are methods with loop invariants. Model selection, the 400 and 503 rejections, the defaulted generation parameters, prompt preparation, `/health`, `/models` and the removal of generation attributes from the Pegasus config are functions with lemmas.
- **Chat route.** `ChatsRoute` models POST and GET `/api/chats` as functions from a store and a request to a new store and a reply. They cover the authentication gate, the defaulted title and model name, the message list of a new chat, the owner filter and the newest-first order of the listing.
- **Chat container.** `ChatContainer` is the client component that holds the chat list. It appends a message only to the chat whose decimal id is selected. Its three screens are loading, welcome and chat.
- **Chat view.** `ChatComponent` is the conversation view. It finds the first chat with the selected id, classifies roles without regard to case, and labels each bubble.
- **Model picker and question box.** `ModelSelector` is the picker's toggle, with the list it reports and the caption of its trigger button. `ChatInput` is the question box: its submit guard and the conditions that disable it.
- **Health probe.** `ServerStatus` is the client's health probe, over an abstract fetch outcome.
- **Cross-file lemmas.** `Integration` holds properties that span files:
  - the probe accepts every health reply the server can send;
  - the picker offers exactly the configured models;
  - a picked model is refused only when it is not loaded;
  - a newly created chat is shown as its question followed by its answers.

Shared pieces:

- `Wrappers` holds `Option`.
- `Text` holds ASCII strip, lower-case and upper-case, the decimal rendering of ids, and `join`.
- `ChatData` holds the chat and message records.

External effects enter as parameters:

- Model loading and text generation. Each configured model has a `LoadOutcome`, and generation is a `Generator` function that either yields text and a latency or raises.
- The authentication result, as an optional user id.
- Whether the database call succeeds.
- The clock and the client-side message ids.
- The outcome of the health fetch.

## Model

| member | source | states |
|---|---|---|
| Text.Join | server/main.py:211 | `", ".join(parts)`: empty for no parts, the part itself for one, and otherwise it starts with the first part and the separator and ends with the last part. The definition follows `str.join` |
| Text.TrimStartRemovesSpacePrefix | server/main.py:277 | `lstrip` removes exactly a prefix of whitespace: what remains is a suffix of the input that is empty or starts with a non-space |
| Text.TrimEndRemovesSpaceSuffix | server/main.py:277 | `rstrip` removes exactly a suffix of whitespace: what remains is a prefix of the input that is empty or ends with a non-space |
| Text.Strip | server/main.py:277 | `strip()` is the input with a whitespace prefix and a whitespace suffix cut off. It has no whitespace at either end, and it is empty exactly when the input is all whitespace |
| Text.StripIdempotent | server/main.py:277 | stripping twice is the same as stripping once |
| Text.Lower | server/main.py:277 | `lower()` keeps the length, maps each character on its own and leaves no upper-case letter |
| Text.Upper | src/components/chat-component.tsx:130 | `toUpperCase()` keeps the length and maps each character on its own |
| Text.StripLowerCommute | server/main.py:277 | lower-casing and stripping commute, so `question.lower().strip()` equals stripping first and then lower-casing |
| Text.DecimalString | src/components/chat-component.tsx:36 | `id.toString()` is a non-empty string of digits whose last digit is the id modulo 10, with no leading zero except for the id 0 |
| Text.DecimalStringValue | src/components/chat-component.tsx:36 | read back as a decimal numeral, `id.toString()` gives the id |
| Text.DecimalStringInjective | src/components/chat-component.tsx:36 | two different ids never render to the same string, so matching on the string matches the id |
| InferenceServer.ConfiguredModelsDistinct | server/main.py:26-31 | no model name is configured twice |
| InferenceServer.ModelsThatLoad | server/main.py:40-78 | after startup the models dictionary holds exactly the configured names whose model object loaded, whether or not the tokenizer then loaded |
| InferenceServer.LoadModels | server/main.py:36-79 | the startup loop tries each name in order: its key order is the `ModelsThatLoad` order without duplicates, each kept model has its loaded config, and a tokenizer is present exactly for the names whose model and tokenizer both loaded |
| InferenceServer.Server.Startup | server/main.py:36-79 | the registry after startup satisfies the registry invariant and holds exactly what `LoadModels` found, for the configured names |
| InferenceServer.Server.Shutdown | server/main.py:82-83 | both dictionaries are cleared, which keeps the invariant |
| InferenceServer.EffectiveParameters | server/main.py:102-105 | absent parameters become max_length 200, temperature 1.0 and num_beams 4, and each absent field of a given object takes its own default |
| InferenceServer.SelectedModels | server/main.py:204 | a non-empty `models` list is the selection exactly as given, order and duplicates included; otherwise the selection is every loaded model in load order. It is empty only when nothing was requested and nothing is loaded |
| InferenceServer.Unloaded | server/main.py:207 | the unavailable list holds exactly the requested names that are not loaded, and is empty exactly when every requested name is loaded |
| InferenceServer.UnloadedMultiplicity | server/main.py:207 | each unloaded name appears in the list as often as it was requested, and loaded names never appear |
| InferenceServer.UnloadedAppend | server/main.py:207 | the list keeps request order: the unavailable list of a concatenation is the concatenation of the two lists |
| InferenceServer.PreparedQuestion | server/main.py:277 | the prepared question is `Lower(Strip(question))`, with no whitespace at either end and no upper-case letter |
| InferenceServer.PromptText | server/main.py:272-343 | a prompt exists exactly for the four configured models; it is the prepared question for BART and Pegasus and `"question: "` followed by it for T5 and Flan-T5 |
| InferenceServer.ErrorText | server/main.py:260 | every error answer starts with `"Error generating answer: "` |
| InferenceServer.AnswerFor | server/main.py:216-263 | an answer carries its model's name. When the model generates, the answer is the generated text and its latency. Otherwise (no processor, a missing tokenizer, an exception) it is an error answer with latency 0 |
| InferenceServer.Respond | server/main.py:194-269 | `/predict` returns 503 exactly when no model is loaded. It returns 400 exactly when a selected name is unloaded, with the detail listing the unloaded names. Otherwise the question is echoed, with one answer per selected name in order, each for a loaded model. No other error status is possible |
| InferenceServer.GenerateAnswers | server/main.py:214-263 | the loop appends exactly one answer per name, in order, each equal to `AnswerFor` of that name; a failing model does not stop the loop |
| InferenceServer.DefaultSelectsAllLoaded | server/main.py:204 | an absent or empty `models` list makes every loaded model answer, in load order |
| InferenceServer.ExplicitRequestIsAnsweredAsGiven | server/main.py:204-263 | a non-empty `models` list naming only loaded models is answered by exactly those models, one answer each, in the order given |
| InferenceServer.Answers | server/main.py:214-263 | the returned `answers` list has one entry per selected name, in order, each the answer of that name alone |
| InferenceServer.RejectionNamesExactlyTheUnloaded | server/main.py:207-212 | a request naming an unloaded model gets 400, and the detail lists that model as often as it was requested |
| InferenceServer.FailureIsConfinedToItsAnswer | server/main.py:216-263 | each answer depends only on its own model; a model that fails gets an error answer with latency 0 while the others still answer |
| InferenceServer.LoadedModelsHaveProcessors | server/main.py:220-243 | in a registry that holds only configured models, no answer reports an unimplemented model |
| InferenceServer.WithoutGenerationKeys | server/main.py:184-191 | cleanup removes exactly `max_length`, `num_beams` and `length_penalty` and leaves every other attribute and its value alone |
| InferenceServer.CleanupIdempotent | server/main.py:184-191 | cleaning a config twice is the same as cleaning it once |
| InferenceServer.Server.CleanupModelConfig | server/main.py:184-191 | deleting the three attributes in place replaces that model's config by `WithoutGenerationKeys` of it and changes nothing else |
| InferenceServer.Server.Predict | server/main.py:194-269 | `/predict` returns `Respond` of the registry. The registry is unchanged, except that the Pegasus config is cleaned exactly when Pegasus was selected and the request was answered |
| InferenceServer.HealthCheck | server/main.py:157-163 | the status is "healthy" when some model is loaded and "degraded" otherwise; `models_loaded` has exactly the configured keys, each true exactly when that model is loaded |
| InferenceServer.HealthyIffSomeModelReported | server/main.py:160-161 | when only configured models can be loaded, the status is healthy exactly when `models_loaded` reports some model as true |
| InferenceServer.ListModels | server/main.py:166-182 | `/models` lists one entry per configured model, in configuration order, marked loaded exactly when present and with its description. `loaded_count` is the number of loaded models and `total_count` is 4 |
| InferenceServer.Description | server/main.py:174 | each configured model gets its own description text from the table, and the fallback "No description available" is used exactly for names outside the configured models |
| InferenceServer.CountLoadedIsCardinality | server/main.py:169-176 | over distinct names, the number of entries marked loaded is the number of those names that are loaded |
| InferenceServer.LoadedCountMatchesEntries | server/main.py:166-182 | when only configured models can be loaded, `loaded_count` equals the number of entries marked loaded |
| ChatsRoute.Authenticated | src/app/api/chats/route.ts:9 | both handlers treat a missing or empty user id as signed out |
| ChatsRoute.TitleOrDefault | src/app/api/chats/route.ts:17 | the title is the supplied one when it is non-empty, and otherwise "New Conversation" |
| ChatsRoute.ModelOrUnknown | src/app/api/chats/route.ts:24 | the first message's model is the supplied one when it is non-empty, and otherwise "UNKNOWN" |
| ChatsRoute.BotMessages | src/app/api/chats/route.ts:26-32 | exactly one BOT message per answer, in order, copying its content and model |
| ChatsRoute.InitialMessages | src/app/api/chats/route.ts:19-33 | a new chat's messages are the USER message with `firstMessage` and the defaulted model, followed by the BOT message of each answer in order; absent answers leave exactly one message |
| ChatsRoute.CreateChat | src/app/api/chats/route.ts:5-49 | POST without a user id gives 401 and a failed write gives 500, both with the store unchanged. It succeeds exactly when authenticated with a readable body and a successful write. A success appends one chat owned by the caller, with the defaulted title and the initial messages |
| ChatsRoute.CreateChatPreservesStore | src/app/api/chats/route.ts:15-39 | POST keeps the stored chats well formed: distinct ids below the next id, messages pointing at their chat, roles USER or BOT |
| ChatsRoute.Summarize | src/app/api/chats/route.ts:65-82 | each listed entry copies the chat's id, title and timestamps, and `messageCount` is its number of messages |
| ChatsRoute.OwnedSummariesFrom | src/app/api/chats/route.ts:62-63 | from a given position on, the filter has one summary per position holding a chat of the caller: each entry summarises such a chat, and each such chat is summarised |
| ChatsRoute.OwnedSummaries | src/app/api/chats/route.ts:62-63 | the owner filter has exactly one entry per chat the caller owns. It keeps the summary of every such chat, and nothing else |
| ChatsRoute.InsertByRecency | src/app/api/chats/route.ts:64 | inserting into the ordered list adds one entry |
| ChatsRoute.SortByRecency | src/app/api/chats/route.ts:64 | ordering by `updatedAt` keeps the number of entries |
| ChatsRoute.InsertPermutes | src/app/api/chats/route.ts:64 | inserting one entry into the ordered list adds exactly that entry |
| ChatsRoute.InsertSorted | src/app/api/chats/route.ts:64 | inserting into a list ordered newest first keeps it ordered |
| ChatsRoute.SortByRecencySorts | src/app/api/chats/route.ts:64 | the listing is ordered by `updatedAt`, newest first |
| ChatsRoute.SortByRecencyPermutes | src/app/api/chats/route.ts:64 | the ordering neither drops nor duplicates an entry |
| ChatsRoute.ListChats | src/app/api/chats/route.ts:51-92 | GET without a user id gives 401 with the sign-in message and a failed read gives 500. It succeeds exactly when authenticated and the read succeeds, with the caller's summaries ordered newest first |
| ChatsRoute.ListChatsIsExactlyTheCallersChats | src/app/api/chats/route.ts:62-82 | every listed entry summarises a chat the caller owns, every chat the caller owns is listed, and there is one entry per owned chat |
| ChatComponent.Matches | src/components/chat-component.tsx:36 | a chat matches only a selected id that is present and non-empty |
| ChatComponent.FindChatFrom | src/components/chat-component.tsx:35-37 | the search returns the first position at or after `from` whose chat id renders to the selected id, or none when no such chat exists |
| ChatComponent.FindChat | src/components/chat-component.tsx:35-37 | `chats.find` returns the first chat whose decimal id equals the selected id, and nothing exactly when no chat matches |
| ChatComponent.IsUser | src/components/chat-component.tsx:130 | only a role of four characters can count as the user's |
| ChatComponent.IsUserMeansUserInAnyCase | src/components/chat-component.tsx:130 | a message is the user's exactly when its role has four letters that upper-case to USER |
| ChatComponent.RolesClassify | src/components/chat-component.tsx:130 | USER messages count as the user's and BOT messages do not |
| ChatComponent.EntryFor | src/components/chat-component.tsx:129-170 | a bubble keeps the message's id, content and time; it is the user's exactly when `IsUser` holds, labelled "You" then and with the model name otherwise |
| ChatComponent.Render | src/components/chat-component.tsx:35-180 | the view shows "not found" exactly when no chat matches. Otherwise it shows the first matching chat's title and dates, with one bubble per message in stored order |
| ChatComponent.RenderShowsTheChatWithThatId | src/components/chat-component.tsx:35-129 | with distinct ids, selecting a chat's own id shows that chat, all of its messages in order |
| ChatContainer.Selected | src/components/chat-container.tsx:46 | when the id is missing or empty, no chat could match it anyway, so the early return loses nothing |
| ChatContainer.Appended | src/components/chat-container.tsx:54-66 | appending keeps the chat's id, title, owner and dates, keeps the old messages as a prefix and puts the new message last |
| ChatContainer.WithMessage | src/components/chat-container.tsx:48-104 | the list keeps its length and order; chats whose id does not match are unchanged; each matching chat gets the one new message appended |
| ChatContainer.WithMessageKeepsIds | src/components/chat-container.tsx:48-71 | the update never changes a chat's id, so distinct ids stay distinct |
| ChatContainer.WithMessageWithoutMatchIsIdentity | src/components/chat-container.tsx:49-70 | when no chat has the selected id, the list is unchanged |
| ChatContainer.WithMessageChangesOnlyTheSelectedChat | src/components/chat-container.tsx:49-69 | with distinct ids, exactly the selected chat gains the message and every other chat is unchanged |
| ChatContainer.Container.constructor | src/components/chat-container.tsx:36-37 | the container starts with no chats and not hydrated |
| ChatContainer.Container.Hydrate | src/components/chat-container.tsx:39-42 | the mount effect installs the initial chats and marks the container hydrated |
| ChatContainer.Container.HandleMessageSent | src/components/chat-container.tsx:44-74 | with no selected id nothing changes; otherwise the chats become `WithMessage` of a USER message |
| ChatContainer.Container.HandleResponseReceived | src/components/chat-container.tsx:76-107 | with no selected id nothing changes; otherwise the chats become `WithMessage` of a BOT message |
| ChatContainer.Container.Screen | src/components/chat-container.tsx:116-137 | loading before hydration, exactly when the input box is hidden; the welcome screen when hydrated without a selected id; otherwise the chat view of the current chats |
| ChatContainer.Container.InputShown | src/components/chat-container.tsx:140 | the input box is shown once hydrated, exactly when the loading notice is gone |
| ChatContainer.AppendedMessageIsRenderedLast | src/components/chat-container.tsx:54-66 | a message appended to the selected chat becomes its last bubble, after the unchanged earlier ones |
| ChatContainer.SentMessageIsRenderedLast | src/components/chat-container.tsx:57-64 | a question just sent shows as the last bubble, as the user's and labelled "You" |
| ChatContainer.ReceivedAnswerIsRenderedLast | src/components/chat-container.tsx:90-97 | an answer just received shows as the last bubble, not the user's, labelled with its model |
| ModelSelector.Values | src/components/model-selector.tsx:21-42 | the picker's values, one per option, in order |
| ModelSelector.Toggle | src/components/model-selector.tsx:67 | picking the selected value clears the selection; picking any other value selects it |
| ModelSelector.ToggleTwice | src/components/model-selector.tsx:67 | picking the same value twice restores the selection exactly when nothing or that value was selected; from another value it ends with nothing selected |
| ModelSelector.Reported | src/components/model-selector.tsx:62-64 | the parent receives a list of at most one value: the selection if there is one, else the empty list |
| ModelSelector.LabelOf | src/components/model-selector.tsx:72 | the lookup finds a caption exactly when an option has the value, and then it is that option's caption |
| ModelSelector.ButtonText | src/components/model-selector.tsx:71-86 | the trigger shows the selected option's caption, or "AI Model" when nothing is selected, and is never empty |
| ModelSelector.Selector.constructor | src/components/model-selector.tsx:53-54 | the picker starts closed with nothing selected |
| ModelSelector.Selector.SelectModel | src/components/model-selector.tsx:66-69 | picking toggles the selection and closes the popover; picking an offered value keeps the selection among the offered values |
| ModelSelector.Selector.SetOpen | src/components/model-selector.tsx:76 | opening or closing the popover leaves the selection alone |
| ModelSelector.Selector.Report | src/components/model-selector.tsx:62-64 | everything reported is an offered value |
| ChatInput.SubmitAccepted | src/components/chat-input.tsx:21 | the handler goes ahead when the trimmed text is non-empty and no submission is in flight |
| ChatInput.SubmitAcceptedIffVisibleText | src/components/chat-input.tsx:21 | a submission goes ahead exactly when none is in flight and the text has a non-space character |
| ChatInput.ChatInputForm.constructor | src/components/chat-input.tsx:16-17 | the box starts empty with nothing in flight |
| ChatInput.ChatInputForm.Type | src/components/chat-input.tsx:43 | typing sets the text to exactly what was typed |
| ChatInput.ChatInputForm.HandleSubmit | src/components/chat-input.tsx:19-32 | blank text, or a submission in flight, changes nothing; otherwise the text is cleared and nothing is in flight afterwards; from a state with nothing in flight, nothing is in flight afterwards either way |
| ChatInput.ChatInputForm.FieldDisabled | src/components/chat-input.tsx:45 | between handler runs the text field is disabled exactly when the `disabled` prop is set |
| ChatInput.ChatInputForm.SendDisabled | src/components/chat-input.tsx:51 | the send button is disabled whenever the text field is, and also whenever the text is blank |
| ChatInput.ChatInputForm.ButtonText | src/components/chat-input.tsx:53 | between handler runs the button reads "Send" |
| ChatInput.ChatInputForm.EnabledSendIsAccepted | src/components/chat-input.tsx:21-51 | an enabled send button means the handler accepts the text, and when the box is not disabled the button is disabled exactly when the handler would refuse |
| ServerStatus.Available | src/lib/server-status.ts:14 | the probe accepts the statuses "healthy" and "degraded" and nothing else |
| ServerStatus.Observed | src/lib/server-status.ts:6 | an attempt that settles at or after 3000 ms is seen as the timeout, whatever the server sent; an earlier one is seen as it arrived |
| ServerStatus.CheckServerStatus | src/lib/server-status.ts:1-19 | the probe says available only for an ok response. For an ok response with a readable body it says available exactly when the status is "healthy" or "degraded". An unreadable or null body, a network error and the timeout all say unavailable |
| ServerStatus.SlowServerIsUnavailable | src/lib/server-status.ts:6 | a server that answers after the timeout is reported unavailable, even when it is healthy |
| ServerStatus.TimelyHealthyReplyIsAvailable | src/lib/server-status.ts:9-14 | an ok reply in time with status "healthy" or "degraded" is reported available |
| Integration.HealthBodyOf | server/main.py:157-163 | the health body the client reads carries the server's status string |
| Integration.ProbeAcceptsEveryHealthReply | src/lib/server-status.ts:14 | every `/health` reply the server can send makes the probe say available |
| Integration.PickerOffersTheConfiguredModels | src/components/model-selector.tsx:21-42 | the picker offers exactly the server's configured models, in the same order |
| Integration.PickerValuesAreNonEmpty | src/components/model-selector.tsx:21-42 | no offered value is empty, so a selection is always reported |
| Integration.PickedModelAlone | server/main.py:204-212 | a request naming one model is refused exactly when that model is not loaded, and otherwise gets exactly that model's answer |
| Integration.PickedModelIsRefusedOnlyWhenUnloaded | src/components/model-selector.tsx:62-64 | a request built from the picker's report is refused, with 400, only when the picked model is not loaded; with nothing picked every loaded model answers |
| Integration.InitialMessagesRender | src/app/api/chats/route.ts:19-33 | a new chat's first bubble is the user's question labelled "You", and each later bubble is an answer labelled with its model |
| Integration.CreatedChatIsStoredLast | src/app/api/chats/route.ts:15-39 | a created chat is stored last, with an id no other stored chat has, holding its initial messages |
| Integration.CreatedChatShowsQuestionThenAnswers | src/app/api/chats/route.ts:15-39 | viewing a newly created chat by its id shows the question first, labelled "You", then each answer in order, labelled with its model |

## Left out

- Model loading, tokenizing, generation and decoding are foreign calls. They are the `LoadOutcome` and `Generator` parameters. The model therefore does not capture `MAX_SOURCE_LENGTH` truncation or the generation options passed to `generate`.
- Whitespace and case are ASCII. One whitespace set, space, tab, line feed, carriage return, vertical tab and form feed, serves both Python's `strip()` (server/main.py:277, 306, 343) and JavaScript's `trim()` (chat-input.tsx:21). Python also strips the separators U+001C to U+001F, which `trim()` keeps, so for a question starting with U+001C the server's prompt drops a character that the model keeps. Both languages also strip non-ASCII whitespace, and `lower`/`toUpperCase` follow Unicode case tables; none of this is modelled.
- Latency is opaque. `Generated` carries whatever latency the timing yields; the clock and the rounding to two decimals are not modelled. The `temperature` default is kept as a real number.
- Timestamps are abstract integers. These are not modelled:
  - the request `timestamp` and `uptime_seconds` of the server;
  - ISO-8601 serialisation in the route;
  - date formatting in the view.
- The client message ids come from the clock and from `Math.random`, so they are parameters. Their uniqueness is not claimed, because two messages sent within the same millisecond can share an id.
- ChatContainer.Container: one container is modelled for one fixed selected id. In the source `currentChatId` is a prop that can change while `chats` is kept, and the handlers pick up the new id through their `useCallback` dependencies; a change of selection within one container is not modelled.
- ChatContainer.WithMessage: every matching chat receives the same message id and time. The source reads `new Date()`, and in the BOT handler also `Math.random`, inside the `map` callback, so two chats sharing an id would get different values. With distinct ids only one chat matches, so this changes nothing there.
- ChatsRoute.SortByRecency: chats with equal `updatedAt` keep store order. The database promises no order among ties, so this is one of the orders it may return.
- ChatsRoute.CreateChat: a body that cannot be parsed, or one without `firstMessage`, is a single `None` case that yields 500. Prisma's own validation is not modelled. The new chat's ids are the store's next ids. The messages' database defaults beyond `createdAt` are not modelled.
- ChatInput.ChatInputForm.HandleSubmit: the submission itself is a placeholder in the source, so nothing is sent. The box does not accept the message callbacks that the container passes it, so no question-then-answer protocol is modelled.
- The model descriptions shown in the picker, its search field and all styling are presentation. They are not modelled.
- The FastAPI wiring, CORS, the generic exception handler, the authentication service, the `fetch` request and its abort signal, the scroll-into-view effect and `handleNewChatCreated` (a log line) are not modelled. Their observable results are parameters: the user id, the database outcome and the fetch outcome.
- ServerStatus.Observed: the abort fires when 3000 ms have passed, and a reply settling at that very moment is counted as timed out. The timer race at the boundary and an abort during the body read are not modelled separately.
- InferenceServer.Server.Predict: `/predict` runs the answer loop sequentially, as the source does. Concurrent requests, and the request that sees the Pegasus config half-cleaned, are not modelled.
