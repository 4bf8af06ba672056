# GiGi Discord bot: a verified model of its core

The bot joins a voice channel named 'GiGi' when someone enters it, starts a
call with a voice assistant over a WebSocket, and leaves when no human is
left in the channel. It answers messages that name it, first through an
OpenAI assistant thread and then through Gemini. It also runs chat sessions
and offers slash commands for images, SMS, weather, movies and Formula 1
results. Every request to an AI service goes through a sliding-window rate
limiter, and the answers are kept in a shared cache.

This project models that core in Dafny, one module per source file:

- `vapi.dfy` (`Vapi`): the voice-assistant transport.
- `voice.dfy` (`Voice`): the per-guild voice connections.
- `voicestate.dfy` (`VoiceTrigger`): the join/leave trigger.
- `ratelimiter.dfy` (`RateLimiting`): the rate limiter.
- `chat.dfy` (`Chat`): the chat-session table.
- `errors.dfy` (`Errors`): the error classes and handlers.
- `twilio.dfy` (`Twilio`) and `sendtext.dfy` (`SendText`): SMS sending.
- `commands.dfy` (`Commands`): the command registry.
- `interaction.dfy` (`InteractionDispatch`) and `messages.dfy` (`MessageRouting`): event routing.
- `imagine.dfy` (`Imagine`): the image command.
- `gemini.dfy` (`Gemini`) and `openai.dfy` (`OpenAI`): the two AI services.
- `weather.dfy` (`Weather`), `movie.dfy` (`Movie`) and `f1.dfy` (`F1`): the formatters.

Three helper modules support the others:

- `wrappers.dfy` (`Wrappers`): `Option` and `Result`.
- `jstext.dfy` (`JsText`): the JavaScript string operations the code relies on.
- `cache.dfy` (`KeyValueCache`): the shared cache as a key/value map.

Code that keeps state the source updates in place is a class with `modifies`
clauses:

- the limiter's map;
- the chat sessions;
- the OpenAI thread table;
- the command registry;
- the voice connections;
- the transport's `ws` and `sessionId`;
- the cache.

Each method there is proved against a function of the old state. The
properties the source promises are lemmas about those functions. Guard
chains, routing and formatting are functions and lemmas.

Everything outside the process is a parameter of the operation that uses it:

- HTTP and SDK answers;
- Discord calls and whether they throw;
- socket events;
- directory listings;
- the clock `now`.

## Model

| member | source | states |
|---|---|---|
| Errors.StatusOr500 | src/services/openai.js:62 | `error.status \|\| 500`: the application's own errors give 500; an SDK failure gives its non-zero status |
| Errors.NewAppError | src/utils/errors.js:6-13 | the error is named AppError, keeps its message, and has status 500 unless one is given |
| Errors.NewAPIError | src/utils/errors.js:18-23 | named APIError, status 500 and source 'Unknown' unless given |
| Errors.NewRateLimitError | src/utils/errors.js:28-33 | named RateLimitError, always status 429, retry delay 60 s unless given |
| Errors.NewValidationError | src/utils/errors.js:38-43 | named ValidationError, always status 400, no fields unless given |
| Errors.RateLimitText | src/utils/errors.js:56 | the rate-limit text is never the generic apology |
| Errors.APIErrorText | src/utils/errors.js:58 | the service-unavailable text is never the generic apology |
| Errors.InteractionErrorText | src/utils/errors.js:55-63 | each of the three named kinds gets its own text; the generic apology is given exactly for every other name |
| Errors.MessageErrorText | src/utils/errors.js:92-99 | rate-limit and API errors get their texts; the generic apology exactly for every other name, ValidationError included |
| Errors.TablesDiffer | src/utils/errors.js:55-96 | the interaction and message tables give the same text exactly when the error is not a ValidationError |
| Errors.ErrorRoute | src/utils/errors.js:67-79 | editReply exactly when deferred, followUp exactly when replied but not deferred, reply otherwise |
| Errors.HandleInteractionError | src/utils/errors.js:48-80 | one ephemeral answer on the route the interaction's state selects, with the interaction table's text |
| Errors.HandleMessageError | src/utils/errors.js:85-103 | the one reply carries the message table's text |
| Errors.MissingVars | src/utils/errors.js:109 | a name is reported exactly when it is required and unset or empty |
| Errors.MissingVarsAppend | src/utils/errors.js:109 | the filter keeps input order: it distributes over concatenation |
| Errors.ValidateEnv | src/utils/errors.js:108-114 | throws exactly when some required variable is unset, with the missing names joined by ', ' |
| RateLimiting.InWindow | src/utils/rateLimiter.js:37 | keeps exactly the timestamps after the window start |
| RateLimiting.CeilSeconds | src/utils/rateLimiter.js:43 | `Math.ceil(ms / 1000)`: the least whole number of seconds covering the delay |
| RateLimiting.Check | src/utils/rateLimiter.js:23-57 | accepted exactly when fewer than `maxRequests` timestamps lie in the window; a refusal is a RateLimitError and leaves the map as it was; no other key changes |
| RateLimiting.Pruned | src/utils/rateLimiter.js:98-111 | pruning never adds a key |
| RateLimiting.Min | src/utils/rateLimiter.js:137 | `Math.min` of a non-empty list is a member no greater than any other |
| RateLimiting.RateLimiter.constructor | src/utils/rateLimiter.js:6-13 | the limiter starts with no keys |
| RateLimiting.RateLimiter.CheckLimit | src/utils/rateLimiter.js:23-57 | the result and the new map are those of `Check` on the old map |
| RateLimiting.RateLimiter.GetRemainingRequests | src/utils/rateLimiter.js:66-89 | remaining is `maxRequests` less the timestamps in the window; the reset time is 0 for none, else the rounded-up delay until the oldest leaves it |
| RateLimiting.RateLimiter.Cleanup | src/utils/rateLimiter.js:94-114 | every key keeps only its timestamps of the last 60 s, and keys left empty are deleted |
| RateLimiting.RateLimiter.CleanupLongestWindow | src/utils/rateLimiter.js:94-114 | the same pass with the five-minute window of the image limits |
| RateLimiting.RateLimiter.Prune | src/utils/rateLimiter.js:98-111 | the loop over the entries leaves exactly the pruned map |
| RateLimiting.RateLimiter.ResetLimit | src/utils/rateLimiter.js:121-125 | exactly the one key is forgotten |
| RateLimiting.RateLimiter.GetStatus | src/utils/rateLimiter.js:131-140 | one entry per key with its count and its oldest timestamp; throws exactly when some key has an empty list |
| RateLimiting.AcceptRecordsNow | src/utils/rateLimiter.js:52-54 | an accepted call stores the kept timestamps followed by `now` |
| RateLimiting.AcceptedWithinMax | src/utils/rateLimiter.js:37-54 | after an accepted call the key holds at most `maxRequests` timestamps, all inside the window |
| RateLimiting.RetryAfterPositive | src/utils/rateLimiter.js:40-49 | a refusal always asks the user to wait at least one second |
| RateLimiting.RetryAfterAtMostWindow | src/utils/rateLimiter.js:41-43 | with timestamps recorded in time order, the wait is never longer than the window |
| RateLimiting.InWindowIdempotent | src/utils/rateLimiter.js:37 | filtering a list already inside the window changes nothing |
| RateLimiting.InWindowAppend | src/utils/rateLimiter.js:37 | the filter distributes over concatenation |
| RateLimiting.InWindowSorted | src/utils/rateLimiter.js:37 | the filter keeps a list in time order |
| RateLimiting.InWindowTwice | src/utils/rateLimiter.js:37 | filtering with a start and then a later start is filtering with the later one |
| RateLimiting.CheckKeepsSorted | src/utils/rateLimiter.js:53 | a check keeps every list in time order and no later than the clock |
| RateLimiting.CheckKeepsNonEmpty | src/utils/rateLimiter.js:53-54 | a check never stores an empty list |
| RateLimiting.PrunedNonEmpty | src/utils/rateLimiter.js:104-110 | cleanup never leaves an empty list |
| RateLimiting.RemainingPredictsCheck | src/utils/rateLimiter.js:80 | something remains exactly when the same check would be accepted |
| RateLimiting.ResetTimeIsRetryAfter | src/utils/rateLimiter.js:81-87 | when refused, the reported reset time is the refusal's retry delay |
| RateLimiting.StoredPruned | src/utils/rateLimiter.js:98-111 | after pruning every key holds its timestamps inside the pruning window |
| RateLimiting.PruneKeepsDecisions | src/utils/rateLimiter.js:94-111 | pruning with a window at least as long as the caller's changes no later decision and no later list |
| RateLimiting.SameWindowSameDecision | src/utils/rateLimiter.js:34-50 | a decision depends only on the key's timestamps inside the window |
| RateLimiting.PruneLongestKeepsImageDecisions | src/utils/rateLimiter.js:96 | pruning with the five-minute window keeps every image-generation decision |
| RateLimiting.CleanupForgetsImageRequests | src/utils/rateLimiter.js:96 | as written, cleanup lets a fourth image request through that the limiter had refused |
| RateLimiting.ThreeImagesBlockAFourth | src/utils/rateLimiter.js:40 | three image requests in five minutes refuse a fourth |
| RateLimiting.CleanupAtTheFourthForgetsAll | src/utils/rateLimiter.js:100-106 | the 60 s cleanup deletes those three timestamps, after which the fourth is accepted |
| OpenAI.AssistantMessages | src/services/openai.js:156 | keeps exactly the messages whose role is 'assistant' |
| OpenAI.OpenAIService.constructor | src/services/openai.js:9-17 | the service starts with no threads |
| OpenAI.OpenAIService.GenerateImage | src/services/openai.js:25-66 | the result, the limiter, the cache and whether the API was asked are those of the image outcome on the old state |
| OpenAI.OpenAIService.GetOrCreateThread | src/services/openai.js:73-99 | the result and the thread table are those of the thread outcome on the old table |
| OpenAI.OpenAIService.ProcessMessage | src/services/openai.js:107-139 | the result, the limiter and the thread table are those of the assistant outcome |
| OpenAI.OpenAIService.WaitForCompletion | src/services/openai.js:147-171 | the polling loop returns what the polling outcome from the first poll gives |
| OpenAI.OpenAIService.CleanupOldThreads | src/services/openai.js:176-186 | the table afterwards holds exactly the threads active in the last hour |
| OpenAI.OpenAIService.CreateChatCompletion | src/services/openai.js:194-217 | the result and the limiter are those of the completion outcome |
| OpenAI.ImageOutcome | src/services/openai.js:25-66 | the limiter is consulted under 'image_generation'; the API is asked exactly when the check is accepted and the cache has no truthy URL; a truthy cached URL is returned; an accepted miss with a non-empty answer returns its first URL and caches it for an hour; every error is an OpenAI APIError and stores nothing |
| OpenAI.ThreadOutcome | src/services/openai.js:73-99 | a user's existing thread is kept, with its id and messages, and stamped `now`; otherwise a created thread starts empty; a creation failure changes nothing; other users' threads are untouched |
| OpenAI.ProcessOutcome | src/services/openai.js:107-139 | the limiter is consulted under 'chat'; a refused check changes no thread; after an accepted check the threads are those of `getOrCreateThread`; it succeeds exactly when the check, the thread, the message, the run and the polling loop all succeed, and then answers with the polling loop's answer; every error is an OpenAI APIError |
| OpenAI.CompletionOutcome | src/services/openai.js:194-217 | the limiter is consulted under 'chat_completion'; the result is the API's content exactly when the limiter accepts and the call succeeds; every error is an OpenAI APIError |
| OpenAI.ImageRateLimitedFirst | src/services/openai.js:26-64 | a refused image request reads no cache, asks no API and fails as an APIError with status 500 |
| OpenAI.ImageCacheHit | src/services/openai.js:34-39 | a cached URL is returned without calling the API |
| OpenAI.ImageCacheRoundTrip | src/services/openai.js:34-57 | an accepted miss with a non-empty answer returns its first URL, caches it for an hour, and the same prompt within the hour gets it back without a request |
| OpenAI.ImageFreshSuccess | src/services/openai.js:41-57 | an accepted request for an uncached prompt with a non-empty answer returns the first URL and caches it for 3600 s |
| OpenAI.ImageErrorStatus | src/services/openai.js:58-64 | an API failure keeps its HTTP status, else 500 |
| OpenAI.ThreadReused | src/services/openai.js:75-86 | an existing thread keeps its id whatever `threads.create` would answer |
| OpenAI.ThreadTouched | src/services/openai.js:75-90 | a lookup succeeds exactly when a thread exists or one is created; it stamps the thread with `now`; other users' threads are untouched |
| OpenAI.ThreadExpiry | src/services/openai.js:176-185 | a thread used at some time survives cleanup exactly until an hour after it |
| OpenAI.FreshThreadsExact | src/services/openai.js:180-185 | cleanup keeps exactly the threads idle at most an hour, unchanged, and is idempotent |
| OpenAI.AnswerIsFirstAssistant | src/services/openai.js:155-160 | the answer is the text of the first assistant message |
| OpenAI.CompletedAt | src/services/openai.js:151-162 | a run completing after some running polls yields the listing's answer |
| OpenAI.SuccessNeedsCompleted | src/services/openai.js:151-170 | the loop succeeds only through a poll that reported 'completed' and a successful listing |
| OpenAI.PollsBounded | src/services/openai.js:164-166 | the loop never looks past the poll at which the time budget runs out |
| OpenAI.ProcessRateLimitedFirst | src/services/openai.js:108-138 | a refused assistant request touches no thread and fails with status 500 |
| OpenAI.ProcessAnswered | src/services/openai.js:107-130 | an accepted request whose thread, message and run succeed and whose run completes after running polls answers with the first assistant message, and the caller's thread is stamped with now |
| OpenAI.ProcessErrorsAreAPIErrors | src/services/openai.js:131-138 | every failure of `processMessage` is an APIError 'Failed to process message' from OpenAI |
| OpenAI.CompletionRateLimited | src/services/openai.js:195-216 | a refused completion fails with status 500, not 429 |
| OpenAI.CompletionAccepted | src/services/openai.js:202-216 | an accepted completion returns the SDK's answer, or its failure with the failure's status |
| Gemini.GetSafetySettings | src/services/gemini.js:18-37 | four distinct harm categories, each blocked from medium up |
| Gemini.GetGenerationConfig | src/services/gemini.js:43-50 | the configured temperature with topK 40, topP 0.95 and 1024 output tokens |
| Gemini.ActivationName | src/services/gemini.js:116 | the configured name when truthy, never empty |
| Gemini.ProcessMessage | src/services/gemini.js:59-108 | the result, limiter, cache and chat messages are those of the message outcome |
| Gemini.ProcessWithFallback | src/services/gemini.js:126-152 | the result, limiter, cache and chat messages are those of the fallback outcome |
| Gemini.GenerateImageDescription | src/services/gemini.js:160-183 | the result and limiter are those of the vision outcome |
| Gemini.MessageOutcome | src/services/gemini.js:59-108 | the limiter is consulted under 'gemini_chat'; a refused check sends nothing; an accepted primary request with a truthy cached answer returns it, sends nothing and stores nothing; otherwise the path's prompt is sent, then the content if the prompt was answered, and the result is the chat's reply exactly when both calls succeed; every error is a Gemini APIError and stores nothing; the fallback path stores nothing; a fresh primary answer is cached for 30 minutes |
| Gemini.FallbackOutcome | src/services/gemini.js:126-152 | the cache is as the primary attempt left it; a failure of both is the APIError 'Both primary and fallback processing failed'; a null answer needs a primary answer; at most four messages |
| Gemini.VisionOutcome | src/services/gemini.js:160-183 | the limiter is consulted under 'gemini_vision'; the result is the API's text exactly when the limiter accepts and the call succeeds; every error is a Gemini APIError |
| Gemini.ActivatedByName | src/services/gemini.js:115-118 | any message containing the activation name activates |
| Gemini.ActivationIgnoresCase | src/services/gemini.js:117 | lower-casing the message first changes nothing |
| Gemini.ActivationIsOccurrence | src/services/gemini.js:115-118 | a message activates exactly when the lower-cased name occurs in the lower-cased message |
| Gemini.RateLimitBeforeCache | src/services/gemini.js:61-75 | a refused request sends nothing, leaves the cache alone and fails with status 500 |
| Gemini.PromptAndCacheByPath | src/services/gemini.js:67-97 | the fallback path never touches the cache; the system prompt is sent first, the content second, nothing more |
| Gemini.CacheRoundTrip | src/services/gemini.js:67-97 | an accepted primary request for uncached content returns the chat's reply, caches it for 30 minutes, and the same content within that time is answered from the cache without a chat |
| Gemini.PrimaryAnswerGate | src/services/gemini.js:129-136 | a primary answer is passed on exactly when it is non-blank and the message activates, else null |
| Gemini.FallbackAfterFailure | src/services/gemini.js:137-151 | after a primary failure one fallback follows; its answer is passed on unchecked, its failure becomes 'Both primary and fallback processing failed' |
| Gemini.VisionRateLimited | src/services/gemini.js:162-182 | a refused description request fails with status 500 |
| Chat.ChatSessions.constructor | src/commands/chat.js:8 | the session table starts empty |
| Chat.ChatSessions.Execute | src/commands/chat.js:41-91 | the new table and the reply are those of the subcommand outcome on the old table |
| Chat.ChatSessions.HandleMessage | src/commands/chat.js:97-158 | an author without a session changes nothing and gets no reply; otherwise only the author's session changes, as the message outcome says |
| Chat.ChatSessions.Sweep | src/commands/chat.js:11-19 | the table afterwards is the swept table |
| Chat.ChatSessions.HasActiveSession | src/commands/chat.js:165-167 | true exactly when the user has a session |
| Chat.ChatSessions.GetActiveSessionsCount | src/commands/chat.js:173-175 | the number of sessions |
| Chat.ExecuteOutcome | src/commands/chat.js:41-91 | 'start' always leaves the caller with a session, keeping one that exists; 'end' removes the caller's session, with an ephemeral reply; other names change nothing and reply nothing; other users' sessions are untouched |
| Chat.MessageOutcome | src/commands/chat.js:97-158 | the session is stamped `now`; Gemini is asked, and the session is on Gemini afterwards, exactly when it already was or the completion fails; the reply is then Gemini's answer or the apology, and otherwise the completion; a session on Gemini is otherwise unchanged and calls no completion; an OpenAI session sends its history plus the user's message |
| Chat.Swept | src/commands/chat.js:11-19 | the sweep keeps exactly the sessions active within the last hour, unchanged |
| Chat.CompletionAppendsInOrder | src/commands/chat.js:107-118 | on OpenAI success the history sent is the old history plus the message; the answer is appended after it, replied, and Gemini is not asked |
| Chat.FailureSwitchesToGemini | src/commands/chat.js:124-142 | on OpenAI failure the session switches to Gemini with an empty history, and replies Gemini's answer or the apology |
| Chat.GeminiIsFinal | src/commands/chat.js:143-153 | a Gemini session stays on Gemini, keeps its history and never calls OpenAI |
| Chat.SwitchIsPermanent | src/commands/chat.js:107-153 | over any sequence of messages a session that switched to Gemini never switches back |
| Chat.MessageKeepsWellFormed | src/commands/chat.js:103-157 | handling a message keeps the history alternating user and assistant entries, and empty on Gemini |
| Chat.ExecuteKeepsWellFormed | src/commands/chat.js:46-87 | every subcommand keeps every session well formed |
| Chat.SweepKeepsWellFormed | src/commands/chat.js:11-19 | the sweep keeps every session well formed |
| Chat.StartRules | src/commands/chat.js:46-69 | 'start' with a session refuses ephemerally and changes nothing; otherwise it opens an empty OpenAI session with a public reply |
| Chat.EndIdempotent | src/commands/chat.js:72-86 | 'end' removes the caller's session; a second 'end' changes nothing and says there is no session |
| Chat.SweptExact | src/commands/chat.js:13-18 | the sweep removes exactly the sessions idle for more than an hour, and a second sweep removes nothing |
| Chat.MessageKeepsSessionAlive | src/commands/chat.js:105 | a message stamps its session, so it survives every sweep within the next hour |
| Commands.Missing | src/utils/commandHandler.js:53 | a property is reported exactly when it is required and the module lacks it |
| Commands.ValidateCommand | src/utils/commandHandler.js:51-66 | a module passes exactly when it has `data` and `execute` and a truthy name and description; a failure is a ValidationError without fields |
| Commands.ValidationMessages | src/utils/commandHandler.js:55-64 | the structure message names the missing members in the order data, execute; a name or description problem gives the data message |
| Commands.CommandHandler.constructor | src/utils/commandHandler.js:8-10 | the registry starts empty |
| Commands.CommandHandler.LoadCommands | src/utils/commandHandler.js:16-44 | a failing directory listing is rethrown and changes nothing; otherwise the registry is the old one with the files loaded in order |
| Commands.CommandHandler.GetCommand | src/utils/commandHandler.js:119-121 | the registered module under the name, or nothing exactly when none is registered |
| Commands.CommandHandler.HandleInteraction | src/utils/commandHandler.js:97-112 | a chat command with a registered name runs once and its failure is rethrown; an unregistered name does nothing; anything else is ignored |
| Commands.CommandHandler.ReloadCommand | src/utils/commandHandler.js:136-159 | the result and the registry are ReloadOutcome of the old registry: an unknown name or a path that does not resolve throws with the registry unchanged; then the entry is deleted, and only a module that loads and validates is set again |
| Commands.Loaded | src/utils/commandHandler.js:21-37 | loading never removes a name, and every new name comes from an accepted '.js' file of that name |
| Commands.ReloadOutcome | src/utils/commandHandler.js:136-159 | an unknown name or an unresolved path throws with the registry unchanged; the reload succeeds exactly when the name is known, the path resolves and the new module loads and validates, and then the registry is the old one without the name plus the new module under its own name; any later failure leaves the name deleted; a well-keyed registry stays well keyed |
| Commands.LoadedWellKeyed | src/utils/commandHandler.js:21-37 | loading keeps every entry a valid module stored under its own name |
| Commands.LoadedNamesFromFiles | src/utils/commandHandler.js:21-37 | every name after loading was registered before or comes from an accepted file of that name |
| Commands.SkippedFileIsHarmless | src/utils/commandHandler.js:34-36 | a file that fails to load leaves the result as if it were not listed |
| Commands.LastFileWins | src/utils/commandHandler.js:32 | the last accepted file with a name supplies that name's entry |
| Commands.OnlyScriptsLoad | src/utils/commandHandler.js:22 | a file not ending in '.js' is never loaded |
| Commands.UnknownReloadKeepsRegistry | src/utils/commandHandler.js:138-141 | reloading an unregistered name throws and changes nothing |
| Commands.UnresolvedReloadKeepsRegistry | src/utils/commandHandler.js:146-147 | a registered command whose path `require.resolve` rejects throws that error, and the registry keeps the command, since the delete comes after the resolve |
| Commands.FailedReloadLosesCommand | src/utils/commandHandler.js:146-151 | a reload whose path resolves but whose module fails to load or validate throws and leaves the command unregistered |
| Commands.ReloadKeepsWellKeyed | src/utils/commandHandler.js:136-159 | a reload keeps the registry well keyed and every other entry, and a success installs the new module under its name |
| InteractionDispatch.Execute | src/events/interactionCreate.js:12-46 | only chat-input commands are handled; a command runs exactly when its name is registered, once; it gets a reply from the error handler exactly when it throws; an unknown name is answered first with the ephemeral 'Sorry, I don't recognize that command.' |
| InteractionDispatch.NonChatInputIgnored | src/events/interactionCreate.js:15 | anything but a chat command runs nothing and answers nothing |
| InteractionDispatch.UnknownCommandAnswered | src/events/interactionCreate.js:25-34 | an unregistered name runs nothing and gets the ephemeral 'don't recognize' reply |
| InteractionDispatch.KnownCommandRunsOnce | src/events/interactionCreate.js:36-45 | a registered command runs once; a failure is answered by the error handler, a success adds no reply |
| InteractionDispatch.AgreesWithHandler | src/events/interactionCreate.js:12-46 | the event runs a command exactly when the command handler's own dispatch would |
| MessageRouting.Fallback | src/events/messageCreate.js:55-78 | a Gemini failure puts the apology first; otherwise a reply goes out exactly when Gemini's answer is truthy, and that answer goes first; at most three replies |
| MessageRouting.Execute | src/events/messageCreate.js:14-84 | exactly bot messages are ignored; a user with a session goes to the chat command; otherwise OpenAI is asked exactly for activated messages; Gemini is asked only after OpenAI, and exactly when the assistant fails or its reply throws; an assistant answer is the first reply |
| MessageRouting.BotsIgnored | src/events/messageCreate.js:17 | a bot's message is ignored whatever it says |
| MessageRouting.SessionFirst | src/events/messageCreate.js:27-30 | a user with an active chat session is handed to the chat command before activation is tested |
| MessageRouting.NotActivatedIsSilent | src/events/messageCreate.js:33 | a message that does not name the bot asks no service and gets no reply |
| MessageRouting.AssistantFirst | src/events/messageCreate.js:38-49 | an activated message is answered by the OpenAI assistant, and Gemini is not asked |
| MessageRouting.FallbackReplyIffTruthy | src/events/messageCreate.js:50-68 | after an assistant failure Gemini is asked, and its answer is replied exactly when it is truthy |
| MessageRouting.BothFailApologise | src/events/messageCreate.js:69-78 | when both services fail the first reply is the apology, and the only one when it succeeds |
| MessageRouting.FailedReplyFallsBack | src/events/messageCreate.js:45-63 | a failing assistant reply also sends the message to Gemini, whose answer is replied after it |
| Imagine.Fallback | src/commands/imagine.js:54-79 | the description is asked once, for the same prompt, and no generation follows; its edit is made exactly when the description arrives |
| Imagine.Execute | src/commands/imagine.js:24-84 | the reply is deferred first; a failed deferral or a null prompt ends in one error reply; otherwise the image is asked for the prompt, and the image edit, with the URL as its one file, comes next exactly when a URL comes back |
| Imagine.DeferFirst | src/commands/imagine.js:26 | the reply is deferred first, before any generation is attempted |
| Imagine.ImageShown | src/commands/imagine.js:36-44 | an image from OpenAI is shown with its URL, attached as the one file, and Gemini is not asked |
| Imagine.DescriptionShown | src/commands/imagine.js:49-67 | when OpenAI fails, Gemini is asked for the same prompt and its description is shown under the warning line and a blank line |
| Imagine.BothFailHandled | src/commands/imagine.js:72-82 | both failing ends in one ephemeral edit of the deferred reply with the generic apology |
| Imagine.EachServiceOnce | src/commands/imagine.js:34-80 | each service is asked at most once, OpenAI always before Gemini |
| Imagine.FallbackAsksOnce | src/commands/imagine.js:54-79 | the fallback asks Gemini first and nothing else afterwards |
| Twilio.InitClient | src/services/twilio.js:5-18 | a client exists exactly when all three credentials are truthy and the factory does not throw, and it is made from the SID and token |
| Twilio.E164IsNumberOfTwoToFifteenDigits | src/services/twilio.js:40 | the pattern accepts exactly '+' followed by the decimal rendering of a number of 2 to 15 digits |
| Twilio.E164HasNumber | src/services/twilio.js:40 | every accepted string is '+' and such a number |
| Twilio.NumberIsE164 | src/services/twilio.js:40 | every such number, rendered after '+', is accepted |
| Twilio.E164Examples | src/commands/__tests__/send_text.test.js:61-77 | the numbers the tests use as valid and invalid are classified as they expect, and 15 digits are accepted while 16 are refused |
| Twilio.SendTextMessage | src/services/twilio.js:28-58 | the SDK is asked exactly when a client exists and both fields are truthy, with the configured sender; it succeeds exactly when the SDK does; the warning is logged exactly for a sent number the pattern refuses |
| Twilio.ClientCheckedFirst | src/services/twilio.js:29-32 | without a client the 'not configured' error comes first, whatever the fields |
| Twilio.RequiredFieldsChecked | src/services/twilio.js:34-36 | a missing number or body throws the 'required' error and sends nothing |
| Twilio.BadFormatStillSent | src/services/twilio.js:40-50 | a number the pattern refuses only warns: the message is still sent |
| Twilio.FailureKeepsMessage | src/services/twilio.js:53-57 | an SDK failure is rethrown with its message after the 'Failed to send SMS via Twilio' prefix |
| Twilio.SendsFromConfiguredNumber | src/services/twilio.js:8-12 | with the module's own client, every request carries a truthy sender number |
| SendText.Recover | src/commands/send_text.js:58-70 | the outer catch replies when nothing was replied or deferred, edits when deferred only, and otherwise does nothing |
| SendText.GuardReply | src/commands/send_text.js:21-40 | a guard answers with its own ephemeral reply, followed only when that reply throws by the generic ephemeral reply; every call is a reply |
| SendText.AfterDefer | src/commands/send_text.js:45-70 | the first edit is the success text naming the number when the SMS goes out, else the failure text with the error's message; when the success edit goes through it is the only call; every call is an edit |
| SendText.Execute | src/commands/send_text.js:19-71 | at least one call; unconfigured answers 'not configured' first; an invalid number answers the format text first; the SMS is the second call exactly when the service is configured, the options are read, the number is valid and the deferral succeeds, and then it follows the ephemeral deferral and carries the given number and text |
| SendText.SendCount | src/commands/send_text.js:46 | the number of SMS sends among the calls, at most their number |
| SendText.SendCountAppend | src/commands/send_text.js:46 | the send count of a concatenation is the sum of the counts |
| SendText.UnconfiguredSendsNothing | src/commands/send_text.js:21-27 | without a configured service the first call is the ephemeral 'not configured' reply and nothing is sent |
| SendText.InvalidFormatSendsNothing | src/commands/send_text.js:34-40 | a number the pattern refuses gets the ephemeral format reply first and nothing is sent |
| SendText.SendOnceAfterDefer | src/commands/send_text.js:43-46 | at most one SMS is sent, and only right after an ephemeral deferral |
| SendText.HappyPath | src/commands/send_text.js:43-50 | a valid number and body give defer, send, and the 'Message sent successfully' edit |
| SendText.SendFailureReported | src/commands/send_text.js:51-56 | a failing send is reported in the edit with the service's message |
| SendText.OptionErrorAnswered | src/commands/send_text.js:29-30 | an option that cannot be read gets the ephemeral generic reply |
| SendText.AlwaysAnswered | src/commands/send_text.js:19-71 | every run ends with a reply or an edit |
| SendText.CommandNeverTriggersWarning | src/commands/send_text.js:34 | a number the command lets through never triggers the service's format warning |
| Vapi.SocketUrl | src/services/vapi.js:53-57 | a truthy URL is one of the four candidates; a falsy one means every candidate was falsy, and it is the last operand |
| Vapi.FirstTruthy | src/services/vapi.js:53-57 | a truthy result is one of the candidates |
| Vapi.StartOutcome | src/services/vapi.js:26-99 | null exactly without credentials; no event is emitted and no audio sent; existing sockets are kept; a failure leaves `ws` and the sockets as they were; a success returns the session id and makes a new connecting socket `ws` |
| Vapi.OpenOutcome | src/services/vapi.js:77-86 | the socket is open with its URL, every other socket unchanged, 'open' then 'close' emitted, `ws` dropped, so the state is valid |
| Vapi.SendOutcome | src/services/vapi.js:105-112 | only the trace of sent buffers can change, by this one buffer to `ws`; it changes exactly when `ws` is present and open |
| Vapi.StopOutcome | src/services/vapi.js:117-123 | `ws` is dropped, so the state is valid; `sessionId` and every trace are kept; the socket that was `ws` is closing and no other socket changes |
| Vapi.FirstTruthyIsFirst | src/services/vapi.js:53-57 | the `||` chain yields a truthy value exactly when some candidate is truthy, and then it is the first truthy one |
| Vapi.SocketUrlIsFirstCandidate | src/services/vapi.js:53-57 | the socket URL is the first truthy of transport.websocketCallUrl, webCallUrl, websocketCallUrl and monitor.listenUrl |
| Vapi.VapiService.constructor | src/services/vapi.js:8-19 | a new service has no socket and no session, and its state is valid |
| Vapi.VapiService.StartCall | src/services/vapi.js:26-99 | the result and the new state are `StartOutcome` of the old state: null without credentials, a rejection when the request fails or no URL is found, otherwise the session id stored and a Connecting socket to the first truthy URL |
| Vapi.VapiService.OnOpen | src/services/vapi.js:77-86 | `OpenOutcome`: the socket is open, 'open' and 'close' are emitted in that order, and `ws` is dropped |
| Vapi.VapiService.OnError | src/services/vapi.js:88-91 | the state and the thrown error are those of ErrorOutcome for the old state |
| Vapi.ErrorOutcome | src/services/vapi.js:88-91 | the error is re-emitted on the service and nothing else changes; it is thrown out of the handler exactly when the service has no 'error' listener |
| Vapi.ExitOnUncaught | src/app.js:82-85 | an error thrown out of a callback ends the process with exit status 1; nothing thrown, no exit |
| Vapi.NoListenerIsAdded | src/services/vapi.js:7-126 | starting, opening, sending, stopping and socket errors never change the number of 'error' listeners, which the constructor sets to zero |
| Vapi.SocketErrorEndsProcess | src/services/vapi.js:88-91 | with no 'error' listener a socket error is thrown and the process exits with status 1 |
| Vapi.VapiService.SendAudio | src/services/vapi.js:105-112 | `SendOutcome`: the buffer is sent on the current socket exactly when it exists and is open; otherwise nothing changes |
| Vapi.VapiService.StopCall | src/services/vapi.js:117-123 | `StopOutcome`: a current socket is closed and dropped; the session id stays |
| Vapi.CredentialGuard | src/services/vapi.js:28-31 | with no API key or no assistant id the call resolves to null and nothing changes |
| Vapi.RequestShape | src/services/vapi.js:36-47 | with credentials set, exactly one POST /call is made, for the assistant, over the vapi.websocket transport in raw 16 kHz pcm_s16le, named 'Discord-' plus the channel id |
| Vapi.NoUrlLeavesTransport | src/services/vapi.js:64-67 | a response without any socket URL rejects with 'No WebSocket URL found in VAPI response' and leaves the socket and the session as they were |
| Vapi.SuccessfulStart | src/services/vapi.js:69-93 | a response with a URL stores the session id, opens a Connecting socket to that URL and resolves to { sessionId } |
| Vapi.OperationsKeepValid | src/services/vapi.js:26-123 | every operation keeps the service state valid (the current socket is one that was opened) |
| Vapi.AudioIsAlwaysDropped | src/services/vapi.js:77-112 | since the open handler drops the socket, no audio buffer is ever sent in a valid state |
| Vapi.OpenThenClose | src/services/vapi.js:77-86 | opening emits 'open' then 'close' and forgets the socket |
| Vapi.SendsThroughOpenSocket | src/services/vapi.js:106-108 | a buffer goes out exactly when the current socket is open |
| Vapi.StopIdempotent | src/services/vapi.js:117-123 | stopping forgets the socket, keeps the session id, and a second stop changes nothing |
| Voice.VoiceService.constructor | src/services/voice.js:10 | a new service holds no connection and has destroyed none |
| Voice.VoiceService.JoinChannel | src/services/voice.js:15-50 | `JoinOutcome`: a throwing join is rethrown with nothing changed; otherwise the guild's connection is the new one for the channel |
| Voice.VoiceService.OnReady | src/services/voice.js:25-29 | the Ready handler starts a voice-assistant call for the connection's channel id |
| Voice.VoiceService.OnDisconnected | src/services/voice.js:31-43 | `DisconnectOutcome`: kept when Signalling or Connecting is reached within 5000 ms, otherwise destroyed and removed |
| Voice.VoiceService.LeaveChannel | src/services/voice.js:56-62 | `LeaveOutcome`: the guild's connection, if any, is destroyed and removed; without one nothing changes |
| Voice.JoinOutcome | src/services/voice.js:15-50 | a failing join is rethrown with nothing changed; otherwise the result is the guild's live connection to the channel, unmuted and undeafened; other guilds keep theirs and nothing is destroyed |
| Voice.Destroy | src/services/voice.js:40 | the guild loses its connection, which is appended to the destroyed ones |
| Voice.DisconnectOutcome | src/services/voice.js:31-43 | the state is unchanged exactly when Signalling or Connecting is reached within 5 s; otherwise the connection is destroyed |
| Voice.LeaveOutcome | src/services/voice.js:56-62 | afterwards the guild has no connection and the other guilds keep theirs; a live connection is destroyed; without one nothing changes |
| Voice.JoinUsesChannel | src/services/voice.js:17-23 | a join connects to the channel's id in its guild, neither deafened nor muted, and leaves other guilds' connections alone |
| Voice.JoinErrorRethrown | src/services/voice.js:46-49 | a failing join is rethrown and changes nothing |
| Voice.ReadyCallsForChannel | src/services/voice.js:25-29 | with credentials set, Ready posts one call named 'Discord-' plus the joined channel's id |
| Voice.RecoveryKeepsConnection | src/services/voice.js:33-37 | reaching Signalling or Connecting within 5000 ms keeps the connection |
| Voice.TimeoutDestroysOnce | src/services/voice.js:38-42 | otherwise the connection is destroyed exactly once and removed, and the other guilds keep theirs |
| Voice.LeaveIdempotent | src/services/voice.js:56-62 | after leaving the guild has no connection, a second leave changes nothing, and a guild without one is left as it was |
| VoiceTrigger.Decide | src/events/voiceStateUpdate.js:6-45 | a join is requested only, and always, for a human entering a 'GiGi' channel from no channel, and it names that channel; a leave only for the guild of a 'GiGi' channel a human left |
| VoiceTrigger.Humans | src/events/voiceStateUpdate.js:36 | the humans are exactly the members who are not bots, never more than the members |
| VoiceTrigger.BotIgnored | src/events/voiceStateUpdate.js:8 | the bot's own updates request neither a join nor a leave |
| VoiceTrigger.JoinIff | src/events/voiceStateUpdate.js:11-22 | a join is requested exactly when a human enters a channel named 'GiGi' from no channel, and it is that channel |
| VoiceTrigger.MoveIntoChannelDoesNotJoin | src/events/voiceStateUpdate.js:11 | moving into 'GiGi' from another channel is not a join |
| VoiceTrigger.NameIsCaseSensitive | src/events/voiceStateUpdate.js:15 | a channel called 'gigi' does not trigger a join |
| VoiceTrigger.LeaveIffNoHumans | src/events/voiceStateUpdate.js:26-44 | a leave of the old channel's guild is requested exactly when a 'GiGi' channel was left and every member still in it is a bot |
| VoiceTrigger.NeverBoth | src/events/voiceStateUpdate.js:11-44 | one update never requests both a join and a leave |
| Weather.GetCoordinates | src/services/weather.js:27-67 | `CoordinatesOutcome`: a cache hit answers without a request; otherwise one geocoding request, the first place cached for a day, a ValidationError for no place and an APIError for a failure |
| Weather.First | src/services/weather.js:119-121 | `[0]` of a list: present exactly when the list is non-empty, and then its first element |
| Weather.Day | src/services/weather.js:125-127 | `slice(0, 24)`: the first min(n, 24) elements, unchanged |
| Weather.FormatWeatherData | src/services/weather.js:117-145 | current is the first hour's temperature, precipitation and code; hourly the first 24 hours; daily the daily lists; units the API's temperature unit and '%' |
| Weather.GetWeatherData | src/services/weather.js:75-110 | `WeatherOutcome`: a cache hit answers without a request; otherwise one request by coordinates, the formatted answer cached for the configured timeout, an APIError for a failure |
| Weather.GetWeatherDescription | src/services/weather.js:152-174 | a listed code gives its description, any other value 'Unknown weather condition' |
| Weather.GetWeatherForecast | src/services/weather.js:182-208 | `ForecastOutcome`: the rate limit first, then the coordinates, then the weather data, assembled with the location name and the description; every error rethrown |
| Weather.CoordinatesOutcome | src/services/weather.js:27-67 | a cached location is answered from the cache with no request; otherwise one geocoding request with limit 1; a result is cached under the location's key; a failure stores nothing; no other entry changes |
| Weather.WeatherOutcome | src/services/weather.js:75-110 | cached coordinates are answered with no request; otherwise one weather request; a result is cached under the coordinates' key; only an API failure is an error, and it stores nothing |
| Weather.ForecastOutcome | src/services/weather.js:182-208 | the limiter is consulted once under 'weather'; a refused check sends no request and touches no cache; a geocoding failure is rethrown with no weather request; otherwise the caches and requests are those of the geocoding and of the weather fetch at its coordinates; it succeeds exactly when the check, the geocoding and the weather fetch succeed, and then holds the geocoded name, the fetched data and the description of its current weather code |
| Weather.MessageLines | src/services/weather.js:215-230 | nine lines, the fifth empty |
| Weather.FormatWeatherMessage | src/services/weather.js:215-230 | splitting the message at line breaks gives back its nine lines when no value holds a line break |
| Weather.DescriptionTable | src/services/weather.js:153-172 | the table lists exactly the eighteen codes 0-3, 45, 48, 51-55, 61-65, 71-75, 95, 96, 99, and no description is the unknown text |
| Weather.UnknownIffUnlisted | src/services/weather.js:173 | the unknown text is returned exactly for a missing or unlisted code |
| Weather.CurrentIsFirstHour | src/services/weather.js:118-128 | the current conditions are those of the first hour, which is also the first of the hourly lists |
| Weather.HourlyIsFirstDay | src/services/weather.js:124-143 | the hourly lists are prefixes of at most 24 entries (the whole list when it is shorter), the daily lists are passed through and the precipitation unit is '%' |
| Weather.CoordinatesCacheHit | src/services/weather.js:29-36 | a cached location is answered from the cache with no request and no change |
| Weather.CoordinatesCachedForADay | src/services/weather.js:38-54 | a lookup asks for one result, returns the first place's lat, lon and name, caches it under 'geo:' plus the location for 86400 s, and the next lookup is a cache hit |
| Weather.NotFoundIsValidationError | src/services/weather.js:45-47 | no place found is a ValidationError (status 400) and nothing is cached |
| Weather.GeoFailureIsAPIError | src/services/weather.js:56-66 | a failing geocoding request is an 'OpenWeatherMap' APIError with the HTTP status, or 500, and nothing is cached |
| Weather.WeatherCached | src/services/weather.js:78-100 | fetched weather is formatted, cached under its coordinates for the configured timeout, and the next fetch is a cache hit |
| Weather.RateLimitedForecast | src/services/weather.js:185-188 | a user over 5 weather requests a minute gets a RateLimitError, with no request made and no cache changed |
| Weather.ForecastAssembly | src/services/weather.js:190-203 | a forecast carries the location's name and the description of the current weather code, and with no coordinates no weather request is made |
| Weather.MessageHasNineLines | src/services/weather.js:215-230 | the message has nine lines, a bold header with the location, the conditions on line four and a blank fifth line |
| Movie.RequestParams | src/services/movie.js:24-27 | the query carries the title as t, and y exactly when the year is truthy |
| Movie.RatingLines | src/services/movie.js:57 | one 'Source: Value' line per rating, in order |
| Movie.Thumbnail | src/services/movie.js:64-66 | the thumbnail is the poster unless it is 'N/A' |
| Movie.GetMovie | src/services/movie.js:22-45 | the request carries the title and a truthy year; the lookup fails exactly when the request fails, with an APIError; `Response: 'False'` gives null, and a found movie is the response body |
| Movie.MovieEmbed | src/services/movie.js:57-79 | six fields, IMDb yellow, the thumbnail unless 'N/A'; Plot has no inline flag, the next four are inline and Ratings is not; the plot, or 'N/A' when it is falsy |
| Movie.FormatMovieMessage | src/services/movie.js:52-80 | the not-found text exactly for a null movie; otherwise one embed of the movie |
| Movie.YearOnlyWhenTruthy | src/services/movie.js:24-27 | the request has t, and y only for a truthy year |
| Movie.FoundOrNull | src/services/movie.js:31-36 | a 'False' response gives null, any other is the movie itself |
| Movie.FailureIsAPIError | src/services/movie.js:37-44 | a failing request is an 'OMDb API' APIError 'Failed to fetch movie data' with the HTTP status, or 500 |
| Movie.NullIsNotFound | src/services/movie.js:53-55 | a null movie gives the 'Movie not found' text |
| Movie.EmbedShape | src/services/movie.js:57-79 | one embed titled 'Title (Year)', linked to the IMDb page, IMDb yellow, with the Plot, Director, Cast, Genre, Runtime and Ratings fields in order, their inline flags, and 'N/A' for a missing value, and the footer 'Released: ' with the release date |
| Movie.ThumbnailUnlessNA | src/services/movie.js:64-66 | the embed has a thumbnail exactly when the poster is present and not 'N/A' |
| Movie.JoinedRatingsNonEmpty | src/services/movie.js:57 | a non-empty list of ratings never joins to the empty text |
| Movie.RatingsField | src/services/movie.js:57 | the ratings field is 'N/A' exactly when there are no ratings, and otherwise splits back into the rating lines |
| Movie.InceptionExample | src/services/__tests__/movie.test.js:66-84 | the test's movie gives the title 'Inception (2010)' and six fields |
| F1.FetchF1Data | src/commands/f1.js:8-55 | a parsed race is returned as is; any failure of the request or the parse becomes the one 'Failed to fetch F1 data' error |
| F1.FormatTime | src/commands/f1.js:57-59 | a truthy time is returned unchanged, a missing or empty one becomes 'N/A' |
| F1.ColumnsLayout | src/commands/f1.js:88 | a table row is position, three spaces, driver, a space, time, a space, points and a newline, each field at its offset |
| F1.BuildPodium | src/commands/f1.js:72-77 | the podium has the header and one line per top-three result, and throws on the missing driver when there are fewer than three results |
| F1.BuildRows | src/commands/f1.js:83-89 | the results table has one row per result, in order |
| F1.CreateRaceEmbed | src/commands/f1.js:61-106 | equals `RaceEmbed`: race information, the three-line podium, the padded results table and the fastest-lap section, in that order; a failure with fewer than three results |
| F1.Step | src/commands/f1.js:93-97 | one reduce step keeps the accumulator or takes the current entry; an accumulator with a fastest lap never gives way to one without |
| F1.Fold | src/commands/f1.js:93-97 | the reduce yields its start or one of the entries, and keeps a fastest lap once it has one |
| F1.FastestEntry | src/commands/f1.js:93-97 | the chosen entry is one of the results, and it has a fastest lap exactly when some result has one |
| F1.RaceEmbed | src/commands/f1.js:61-106 | the text exists exactly when there are at least three results; otherwise the podium loop's TypeError |
| F1.LeadingDigits | src/commands/f1.js:96 | the number parseFloat reads is a digit-only prefix of the text |
| F1.FormatTimeIdempotent | src/commands/f1.js:57-59 | the formatted time is never empty, and formatting it again changes nothing |
| F1.PodiumIsTopThree | src/commands/f1.js:72-77 | the podium lists exactly the first three results, numbered '1. ', '2. ', '3. ' |
| F1.TooFewResultsThrow | src/commands/f1.js:73-75 | fewer than three results make the message fail |
| F1.RowColumns | src/commands/f1.js:84-88 | a row whose fields fit is 49 characters: position right-aligned in 2, driver left-aligned in 20, time in 18, points right-aligned in 3 |
| F1.RowKeepsFields | src/commands/f1.js:84-88 | every row keeps the position and the driver's full name, whatever their length |
| F1.RowsLayout | src/commands/f1.js:83-89 | with fitting fields, the k-th 49-character block of the table is the k-th result's row |
| F1.StepRules | src/commands/f1.js:94-95 | an accumulator without a fastest lap is replaced by the current result, and a current result without one keeps the accumulator |
| F1.FoldPicksLapHolder | src/commands/f1.js:93-97 | the reduce returns one of the results, and one with a fastest lap whenever any has one |
| F1.FoldIsFastest | src/commands/f1.js:93-97 | under a strict weak order, no result's lap is faster than the one the reduce picks |
| F1.CorrectedIsStrictWeakOrder | src/commands/f1.js:96 | comparing whole lap times is a strict weak order |
| F1.CorrectedPicksFastestLap | src/commands/f1.js:93-97 | with whole-time comparison the reported lap is the fastest readable one |
| F1.LapMillisOf | src/commands/f1.js:96 | a time 'm:ss.sss' is m minutes, ss seconds and sss milliseconds |
| F1.AsWrittenReportsSlowerLap | src/commands/f1.js:96 | with parseFloat, a 1:40.000 lap listed before a 1:30.000 lap is reported as the fastest; whole-time comparison reports the 1:30.000 lap |
| F1.FastestDetailsOnlyWithLap | src/commands/f1.js:99-103 | the fastest-lap section has details exactly when the chosen result has a fastest lap |
| F1.OnlyStatsHandled | src/commands/f1.js:130 | any type but 'stats' makes no call |
| F1.Execute | src/commands/f1.js:127-161 | for any lap comparison: only the 'stats' type does anything, and it defers first; the second call is a non-ephemeral edit exactly when fetch, parse and embed succeed, and it carries the embed text; an error escaping `execute` is that of the deferral or of the error edit |
| F1.FetchFailureAnswered | src/commands/f1.js:132-158 | a failed fetch defers and then edits the reply with the ephemeral error text |
| F1.StatsPostsRace | src/commands/f1.js:132-145 | for every lap comparison, with at least three results the deferred reply is edited to the race message, mentions suppressed |
| F1.AsWrittenCommandPostsSlowerLap | src/commands/f1.js:93-145 | with the `parseFloat` comparison as written, the command posts for a 1:40.000 lap listed before a 1:30.000 lap a fastest-lap section naming the slower lap |
| KeyValueCache.Cache.constructor | src/utils/cache.js:6-20 | a new cache holds nothing |
| KeyValueCache.Cache.Get | src/utils/cache.js:27-36 | a lookup finds a value exactly when the key is stored, and then it is the stored value |
| KeyValueCache.Cache.Set | src/utils/cache.js:45-56 | storing replaces the key's entry with the value and its TTL and leaves every other key alone |
| JsText.SplitWithout | src/commands/f1.js:96 | a text without the separator splits into itself alone |
| JsText.SplitAt | src/commands/f1.js:96 | a text whose first separator follows a splits into a and the split of the rest |
| JsText.SplitJoinWhenClean | src/services/weather.js:219-229 | a join splits back into its parts whenever no part holds the separator |
| JsText.SplitJoin | src/services/weather.js:219-229 | joining parts without the separator and splitting again gives the parts back |
| JsText.Spaces | src/commands/f1.js:84-88 | n spaces |
| JsText.PadStart | src/commands/f1.js:86-88 | `padStart`: the text, right-aligned with spaces to the width, never truncated |
| JsText.PadEnd | src/commands/f1.js:84-85 | `padEnd`: the text, left-aligned with spaces to the width, never truncated |
| JsText.LowerChar | src/services/gemini.js:117 | an upper-case ASCII letter becomes the lower-case letter at the same place in the alphabet; every other character is unchanged |
| JsText.ToLowerAscii | src/services/gemini.js:117 | lower-casing keeps the length |
| JsText.ToLowerAsciiAt | src/services/gemini.js:117 | lower-casing works character by character |
| JsText.ToLowerAsciiAppend | src/services/gemini.js:117 | lower-casing distributes over concatenation |
| JsText.ToLowerAsciiIdempotent | src/services/gemini.js:117 | lower-casing twice is lower-casing once |
| JsText.ContainsOccurrence | src/services/gemini.js:117 | `includes` holds exactly when the text occurs at some index |
| JsText.NatToString | src/services/twilio.js:40 | a number's decimal text is a non-empty run of digits |
| JsText.NatToStringValue | src/services/twilio.js:40 | reading a number's decimal text back gives the number |
| JsText.NatToStringShape | src/services/twilio.js:40 | a positive number's text has no leading zero and as many digits as its magnitude says, and 0 is '0' |
| JsText.DigitsRoundTrip | src/services/twilio.js:40 | a digit string without a leading zero is the decimal text of its value |
| JsText.Or | src/services/movie.js:67-74 | `x || fallback`: a truthy value is kept, anything else gives the fallback |

## Left out

- Logging (`src/utils/logger.js`) is a no-op. The one log line with a meaning of its own, Twilio's format warning, is a flag in the result.
- Timers are explicit methods that the caller runs:
  - the `setInterval` sweeps of the limiter, the chat sessions and the OpenAI threads;
  - the development-mode cache statistics;
  - the one-second sleep of the polling loop.
- `Date.now()` is the parameter `now`.
- The shared node-cache instance is a map per value type (`KeyValueCache.Cache`). Its keys carry a prefix per service ('geo:', 'weather:', 'image:', 'gemini:'), so no two services share a key. Each entry keeps its TTL, but expiry is not modelled: a stored entry stays until overwritten.
- `src/utils/cache.js` operations other than `get` and `set` (`delete`, `has`, `mget`, `mset`, `clear`, `getStats`) are not part of this model, because the core never calls them.
- `src/config/index.js` is not part of this model. Its constants appear where they are used:
  - the limiter's default window of 60000 ms and 5 requests;
  - the thread and session age of one hour.
  The Gemini settings, which the configuration file does not define, are the parameter `GeminiConfig`.
- HTTP requests, SDK calls (OpenAI, Gemini, Twilio), XML parsing in f1.js and `new WebSocket` are represented by their outcome: the parsed answer, or the error thrown.
- Weather: a response without the hourly or daily lists is not modelled. In the source it would make `formatWeatherData` throw, and the error would become an APIError 'Failed to get weather data'; in the model a raw answer always has its lists, possibly empty.
- Weather: JSON numbers are carried as the text that template interpolation renders for them, because the service only copies and prints them.
- Vapi: the audio itself is out of scope. src/services/vapi.js has no decode, resample or playback pipeline, and the 100 ms silence buffer that the open handler's comment mentions is never built or sent. The model keeps the transport state and the trace of sockets, requests, events and sent buffers.
- Voice: `joinVoiceChannel`, `entersState` and `destroy` of the voice library are represented by their effect on the guild-to-connection map. The reconnection race is the parameter `recoveredAfterMs`.
- Voice.VoiceService.OnReady: the call it starts is not awaited in the source. Its result, and a rejection of it, are dropped, so the model keeps only the transport state that `startCall` leaves behind.
- VoiceTrigger: a failing join is caught inside the event and only logged. The model returns the requested join and leave and leaves performing them to `Voice`.
- Commands: `registerCommands`, `getAllCommands` and the Discord API registration are not part of this model, because they are REST glue with no logic of their own. Reading the commands directory and `require` are outcome parameters.
- The `SlashCommandBuilder` definitions of the commands (names, descriptions, option choices) are not modelled; only the option values the commands read are.
- Gemini: the constructor and `getModelInfo` are not modelled, because they only copy configuration.
- Chat.ChatSessions.HandleMessage: each message is handled to completion before the next one starts. In the source the user entry is pushed before the completion is awaited (src/commands/chat.js:110) and the answer after it (src/commands/chat.js:117). Two overlapping messages of one user can therefore leave two user entries in a row. Interleaved handlers are not modelled.
- Chat.MessageKeepsWellFormed: the alternation of user and assistant entries holds only when messages are handled one at a time, as above.
- OpenAI.OpenAIService.GetOrCreateThread: each call completes before the next one starts. In the source two overlapping calls for a user without a thread both create a thread, because the table is read before `threads.create` is awaited and written after it (src/services/openai.js:75-84). The second thread then overwrites the first in the table. Interleaved calls are not modelled.
- RateLimiting.RateLimiter.GetStatus: the result is a map from key to its count and oldest timestamp in milliseconds. The source returns an array in the insertion order of its Map, with `oldestRequest` as an ISO date string (src/utils/rateLimiter.js:131-140). The order and the date text are not modelled.
- Chat: the Discord replies of `execute` and `handleMessage` are taken to succeed. In the source, a reply that throws after a successful OpenAI answer also triggers the switch to Gemini. A reply that throws in `execute` goes to `handleInteractionError`. The model covers neither case.
- Errors: the `.catch` on every reply of the two error handlers swallows its failure, so those replies are taken to succeed.
- SendText: the calls made from the final catch block are taken to succeed. Every Discord call in the body may throw, as the `Faults` parameter says.
- F1: the lap-time comparison is a parameter `faster` of the fold, of `F1.RaceEmbed` and of `F1.Execute`. The comparison as written is `F1.AsWrittenFaster` (by `parseFloat`); `F1.CorrectedFaster` compares whole lap times (see Findings). Floating-point parsing in general is not modelled; only the integer part that `parseFloat` reads from an 'm:ss.sss' time is.
- F1.FetchF1Data: the parsed race is assumed to hold `position`, `points` and `FastestLap.lap` as plain text values. The parser is set up with `explicitArray: false` (src/commands/f1.js:6), which puts XML attributes under a `$` key, and the code reads `AverageSpeed.$.units` that way (src/commands/f1.js:102). If the Ergast feed gives those three as attributes, the code reads them as undefined, and `padStart` on `points` throws. What the feed holds is not part of this model.
- JsText: `toLowerCase` is ASCII lower-casing only, without Unicode case folding. Lengths count code points, not UTF-16 units, which matters to the F1 table only for drivers' names outside the Basic Multilingual Plane.
- Integers are unbounded. The source's numbers are small timestamps, counts and statuses, so no width or rounding is modelled apart from `Math.ceil` in the limiter.

### Behaviour of the code worth noting

- `stopCall` (src/services/vapi.js:117-123) closes and forgets the socket but keeps `sessionId` (`Vapi.StopIdempotent`).
- The socket's open handler (src/services/vapi.js:77-86) emits 'open', then 'close', and drops the socket at once. So `sendAudio` never sends a buffer in a reachable state (`Vapi.AudioIsAlwaysDropped`).
- A disconnect that does not recover only destroys the voice connection (src/services/voice.js:38-42). It does not stop the voice-assistant call.
- A failed call start leaves the voice connection in place, because the promise of `startCall` is not awaited (src/services/voice.js:25-29).
- The socket's error handler (src/services/vapi.js:88-91) emits 'error' on the service, and nothing in the program listens for that event: src/services/voice.js:8 and :25-29 only call `startCall`. An EventEmitter throws an 'error' event that has no listener, so the error escapes the socket's callback and the `uncaughtException` handler of src/app.js:82-85 exits the process with status 1. One socket error therefore stops the bot (`Vapi.SocketErrorEndsProcess`).
- The leave rule of src/events/voiceStateUpdate.js:26-44 also triggers when a human leaves a 'GiGi' channel in which only bots remain.

## Findings

| source | as written | input that shows it | evidently intended | confidence | as-written member | corrected member |
|---|---|---|---|---|---|---|
| src/commands/f1.js:96 | the fastest-lap fold compares `parseFloat` of the 'm:ss.sss' lap times, which reads only the minutes before the colon | a 1:40.000 lap listed before a 1:30.000 lap: both read as 1, so the slower lap is reported as the fastest | compare whole lap times, so that the fastest lap is reported | not executed | F1.AsWrittenReportsSlowerLap | F1.CorrectedPicksFastestLap |
| src/utils/rateLimiter.js:96 | `cleanup` prunes every key with the configured 60 s window, although the image limits (src/services/openai.js:29, src/services/gemini.js:164) use 300 s | three image requests at 0, 1 and 2 s refuse a fourth at 62.001 s, but once cleanup runs at that instant the fourth is accepted | prune with the longest window any caller uses, so that cleanup never changes a decision | not executed | RateLimiting.CleanupForgetsImageRequests | RateLimiting.PruneLongestKeepsImageDecisions |
