# Kurosawa conversation core, modelled in Dafny

Kurosawa is a Discord bot. Users talk to it in channels whose names start
with `ai-`, or in one configured channel with the `!m ` prefix. This project
models the bot's core:

- **Handling a message** (`Inbound`, `Segmenter`, `Strings`). Decide whether
  the bot answers. Strip the prefix, trim, put fetched link contents in
  front, and pick the display name. Then cut a long reply into
  Discord-sized pieces and send them in order.
- **Conversation log** (`History`, `MessageLog`). Each user has a `DBService`
  whose SQLite `messages` table is a sequence of rows. The three SQL
  statements (select ordered by time, the trim threshold, the delete) are
  functions over that sequence.
- **Handle cache** (`DatabaseManagerModel`). One handle per user, opened on
  demand from `<dataDir>/<userID>.db`. The data directory is a set of paths.
- **Conversation service** (`Orchestrator`, `Retry`). `MLService.GetResponse`
  does five things in order:
  1. It stores the user's turn.
  2. It turns the stored history into a prompt.
  3. It calls the Gemini generator. The generator is at most five scripted
     outcomes, with exponential back-off on HTTP 429.
  4. It falls back to a canned reply on empty text.
  5. Otherwise it stores the reply and trims the history to 20 turns.
- **Back-ends** (`ProviderTypes`, `Gemini`, `OpenAI`, `Mistral`,
  `OpenRouter`). Each is a class holding its API key and model. Its
  `GetResponse` turns an abstract call outcome into a reply or a classified
  error.
- **Registry** (`Registry`). Registers the back-ends whose API keys are set in
  an environment map. Also the lookup and the listing.
- **Preference commands** (`AICommands`). `/provider`, `/model` and
  `/aiconfig` work over a preference map from user to (provider, model).

Modelling conventions:

- **Strings.** A `string` stands for Go's byte string, one `char` per byte.
- **Time.** Timestamps are integers. `time.Now()` is a parameter, and
  `time.Sleep` is a recorded delay in seconds.
- **Failures.** A failure of the SQL driver, the file system, the network or
  an SDK is an input: an `Option<string>` fault, a scripted outcome or an
  abstract HTTP outcome.
- **Errors.** Each error is a datatype case. What a case carries (a status
  code, a model name, a detail) is modelled; the English wording is not.

## Model

| member | source | states |
|---|---|---|
| Strings.LeadLen | main.go:152 | the leading run of ASCII white space is all white space and is followed by a non-space byte |
| Strings.TrimEnd | main.go:152 | the trailing run of white space before an index is all white space and is preceded by a non-space byte |
| Strings.TrimSpace | main.go:152 | the result is a slice of the input with only white space removed at both ends. It has no white space at either end, and it is empty exactly when the input is all white space |
| Strings.TrimSpaceParts | main.go:232-237 | every string is its trimmed form with white-space-only strings on either side |
| Strings.TrimSpaceOfTrimmed | main.go:232-237 | trimming a string with no white space at its ends leaves it unchanged |
| Strings.TrimPrefix | main.go:150 | with the prefix present, the input is the prefix followed by the result; otherwise the input is returned as it is |
| Strings.LastIndexFrom | main.go:252 | returns an occurrence at or before the start bound, or -1, and no later occurrence exists up to that bound |
| Strings.LastIndex | main.go:252 | returns -1 or an index where `sub` occurs, and `sub` occurs at no larger index |
| Strings.ContainsIff | database.go:51 | `strings.Contains` holds exactly when the needle occurs at some index |
| Strings.ToLower | ai_commands.go:39 | keeps the length and lower-cases each ASCII letter in place |
| Strings.ToLowerIdempotent | ai_commands.go:39 | lower-casing an already lower-cased name changes nothing |
| Segmenter.FirstOccurring | main.go:248-255 | finds the first separator, in priority order, that occurs in the search window; none before it occurs there |
| Segmenter.SplitPoint | main.go:243-258 | text that fits is cut at its length; longer text is cut at an index in [1, maxLength], so the remainder strictly shrinks |
| Segmenter.FindBestSplitPoint | main.go:243-258 | the separator loop returns either a hard cut at maxLength, with no separator anywhere in the window, or the index just after the last occurrence of the highest-priority separator in the window |
| Segmenter.SplitRest | main.go:224-238 | every piece the loop appends is non-empty and at most maxLength long |
| Segmenter.Split | main.go:216-241 | text that fits comes back as `[text]`; every piece fits; when a split happens no piece is empty |
| Segmenter.SplitMessage | main.go:216-241 | the loop (cut, trim both sides, drop an empty piece) returns exactly the pieces of `Split` |
| Segmenter.LastPiece | main.go:225-228 | a remainder that fits is appended as the last piece |
| Segmenter.CutStep | main.go:230-237 | one cut keeps pieces-so-far followed by pieces-of-remainder equal to the pieces of the text, and the remainder is strictly shorter |
| Segmenter.SplitRestReassembles | main.go:230-237 | the loop's pieces, put back between white-space-only gaps, rebuild the remaining text exactly |
| Segmenter.SplitReassembles | main.go:216-241 | the text equals w0 + p1 + w1 + … + pn + wn, with p1…pn the pieces and each wi white space only |
| Segmenter.SplitExample | main.go:216-258 | `splitMessage("Hello world. This is a test.", 20)` is `["Hello world.", "This is a test."]` |
| Segmenter.ExampleSplitPoint | main.go:248-255 | in the example, ". " is the first separator that occurs in the first 20 bytes |
| Segmenter.ExampleFirstPiece | main.go:232 | in the example, the first piece trims to "Hello world." |
| Segmenter.ExampleFirstStep | main.go:230-237 | in the example, the first cut yields "Hello world." and leaves "This is a test." |
| Segmenter.ExampleLastStep | main.go:225-227 | in the example, the remainder fits and becomes the last piece |
| Segmenter.WithBreaks | main.go:201-205 | every piece but the last is followed by a blank line; the last is sent as it is |
| Segmenter.FirstRejected | main.go:207-210 | finds the first send the transport rejects; every earlier send succeeded |
| Segmenter.Attempted | main.go:201-211 | sending stops right after the first rejected send |
| Segmenter.SendLongMessage | main.go:193-214 | a message that fits goes out in one send; otherwise the pieces go out with blank lines, in order, up to and including the first rejected send; success means no send was rejected |
| Segmenter.SendParts | main.go:199-213 | the send loop hands over exactly the prefix of the pieces-with-breaks that ends at the first rejected send |
| Segmenter.OutgoingOfShortMessage | main.go:194-197 | a message of at most 2000 bytes is sent as one message, unchanged |
| Segmenter.OversizedChunkExample | main.go:199-207 | as written, 4000 bytes with no separator go out as a 2002-byte message and a 2000-byte one |
| Segmenter.HardCutTwice | main.go:250-257 | text of twice the limit, with no separator in its first half, is cut hard in the middle |
| Segmenter.HardCut | main.go:257 | with no separator in the window, the cut is at maxLength |
| Segmenter.SplitRestCut | main.go:230-237 | one round of the loop: the trimmed piece, when non-empty, followed by the pieces of the trimmed remainder |
| Segmenter.WithBreaksFit | main.go:201-205 | pieces two bytes shorter than the limit still fit once the blank line is appended |
| Segmenter.OutgoingFixedFits | main.go:193-214 | with pieces cut at 1998 bytes, every outgoing message fits within 2000 bytes |
| Segmenter.SendLongMessageFixed | main.go:193-214 | the corrected sender gives the same stop-at-first-rejection behaviour, and every message handed over fits |
| Inbound.ShouldHandle | main.go:71-88 | bots are ignored; a message is handled exactly when the channel name starts with "ai-", or when the channel is the configured one and the content starts with "!m " |
| Inbound.PrepareMessage | main.go:146-156 | outside AI channels one leading "!m " is removed, then white space is trimmed. An all-white-space message gives nothing; otherwise the result is the non-empty trimmed slice |
| Inbound.HandledCommandLosesPrefix | main.go:85-86 | a message let through by the "!m " rule has that prefix removed exactly once before trimming |
| Inbound.PrependLinks | main.go:158-168 | each fetched page is put in front of the message on its own line, the latest fetched first; failed fetches add nothing |
| Inbound.FailedFetchesAddNothing | main.go:160-165 | when every fetch fails, the message goes on unchanged |
| Inbound.DisplayName | main.go:170-173 | the member's nickname when the member is present and the nickname is non-empty; otherwise the user name |
| Inbound.HandleAIMessage | main.go:145-175 | an empty prepared message makes no request; otherwise the request carries the author ID, the display name and the link contents followed by the prepared text |
| Inbound.DeliverReply | main.go:175-185 | a service failure sends the fixed error notice; a reply goes out through the corrected sender, and every message sent fits |
| History.RowsOf | database.go:67 | `WHERE user_id = ?` keeps exactly the user's rows |
| History.RowsOfAppend | database.go:60-62 | inserting a row extends only its own user's selection |
| History.Insert | database.go:67 | stable insertion keeps all rows and adds one |
| History.SortByTime | database.go:67 | `ORDER BY timestamp` is a permutation of its input |
| History.InsertBounded | database.go:67 | every row of an insertion is an existing row or the inserted one |
| History.AppendLatestSorted | database.go:67 | a sorted run followed by a row no earlier than all of its rows is sorted |
| History.InsertSorted | database.go:67 | inserting into a time-sorted sequence keeps it sorted |
| History.SortSorted | database.go:67 | the ordered selection is sorted by time |
| History.SortAppendLatest | database.go:60-67 | a row stored with the newest time is listed last |
| History.Query | database.go:67 | the selection is sorted by time and holds exactly the user's rows, as a permutation |
| History.CountFrom | database.go:89-95 | the number of rows at or after a time is at most the number of rows |
| History.CountInsert | database.go:89-95 | counting rows at or after a time is unaffected by the order of insertion |
| History.CountSort | database.go:89-95 | sorting does not change how many rows are at or after a time |
| History.CountMonotone | database.go:89-95 | a later time never has more rows at or after it |
| History.CountNone | database.go:89-95 | when every row is older than a time, none is counted from it |
| History.CountSortedAt | database.go:89-95 | in sorted order, rank j has at least n-j rows at its time or later, and at most n-1-j strictly later |
| History.Offset | database.go:95 | `OFFSET keepCount-1`, where a negative offset counts as zero |
| History.Threshold | database.go:89-99 | no threshold (`sql.ErrNoRows`) exactly when the user has at most keepCount-1 rows |
| History.ThresholdCounts | database.go:89-95 | the threshold has at least keepCount of the user's rows at its time or later, and fewer strictly later |
| History.RankCounts | database.go:89-95 | the row with off rows after it in sorted order has at least off+1 rows at its time or later and at most off strictly later |
| History.SortedCounts | database.go:89-95 | the same bounds on a sorted sequence, with the time and the number of later rows named |
| History.CountsDetermineTime | database.go:89-95 | at most one time has those counts |
| History.ThresholdFromCounts | database.go:89-95 | any time with those counts is the threshold, the converse of ThresholdCounts |
| History.Trimmed | database.go:103-104 | the delete removes exactly the user's rows strictly older than the threshold; every other row stays |
| History.KeepFrom | database.go:103-104 | the rows kept from a time are as many as the rows counted from it |
| History.CountKeepFrom | database.go:103-104 | the kept rows have the same counts at or after the threshold |
| History.RowsOfTrimmed | database.go:103-104 | after the delete, the user keeps the rows at the threshold or later, in order, and other users' rows are untouched |
| History.TrimmedTwice | database.go:103-104 | deleting twice with the same threshold removes nothing more |
| History.TrimKeepsNewest | database.go:87-106 | after a trim, the user still has at least keepCount rows (one row when keepCount < 1) |
| History.TrimIdempotent | database.go:87-110 | a second trim with the same keepCount finds the same threshold and deletes nothing |
| History.KeepFromCounts | database.go:89-106 | the rows kept from the threshold have the threshold's counts |
| MessageLog.ToMessages | database.go:74-83 | each selected row becomes one message with its name, role, content and time, in order |
| MessageLog.MessagesAfterAdd | database.go:60-85 | a message stored with the newest time is listed last for its user; other users' listings do not change |
| MessageLog.MigrationError | database.go:33-58 | a CREATE error is returned; an ALTER error is returned unless it contains "duplicate column name"; otherwise there is no error |
| MessageLog.DBService.constructor | database.go:25 | a handle on the data source, open, holding the file's rows |
| MessageLog.DBService.AddMessage | database.go:60-64 | exactly one row is appended, carrying the given fields and the time; a driver failure changes nothing |
| MessageLog.DBService.GetMessages | database.go:66-85 | returns the user's messages in ascending time order, or the driver's error |
| MessageLog.DBService.TrimHistory | database.go:87-110 | with no threshold nothing changes. A failed threshold query or delete returns a wrapped error and changes nothing. Otherwise the user's rows older than the threshold are deleted |
| MessageLog.DBService.Close | database.go:112-114 | the handle is closed and its rows are kept |
| MessageLog.NewDB | database.go:16-31 | a connection failure or a migration error is returned; otherwise a fresh open handle on the path |
| DatabaseManagerModel.Join | database_manager.go:34 | `filepath.Join` of a directory and a file name puts one '/' between them |
| DatabaseManagerModel.DbPath | database_manager.go:34 | the user's file name ends in ".db" |
| DatabaseManagerModel.DbPathInjective | database_manager.go:34 | different users get different files |
| DatabaseManagerModel.DatabaseManager.constructor | database_manager.go:20-23 | an empty cache over the data directory |
| DatabaseManagerModel.OpenError | database.go:16-31 | the error `NewDB` fails with: the connection's first, else the migration's; none exactly when both succeed |
| DatabaseManagerModel.DatabaseManager.GetUserDB | database_manager.go:26-42 | a cache hit returns the cached handle and changes nothing. A miss opens `dataDir/<user>.db` and caches it, so a second call returns the same handle. A failed open returns the connection or migration error wrapped with the user's name, and caches nothing |
| DatabaseManagerModel.DatabaseManager.CloseAll | database_manager.go:44-51 | every cached handle is closed and the cache keeps its keys |
| DatabaseManagerModel.DatabaseManager.DeleteUserDB | database_manager.go:61-76 | closes and evicts only this user's handle. A missing file is not an error, so a repeated delete succeeds. A failed removal returns its error and keeps the file |
| DatabaseManagerModel.DatabaseManager.Evict | database_manager.go:65-68 | a cached handle for the user is closed and dropped from the cache; the other handles, their rows and the files are unchanged |
| DatabaseManagerModel.DatabaseManager.RemoveFile | database_manager.go:70-75 | a missing file is success with nothing removed; a failed removal returns its error and keeps the file; otherwise exactly that file is removed |
| DatabaseManagerModel.DatabaseManager.ClearUserHistory | database_manager.go:53-59 | a cached handle gives the clear's outcome and changes nothing. A failed open returns GetUserDB's wrapped error and changes nothing. Otherwise only this user's new open handle is added, with its file, before the clear's outcome |
| DatabaseManagerModel.NewDatabaseManager | database_manager.go:16-24 | a directory-creation failure is a wrapped error; otherwise an empty cache |
| Retry.Pow2 | ml_service.go:92 | a power of two is at least one |
| Retry.Backoff | ml_service.go:92-94 | the i-th sleep lasts 2^i seconds |
| Retry.Stop | ml_service.go:80-96 | every call before the stop hit the rate limit, and the call at the stop did not |
| Retry.Calls | ml_service.go:80-99 | one to five calls; all but the last were rate limited; fewer than five means the last was not |
| Retry.GenerateWithRetry | ml_service.go:80-99 | the loop makes `Calls` calls, sleeps the back-off of the rate-limited ones, and ends on a rate limit only after five of them |
| Retry.RateLimitedTwiceThenText | ml_service.go:80-96 | two 429s and then text: three calls, sleeps of 1 s and 2 s |
| Retry.RateLimitedThroughout | ml_service.go:80-103 | five 429s: five calls, sleeps of 1, 2, 4, 8 and 16 s |
| Orchestrator.RenderAppend | ml_service.go:125-137 | the history lines of two histories are the lines of each, in order |
| Orchestrator.RenderIgnoresRole | ml_service.go:127-135 | user and assistant rows render alike |
| Orchestrator.RenderStep | ml_service.go:125-137 | each loop iteration adds the current message's line |
| Orchestrator.RenderOne | ml_service.go:129 | one message renders as "name: content\n" |
| Orchestrator.BuildPrompt | ml_service.go:121-143 | the system prompt, the history header, one "name: content" line per message in order, then the footer |
| Orchestrator.PromptEndsWithNewTurn | ml_service.go:40-49 | the user's turn, stored with the newest time, is the last history line of the prompt |
| Orchestrator.Generation | ml_service.go:76-103 | text exactly when the first of the five calls that is not rate limited generates text. That call's error when it fails otherwise. The retry-count error exactly when all five calls are rate limited |
| Orchestrator.ReplySurvivesTrim | ml_service.go:110-116 | the reply just stored is never older than the trim threshold, so it survives the trim |
| Orchestrator.AfterReplyKeepsNewest | ml_service.go:110-116 | with no faults, the reply is kept and the user keeps at least 20 rows |
| Orchestrator.CallGenerator | ml_service.go:76-103 | the generator loop's outcome, calls and sleeps are those of `Generation`, `Calls` and `Backoff` |
| Orchestrator.MLService.constructor | ml_service.go:32-35 | the service holds the given handle |
| Orchestrator.MLService.StoreReply | ml_service.go:110-116 | stores the reply, then trims to 20; a failure of either only skips that step |
| Orchestrator.MLService.GetResponse | ml_service.go:38-119 | a failed user-turn write returns an error, with no request and no call. A failed history load returns an error after the write. Otherwise the generator is asked for "gemini-2.5-pro" with the prompt over the stored history, and an error or empty text stores nothing more. A reply is stored and the history trimmed |
| ProviderTypes.FirstChoice | mistral_provider.go:122-131 | the first choice's content when there is one and it is non-empty; otherwise "Sorry, I cannot respond to this." |
| ProviderTypes.StatusError | mistral_provider.go:99-115 | 429, 503, 401, 403 and 400 each have their own error (400 names the model); any other status carries the status and the raw body |
| ProviderTypes.StatusErrorInjective | mistral_provider.go:99-115 | different statuses give different errors |
| ProviderTypes.Interpret | mistral_provider.go:87-131 | transport errors, then any non-200 status, then decoding; a reply exactly when the status is 200 and the body decodes, and it is never empty |
| ProviderTypes.ErrorStatusIgnoresDecoding | mistral_provider.go:99-116 | a non-200 status is an error whatever the body decodes to |
| Gemini.Classify | gemini_provider.go:69-84 | 503 is "unavailable"; 401 and 403 are authentication failures naming the code; any other error is a generic failure carrying its detail |
| Gemini.FirstSettledCallDecides | gemini_provider.go:58-96 | the first call that is not rate limited ends the loop: its text, or the fallback for empty text, or its classified error |
| Gemini.NoRetryOnServerOrAuthErrors | gemini_provider.go:76-81 | a first call failing with 503, 401 or 403 makes one call, no sleep, and returns that error |
| Gemini.ExhaustedAfterFiveRateLimits | gemini_provider.go:87-89 | five 429s end in the "after 5 retries" error |
| Gemini.GeminiProvider.constructor | gemini_provider.go:17-27 | the provider holds its API key |
| Gemini.GeminiProvider.GetResponse | gemini_provider.go:29-97 | the request names "gemini-3-pro" and the prompt; the retry loop yields `Response`, with `Calls` calls and 2^i-second sleeps |
| Gemini.NewGeminiProvider | gemini_provider.go:17-27 | a client-creation error is returned; otherwise a fresh provider |
| OpenAI.Contains | openai_provider.go:86-93 | the index loop finds the needle exactly when it occurs at some index, as `strings.Contains` does |
| OpenAI.ContainsEdgeCases | openai_provider.go:86-93 | an empty needle is always found; a needle longer than the text never is |
| OpenAI.Classify | openai_provider.go:37-53 | rate limiting exactly when the message is "429" or contains "rate limit"; a generic error carries the message |
| OpenAI.ClassifyIsFirstMatch | openai_provider.go:37-53 | the if-chain is the first match in the rule table: 429, 503, 401, 403, timeout/connection, else generic |
| OpenAI.EarlierRuleWins | openai_provider.go:38-46 | a message about both a rate limit and authorisation counts as rate limited |
| OpenAI.OpenAIProvider.constructor | openai_provider.go:17-26 | an empty model defaults to "gpt-5.1" |
| OpenAI.OpenAIProvider.SetModel | openai_provider.go:81-83 | the model field is overwritten |
| OpenAI.OpenAIProvider.GetResponse | openai_provider.go:28-66 | the request always names gpt-4o and carries the prompt as one user message; an SDK error is classified; otherwise the choice fallback applies |
| Mistral.MistralProvider.constructor | mistral_provider.go:51-60 | an empty model defaults to "mistral-large-latest" |
| Mistral.MistralProvider.SetModel | mistral_provider.go:146-148 | the model field is overwritten |
| Mistral.MistralProvider.GetResponse | mistral_provider.go:62-132 | the request carries the stored model, one user message with the prompt, and safe mode off; the outcome is interpreted by status, decoding and the choice fallback; 400 names the model |
| OpenRouter.OpenRouterProvider.constructor | openrouter_provider.go:51-60 | an empty model defaults to "openai/gpt-5.1" |
| OpenRouter.OpenRouterProvider.SetModel | openrouter_provider.go:151-153 | the model field is overwritten |
| OpenRouter.OpenRouterProvider.GetResponse | openrouter_provider.go:62-133 | the request carries the stored model and one user message with the prompt; the outcome is interpreted by status, decoding and the choice fallback; 400 names the model |
| Registry.Construct | provider_factory.go:24-60 | only Gemini's constructor can fail; the others store the key and the model, defaulted |
| Registry.RegisteredFromEnvironment | provider_factory.go:24-75 | registered keys lie within {gemini, openai, mistral, openrouter}. Each is registered exactly when its API key is set, and Gemini only when its client can also be created |
| Registry.RegisteredSnoc | provider_factory.go:62-66 | trying one more configuration adds its key exactly when it registers |
| Registry.ConfigStep | provider_factory.go:62-66 | one iteration of the configuration loop, with each key naming its own back-end |
| Registry.ProviderFactory.constructor | provider_factory.go:20-22 | the registry starts empty |
| Registry.ProviderFactory.RegisterProvider | provider_factory.go:78-94 | an empty API key or a constructor failure is an error and leaves the registry unchanged; success sets only `cfg.name`, to a fresh back-end holding the key and the model |
| Registry.ProviderFactory.GetProvider | provider_factory.go:100-102 | exact-key lookup; nil when the key is absent |
| Registry.ProviderFactory.GetAvailableProviders | provider_factory.go:104-110 | every key exactly once; the length equals the registry's size |
| Registry.NewProviderFactory | provider_factory.go:19-76 | fails with the fixed message exactly when nothing registered; otherwise the registry holds exactly the registered keys, each wired to its own back-end |
| AICommands.ErrorResponse | ai_commands.go:228-233 | "Error: " followed by the message, ephemeral |
| AICommands.SelectedProvider | ai_commands.go:37-40 | the `name` option lower-cased; lower-casing it again changes nothing |
| AICommands.Shown | ai_commands.go:103-113 | "none" and "" show as "Not selected"; any other name is shown as it is |
| AICommands.BulletsAppend | ai_commands.go:135-137 | the bullet list of two lists is the two bullet lists, one after the other |
| AICommands.BulletsListEach | ai_commands.go:135-137 | every item has its own "• item" line |
| AICommands.AICommandHandler.constructor | ai_commands.go:22-25 | the handler over the given listing, catalogue and preferences |
| AICommands.AICommandHandler.Lookup | ai_commands.go:61 | the stored choice, or the read error |
| AICommands.AICommandHandler.ListProvidersResponse | ai_commands.go:128-144 | an empty listing is the "No AI providers are configured" error; otherwise the header, one bullet per provider, then the usage line |
| AICommands.AICommandHandler.SetProviderResponse | ai_commands.go:147-186 | an unknown provider is an error naming it and listing the known ones; a known one stores (provider, "none"), resetting the model, and lists its models; nothing is written on any error |
| AICommands.AICommandHandler.ProviderCommand | ai_commands.go:33-49 | no name writes nothing and replies with the provider list, or with the no-providers error. A name is lower-cased. An unknown provider is an error naming the known ones. A handle or save error is reported and writes nothing. Otherwise (provider, "none") is stored and the reply lists its models |
| AICommands.AICommandHandler.ListModelsResponse | ai_commands.go:189-206 | an unknown provider is an error; otherwise the header, one bullet per model, then the usage line |
| AICommands.AICommandHandler.SetModelResponse | ai_commands.go:209-225 | stores (provider, model) without checking the model against the provider's list; on an error nothing is written |
| AICommands.AICommandHandler.ModelCommand | ai_commands.go:52-84 | handle and read errors are reported. A current provider of "none" or "" is an error and writes nothing. No name writes nothing and lists the current provider's models, or reports it unknown. A save error is reported and writes nothing. Otherwise (current provider, name) is stored and confirmed |
| AICommands.AICommandHandler.AIConfigCommand | ai_commands.go:87-123 | handle and read errors are reported; otherwise the configuration text, showing "Not selected" for "none" or "" |

## Left out

- Discord, SQLite, HTTP, JSON and the genai and openai-go SDKs are not modelled. Their results are inputs: fault parameters, scripted generator outcomes, abstract HTTP outcomes, decoded choice lists. A marshal failure or a request-construction failure in the REST back-ends is not modelled.
- Error wording is not modelled: each error is a datatype case carrying its status, model or detail.
- The `sync.Mutex` of `DatabaseManager` is not modelled. Every operation runs alone.
- `time.Now()` is a parameter and `time.Sleep` a recorded delay. RFC 3339 formatting of message times is not modelled: a message carries the integer time.
- `strings.TrimSpace` trims only the six ASCII white-space bytes, not Unicode white space. `strings.ToLower` lower-cases only ASCII letters. The bullet "•" is one character here, three bytes in Go.
- `findURLs` (a regular expression) and link fetching are not modelled: the outcome of fetching each URL found is an input.
- `filepath.Join` is modelled for a plain file name only. Path cleaning is not modelled.
- A handle's rows are those passed to `NewDB`. What survives on disk between handles of the same file is not modelled beyond "the file exists, with these rows".
- `GetUserPreference`, `SetUserPreference`, `ClearHistory`, `MLService.GetProvider` and `MLService.GetAvailableProviders` are called but defined in no file of the repository. Their observable use is modelled:
  - the read's result is a parameter, with the answer for a user with no stored choice also a parameter;
  - a successful write updates the preference map, and a failed write changes nothing;
  - `ClearHistory`'s outcome is a parameter;
  - the service's provider listing and catalogue are constants of the handler.
- main.go:63 calls `NewMLService` with arguments that ml_service.go:25 does not accept. The service is modelled as ml_service.go defines it: over one `DBService`, calling Gemini directly. `NewMLService`'s client creation is not modelled.
- Client creation is not modelled beyond Gemini's: its failure is an input. OpenAI's constructor cannot fail.
- Gemini's and the service's safety settings are not modelled; they are request configuration with no effect on the logic.
- `GetName` and `GetAvailableModels` are constants (`Gemini.Name`, `Gemini.Models` and so on), dispatched by `Registry.GetName` and `Registry.GetAvailableModels`.
- `GetProviders` returns the registry map itself and is not modelled separately.
- Registry.ProviderFactory.GetAvailableProviders: Go's map iteration order is random; the model promises only that every key appears once.
- `OpenRouterUsage.Cost`, a float, is unused and not modelled.
- History.SortByTime: `ORDER BY timestamp` leaves the order of rows with equal times to SQLite. The model breaks ties by insertion order, a stable sort. `History.SortAppendLatest`, `MessageLog.MessagesAfterAdd` and `Orchestrator.PromptEndsWithNewTurn` rely on that tie-break when the new row's time equals an earlier one; under another tie order they hold only for a strictly later time.
- Segmenter.Split: requires maxLength >= 1. With maxLength 0 the Go loop never ends; the bot always passes 2000.
- An all-white-space reply of more than 2000 bytes splits into no pieces, so nothing is sent. The model follows the code.
- The ticket system, slash-command registration, `clearCommand` and the link reader's HTML extraction are outside this core.

## Findings

| source | as written | input that shows it | evidently intended | confidence | as-written member | corrected member |
|---|---|---|---|---|---|---|
| main.go:193-214 | pieces are cut to at most 2000 bytes, then every piece but the last gets "\n\n" appended, so a message can reach 2002 bytes and go over Discord's limit | 4000 bytes with no separator: the first message is 2000 bytes + "\n\n" = 2002 | every message handed to the transport is at most 2000 bytes | not executed | Segmenter.OversizedChunkExample | Segmenter.OutgoingFixedFits |

The corrected sender (`Segmenter.SendLongMessageFixed`) cuts pieces at 1998
bytes. `Inbound.DeliverReply` uses it. `Segmenter.SendLongMessage` keeps the
behaviour as written.
