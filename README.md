# Eveline's agent core, modelled in Dafny

Eveline is a personal assistant. Its backend answers a chat message with
`AIService.get_chat_response_stream`, a ReAct loop with at most ten steps. Each
step goes as follows:

1. The loop sends the context to the chat completions API.
2. It streams the reply as a "thought" record.
3. It looks in the reply for a JSON tool call.
4. The call passes a loop detector, then a reflection layer (a schema validator).
5. If it passes both, the tool runs. The tool's cleaned result goes back to the
   model as an "OBSERVATION".
6. A reply without a call is the final answer. It goes into the short-term memory
   and closes the stream.

Around the loop sit several services:

- a context manager, which fits the prompt, the system state, a summary of old
  history and the newest history into a token budget;
- the memory service: a conversation log, preferences and learned facts;
- a TTL search cache;
- the saved browser sessions of the account service.

The project models all of these.

| file | module | models |
|---|---|---|
| `ai_service.dfy` | `Agent` | the loop: call extraction, anti-chatter nudge, gates, dispatch, final answer, the whole turn (`Turn`), and its imperative form `RunTurn` |
| `ai_cleaning.dfy` | `Cleaning` | `_clean_context` and `_clean_result_for_ai` |
| `loop_detector.dfy` | `LoopDetection` | `LoopDetector` (a class over its history and counts) and its pure step `CheckStep` |
| `reflection_layer.dfy` | `Reflection` | `ReflectionLayer.validate`, the schemas, `_is_valid_url`, `_is_redundant` |
| `context_manager.dfy` | `ContextBuilder` | `build_optimized_context`, `_format_message`, `_summarize_old_messages`, `_count_tokens` |
| `memory_service.dfy` | `Memory` | `MemoryService` as a `MemoryStore` object whose three fields are the three JSON files |
| `search_cache.dfy` | `Cache` | `SearchCache` as a class over its dictionary |
| `account_service.dfy` | `Accounts` | `AccountService` over a directory map |
| `json.dfy`, `text.dfy`, `messages.dfy`, `wrappers.dfy` | helpers | `json.loads` with Python's truthiness and `str()`, the Python string operations the core uses, the message record, and `Option` (the validator's `Result` is declared in `reflection_layer.dfy`) |

### How the loop is modelled

The loop is stated twice:

- as a function, `Turn`, built from `StepEffect`, `Run` and `Start`;
- as methods over a live `LoopDetector` and a live `MemoryStore`: `Gate`, `TakeStep`,
  `Loop` and `RunTurn`.

Each method is proved to produce exactly what the functions produce.

The environment is an input:

- `replies[i]` is what the API returns at step `i`: an HTTP status and content, or a
  failed request;
- `outcomes[i]` is what the tool service produces: an output string, or an exception
  message;
- `elapsed[i]` is the number of seconds since the turn started.

### Where this model follows the code over its description

- `prioritized_history[:-len(added_history)]` is the empty list when no history
  message fits. A summary added in that case therefore summarises nothing. It says
  the fallback sentence even when old history exists (`Dropped`,
  `NothingKeptSummarisesNothing`).
- The loop detector flags an A-B-A cycle only once it has three entries of history.
  A-B-A from a fresh detector is accepted (`FreshABANotFlagged`).
- The `min_query_length` of `image_search` and `video_search`, the `max_code_length`
  of `sandbox` and the `valid_types` of `osint_lookup` are declared in the schemas but
  never checked (`DeclaredLimitsUnchecked`).
- `video_search` passes validation but has no branch in the dispatch chain. It always
  ends in "not implemented" (`OnlyVideoSearchUndispatched`).
- The schemas have no entry for `get_time`, `vision_analyze` and `monitor_live_feed`,
  so the validator rejects them as unknown tools. Their dispatch branches are
  unreachable (`DispatchedToolsWithoutSchema`).

## Model

| member | source | states |
|---|---|---|
| LoopDetection.BoundedAppend | backend/app/services/loop_detector.py:56 | appending to the bounded history keeps the call and drops the oldest entries so that at most `max_history` remain |
| LoopDetection.LoopDetector.constructor | backend/app/services/loop_detector.py:14-17 | a new detector has an empty history, no counts and the given limits |
| LoopDetection.LoopDetector.Check | backend/app/services/loop_detector.py:19-57 | the verdict and the new history and counts are those of the pure step `CheckStep` on the old state; the history stays within `max_history` |
| LoopDetection.LoopDetector.Reset | backend/app/services/loop_detector.py:62-65 | history and counts are emptied |
| LoopDetection.CheckKeepsBound | backend/app/services/loop_detector.py:29-57 | the history never outgrows `max_history`; a cycle verdict changes nothing; a repetition verdict leaves the history as it was; an accepted call becomes the newest history entry |
| LoopDetection.AcceptedAtMostMaxRepeats | backend/app/services/loop_detector.py:47-57 | over any sequence of calls a given call is accepted at most `max_repeats` times, counting its earlier acceptances |
| LoopDetection.NeverAcceptedPastLimit | backend/app/services/loop_detector.py:47-53 | once a call's count is past `max_repeats` it is never accepted again, and its count never falls |
| LoopDetection.AcceptStep | backend/app/services/loop_detector.py:47-57 | a call outside the cycle window, under its repeat limit, with room in the history, is accepted: appended and counted once more |
| LoopDetection.FreshABANotFlagged | backend/app/services/loop_detector.py:29-45 | from a fresh detector (12, 2), A then B then A are all accepted |
| LoopDetection.ImmediateRepeatFlagged | backend/app/services/loop_detector.py:29-32 | a call accepted and then sent again is flagged IMMEDIATE_REPEAT with the state unchanged |
| LoopDetection.ABABFlagged | backend/app/services/loop_detector.py:34-39 | from a fresh detector, A, B, A, B: the fourth call is flagged SHORT_CYCLE |
| LoopDetection.ThirdOccurrenceRepeated | backend/app/services/loop_detector.py:47-53 | cycling five distinct calls, the eleventh call (the third A) is rejected as REPEATED_3_TIMES |
| Json.ToMapHolds | backend/app/services/ai_service.py:257 | a decoded object with distinct keys maps each key to its value exactly |
| Json.KeyOrderIrrelevant | backend/app/services/loop_detector.py:27 | two calls with the same members in another order are the same signature, as `json.dumps(sort_keys=True)` makes them |
| Json.SingleCloserIsFlat | backend/app/services/ai_service.py:255-257 | a span ending at its first '}' decodes, if at all, to an object none of whose values holds an object |
| Cleaning.CleanedIsTidy | backend/app/services/ai_service.py:451-464 | the cleaned context has no empty message and no two neighbours with the same role, and is no longer than the input |
| Cleaning.TidyUnchanged | backend/app/services/ai_service.py:451-464 | a context that is already tidy comes back unchanged |
| Cleaning.CleanIdempotent | backend/app/services/ai_service.py:451-464 | cleaning twice is cleaning once |
| Cleaning.CleanContext | backend/app/services/ai_service.py:451-464 | the loop's result is `Cleaned(messages)`: empty contents dropped, same-role neighbours merged with a blank line |
| Cleaning.DataUriEnd | backend/app/services/ai_service.py:470 | a match starts with "data:image/" and ends after where it starts |
| Cleaning.NoImageUnchanged | backend/app/services/ai_service.py:470-471 | text without "data:image/" is left as it is |
| Cleaning.ImageReplaced | backend/app/services/ai_service.py:470-471 | a data URI (letters, ";base64,", the longest run of base64 characters, then up to two '=') is matched up to the end of its padding, replaced by "[B64_IMAGE_DATA]", and the scan goes on right after the padding |
| Cleaning.CleanResultBounded | backend/app/services/ai_service.py:466-474 | the result is at most 12000 characters plus the truncation marker; a longer cleaned text keeps its first 12000 characters and ends with the marker; a shorter one is returned whole |
| Agent.SpanShape | backend/app/services/ai_service.py:255 | the extracted span runs from the first '{' to the first '}' after it |
| Agent.InferTool | backend/app/services/ai_service.py:259-264 | a call with a "tool" is unchanged; a call without one gains "tool" exactly when its "action" is a notes action or a wallet action, and then gains "manage_notes" or "manage_wallet" respectively; no other member is added, removed or changed |
| Agent.CallIsFlat | backend/app/services/ai_service.py:253-266 | a parsed call never holds a nested object, because the span stops at the first '}' |
| Agent.AnyContains | backend/app/services/ai_service.py:273 | true exactly when some word occurs in the text |
| Agent.FirstTruthy | backend/app/services/ai_service.py:280 | the text is `str()` of the value under the first key (query, url, action, command in that order) whose value is truthy, and "Processing..." when none is |
| Agent.DropThought | backend/app/services/ai_service.py:427 | a text opening with "Thought:" in any letter case loses everything up to and with the first line break after it; a text not opening with it, or without a line break after it, is kept whole; the result is always a suffix |
| Agent.FinalTextClean | backend/app/services/ai_service.py:420-427 | the final answer never contains "Final Answer:" and has no surrounding white space |
| Agent.PlainReplyIsAnswer | backend/app/services/ai_service.py:420-427 | a reply without the marker or a thought line is its own answer, stripped |
| Agent.Execute | backend/app/services/ai_service.py:298-406 | the step reports success exactly when the tool has a branch and either its action has no case (the output is then empty) or the service returned (the output is then the service's own) |
| Agent.AcceptedCallRunsNothing | backend/app/services/ai_service.py:320-367 | of the calls validation accepts, exactly the calendar calls to "remove" and "update" reach a branch without a case for their action; every accepted notes and wallet action has one |
| Agent.OnlyVideoSearchUndispatched | backend/app/services/ai_service.py:300-402 | of the tools validation knows, only `video_search` reaches the "not implemented" branch |
| Agent.StepEffect | backend/app/services/ai_service.py:226-248 | a step adds one well-formed chunk of records; it starts with a thought exactly when the clock is within 60 s and the API answered 200 |
| Agent.ReplyEffect | backend/app/services/ai_service.py:250-444 | a reply adds its thought first and then a well-formed chunk |
| Agent.GateEffect | backend/app/services/ai_service.py:278-293 | the gates add the thought and a well-formed chunk, and never give an answer |
| Agent.RunEffect | backend/app/services/ai_service.py:295-419 | a run adds exactly the thought, step_start and step_end, and the stream goes on |
| Agent.ChunkThoughts | backend/app/services/ai_service.py:250 | a step streams at most one thought, and exactly one when the stream goes on |
| Agent.ApplyShaped | backend/app/services/ai_service.py:226-444 | a step taken on a well-shaped, unfinished stream keeps it well-shaped and adds at most one thought, exactly one when the stream goes on |
| Agent.RunShaped | backend/app/services/ai_service.py:226-444 | the remaining steps keep the stream well-shaped and never stream more than ten thoughts; a stream still open after them has exactly ten |
| Agent.TurnShaped | backend/app/services/ai_service.py:122-448 | every stream starts with the one info record; a final or error record comes only last, and exactly when the stream ended; each step_start follows a thought and is closed by its step_end; at most ten replies are used; a stream without a final or error record had a key and used all ten steps |
| Agent.MissingKeyShaped | backend/app/services/ai_service.py:122-126 | without an API key the stream is the info record and the error, nothing else |
| Agent.TimeoutEndsStep | backend/app/services/ai_service.py:227-229 | past 60 seconds the step is the timeout text as a final record; no answer is stored |
| Agent.FailedRequestEndsStep | backend/app/services/ai_service.py:239-248 | a failed request or a non-200 status ends the stream with a single error record |
| Agent.AnnouncementNudged | backend/app/services/ai_service.py:268-276 | an announcement without a call streams only its thought, goes back into the context followed by the alert, leaves the detector alone, and is never taken as the answer |
| Agent.AnswerExactly | backend/app/services/ai_service.py:420-444 | a reply gives an answer exactly when it is neither a bare announcement nor a call with a tool; the answer is the reply's final text |
| Agent.FlaggedCallSkipsValidation | backend/app/services/ai_service.py:282-287 | a call the detector flags streams only its thought; the reply goes back followed by the loop note with the detector's reason; the detector keeps the state its check left; the step does not depend on the context or the tool, so the call is neither validated nor run |
| Agent.RejectedCallNotRun | backend/app/services/ai_service.py:289-293 | a call the validator rejects streams only its thought and is not run (the tool's outcome does not matter); the reply goes back followed by the validation error with its reason and suggestion; the detector still counts the call |
| Agent.OnlyAcceptedCallsRun | backend/app/services/ai_service.py:282-296 | a call is run only when the detector lets it through and the validator accepts it; it then names a known tool, whose step_start shows the upper-cased name |
| Agent.ToolRunObserved | backend/app/services/ai_service.py:398-419 | the model sees the step's output, cleaned; success exactly when the tool has a branch and either its action has no case (output empty) or the service returned (output the service's) |
| Agent.Gate | backend/app/services/ai_service.py:282-419 | on a live detector, the gates do what `GateEffect` says, and the detector ends in its new state |
| Agent.TakeStep | backend/app/services/ai_service.py:226-444 | on a live detector, one pass of the loop body does what `StepEffect` says |
| Agent.Loop | backend/app/services/ai_service.py:224-444 | the imperative loop streams exactly the records of `Run` from a fresh detector and gives its answer |
| Agent.RunTurn | backend/app/services/ai_service.py:94-444 | the records streamed are those of `Turn`; the memory log gains the exchange (with the message's entities) exactly when there is an answer; preferences and facts do not change |
| Reflection.Lookup | backend/app/services/reflection_layer.py:77-83 | a name has a schema exactly when it is one of the eleven tool names, and the schema found carries that name |
| Reflection.LookupName | backend/app/services/reflection_layer.py:15-60 | every tool's name finds that tool's schema |
| Reflection.LastN | backend/app/services/reflection_layer.py:181 | `[-8:]` is the last eight messages, or all of them when there are fewer |
| Reflection.FirstMissing | backend/app/services/reflection_layer.py:85-94 | the parameter reported is required and absent or falsy, and every required parameter declared before it is present and truthy; none is reported only when all are present and truthy |
| Reflection.AnyIn | backend/app/services/reflection_layer.py:129 | the dangerous-pattern test is true exactly when some pattern occurs |
| Reflection.ValidExactlyWhenAcceptable | backend/app/services/reflection_layer.py:62-155 | `validate` says valid exactly when the call names a known tool, has every required parameter, passes the tool's own check and is not a redundant search |
| Reflection.ToolAcceptsExactly | backend/app/services/reflection_layer.py:85-155 | the per-tool part says valid exactly when the requirements and the tool's checks pass |
| Reflection.CommandAccepts | backend/app/services/reflection_layer.py:125-134 | a command passes exactly when no dangerous pattern occurs in it |
| Reflection.ValidCallIsComplete | backend/app/services/reflection_layer.py:66-94 | a valid call names a known tool and has all its required parameters, truthy |
| Reflection.UnknownToolRejected | backend/app/services/reflection_layer.py:77-83 | a name outside the schemas is rejected as an unknown tool |
| Reflection.DispatchedToolsWithoutSchema | backend/app/services/reflection_layer.py:15-60 | `get_time`, `vision_analyze` and `monitor_live_feed` have no schema |
| Reflection.KnownToolChecked | backend/app/services/reflection_layer.py:77-155 | for a known tool, `validate` is that tool's check |
| Reflection.WeatherNeedsLocation | backend/app/services/reflection_layer.py:57-59 | `get_weather` without "location" is rejected for the missing parameter |
| Reflection.RequirementsMet | backend/app/services/reflection_layer.py:85-155 | with all requirements met, the verdict is the tool check, then the redundancy check |
| Reflection.SearchLength | backend/app/services/reflection_layer.py:97-114 | a search query is too short under 3 characters, too long over 200, valid otherwise |
| Reflection.SearchRedundancy | backend/app/services/reflection_layer.py:170-189 | a search is redundant exactly when "input: " plus the lower-cased query occurs in one of the last eight messages, lower-cased |
| Reflection.SearchVerdict | backend/app/services/reflection_layer.py:97-155 | the full verdict for a search call, case by case |
| Reflection.ShortQueryRejected | backend/app/services/reflection_layer.py:102-107 | the query "ok" is rejected as two characters short of three |
| Reflection.TooShortText | backend/app/services/reflection_layer.py:105-106 | the exact reason and suggestion texts for a 2-character query |
| Reflection.QueryAccepted | backend/app/services/reflection_layer.py:97-155 | an ordinary query with no history is valid |
| Reflection.CommandCheck | backend/app/services/reflection_layer.py:125-134 | the command check passes exactly when no dangerous pattern occurs, and otherwise names the command |
| Reflection.CommandVerdict | backend/app/services/reflection_layer.py:125-134 | the full verdict for a command call |
| Reflection.RemovalRejected | backend/app/services/reflection_layer.py:29-32 | any command starting with "rm -rf" is rejected as dangerous |
| Reflection.ActionVerdict | backend/app/services/reflection_layer.py:136-145 | a notes, wallet or calendar call is valid exactly when its action is listed, and otherwise names the allowed ones |
| Reflection.DeclaredLimitsUnchecked | backend/app/services/reflection_layer.py:25-60 | image, video, sandbox, OSINT and weather calls with their parameters are valid whatever the declared limits |
| Reflection.ShortImageQueryAccepted | backend/app/services/reflection_layer.py:45-48 | a one-letter image query is accepted although the schema declares a minimum of two |
| Reflection.ContextOnlyMattersForSearch | backend/app/services/reflection_layer.py:170-176 | the context affects the verdict only for searches |
| Reflection.UrlHasScheme | backend/app/services/reflection_layer.py:157-168 | an accepted URL starts with http:// or https://, in any case |
| Reflection.DomainUrlAccepted | backend/app/services/reflection_layer.py:161-168 | "https://example.com" is accepted |
| Reflection.LocalUrlAccepted | backend/app/services/reflection_layer.py:161-168 | "http://localhost:8000/api" is accepted |
| Reflection.OtherSchemeRejected | backend/app/services/reflection_layer.py:161-168 | "ftp://example.com" is rejected |
| Reflection.SchemeAloneRejected | backend/app/services/reflection_layer.py:161-168 | "http://" alone is rejected |
| ContextBuilder.Tokens | backend/app/services/context_manager.py:95-97 | the count is the length divided by four, rounded down |
| ContextBuilder.FormatDrops | backend/app/services/context_manager.py:100-119 | an entry is dropped exactly when it has neither role and content nor a recognised type (an agent step counts only with a dict text) |
| ContextBuilder.FormatRoles | backend/app/services/context_manager.py:106-118 | typed entries become user or assistant messages; an agent step shows "[TOOL] " and at most 150 characters of output |
| ContextBuilder.PrioritizedAppend | backend/app/services/context_manager.py:71 | entries are normalised one by one: the filter distributes over concatenation |
| ContextBuilder.Kept | backend/app/services/context_manager.py:73-78 | the newest messages kept fit the budget, and one more would not |
| ContextBuilder.KeptIsLongestFit | backend/app/services/context_manager.py:73-78 | a suffix of the history fits the budget exactly when it is no longer than the part kept |
| ContextBuilder.KeepNewest | backend/app/services/context_manager.py:67-78 | the loop keeps exactly the longest suffix that fits, in order, and its token total |
| ContextBuilder.SystemPart | backend/app/services/context_manager.py:38-56 | the prompt comes first, then the state message when it fits a fifth of the limit, with the tokens counted |
| ContextBuilder.SummaryFallbackExactly | backend/app/services/context_manager.py:129-131 | the fallback sentence is used exactly when no keyword was found |
| ContextBuilder.NamedTopicsFacts | backend/app/services/context_manager.py:121-130 | between one and five topics are named when some are found; each is a keyword some message mentions; with five or fewer found, all are named |
| ContextBuilder.SummaryNamesFoundTopics | backend/app/services/context_manager.py:121-131 | the same facts for the summary's own seven keywords |
| ContextBuilder.Summarize | backend/app/services/context_manager.py:121-131 | the imperative scan gives the summary `SummaryOf` the keyword facts are about |
| ContextBuilder.BuildOptimizedContext | backend/app/services/context_manager.py:28-93 | the context built is `Layout`: prompt, optional summary, optional state, kept history, query |
| ContextBuilder.ContextFrame | backend/app/services/context_manager.py:42-90 | the context starts with the system prompt and ends with the user query |
| ContextBuilder.ContextHistory | backend/app/services/context_manager.py:67-89 | the kept history sits just before the query, unchanged and in order |
| ContextBuilder.SummaryBeforeState | backend/app/services/context_manager.py:80-90 | the summary is inserted at position 1, before the state message, and the length is counted part by part |
| ContextBuilder.NothingKeptSummarisesNothing | backend/app/services/context_manager.py:81-84 | when no history fits, the summary is of no messages and says the fallback sentence |
| Memory.ExtractEntities | backend/app/services/memory_service.py:34-49 | a keyword is extracted exactly when it occurs in the lower-cased message |
| Memory.EntitiesIgnoreCase | backend/app/services/memory_service.py:47-48 | extraction does not depend on letter case |
| Memory.Window | backend/app/services/memory_service.py:82 | `[-limit:]` keeps the newest `limit` entries; 0 keeps all; a negative limit drops that many from the front |
| Memory.AppendSnippetFacts | backend/app/services/memory_service.py:70-82 | the new entry is last, the log never exceeds 50 entries, and the others are the newest of the old log, in order |
| Memory.AppendSnippetKeepsShortLog | backend/app/services/memory_service.py:79-82 | below 50 entries nothing is dropped |
| Memory.Flatten | backend/app/services/memory_service.py:105-108 | the collected entities are exactly those of the entries |
| Memory.MostCommon | backend/app/services/memory_service.py:110-115 | `most_common(n)` gives `n` entries, or all, taken from the candidates |
| Memory.MostCommonFacts | backend/app/services/memory_service.py:110-115 | the topics are distinct, in non-increasing frequency, and none left out is more frequent than one taken |
| Memory.RecentTopicsFacts | backend/app/services/memory_service.py:91-115 | at most five distinct recent topics, each from the window, most frequent first, none left out more frequent |
| Memory.Matching | backend/app/services/memory_service.py:133-142 | an entry matches exactly when the query occurs in its text or one of its entities occurs in the query |
| Memory.SearchResults | backend/app/services/memory_service.py:117-144 | the results are the first matches, newest first, at most `limit` of them |
| Memory.SearchResultsFacts | backend/app/services/memory_service.py:117-144 | every result matches, and when fewer than the limit are returned every match is among them |
| Memory.NewestMatchFirst | backend/app/services/memory_service.py:137-142 | a matching newest entry is the first result |
| Memory.PrefPut | backend/app/services/memory_service.py:166-169 | a preference is replaced or added |
| Memory.PrefPutThenLookup | backend/app/services/memory_service.py:148-191 | a saved preference is read back; other keys are untouched |
| Memory.PrefPutOrder | backend/app/services/memory_service.py:166-169 | replacing keeps the key order; a new key goes last |
| Memory.AddFact | backend/app/services/memory_service.py:226-237 | the topic exists afterwards, and no other topic changes |
| Memory.AddFactFacts | backend/app/services/memory_service.py:226-237 | the fact is known afterwards, the topic's facts stay distinct, and the entry is appended exactly when the fact was new |
| Memory.AddFactIdempotent | backend/app/services/memory_service.py:235-237 | saving the same fact again changes nothing |
| Memory.FactsAbout | backend/app/services/memory_service.py:246-258 | the texts of the topic's facts, in order |
| Memory.ContextSummary | backend/app/services/memory_service.py:264-286 | the summary always starts with "MEMORY CONTEXT:" |
| Memory.NoContextExactly | backend/app/services/memory_service.py:283-286 | the "new conversation" text is given exactly when there are no topics and no preferences |
| Memory.MemoryStore.SaveConversationSnippet | backend/app/services/memory_service.py:53-89 | the log becomes `AppendSnippet` of the old log and the truncated entry; it stays within 50; the other files do not change |
| Memory.MemoryStore.GetRecentTopics | backend/app/services/memory_service.py:91-115 | the loop gives `RecentTopics` of the log |
| Memory.MemoryStore.SearchMemory | backend/app/services/memory_service.py:117-144 | the loop gives `SearchResults` of the log |
| Memory.MemoryStore.SavePreference | backend/app/services/memory_service.py:148-176 | the preference is stored and read back, nothing else changes |
| Memory.MemoryStore.SaveLearnedFact | backend/app/services/memory_service.py:209-244 | the facts become `AddFact` of the old ones, nothing else changes |
| Memory.MemoryStore.BuildContextSummary | backend/app/services/memory_service.py:264-286 | the summary of the ten-entry recent topics and the preferences |
| Cache.KeyIgnoresCase | backend/app/services/search_cache.py:17 | queries differing in letter case share a key |
| Cache.KeyIgnoresOuterSpace | backend/app/services/search_cache.py:17 | queries differing in surrounding white space share a key |
| Cache.GetOutcome | backend/app/services/search_cache.py:15-29 | results come back exactly for a present, unexpired key; an expired key is deleted and nothing else is |
| Cache.FirstMin | backend/app/services/search_cache.py:41 | `min` picks the first entry with the smallest timestamp |
| Cache.StoreFacts | backend/app/services/search_cache.py:34-35 | storing a key keeps the dictionary consistent and grows it by at most one, past the capacity only with a new key |
| Cache.SetKeepsWellFormed | backend/app/services/search_cache.py:32-45 | the cache never holds more than 100 entries after `set` |
| Cache.SetEvictsOldest | backend/app/services/search_cache.py:38-42 | on overflow exactly one entry, one with the oldest timestamp, is removed |
| Cache.SetThenGet | backend/app/services/search_cache.py:32-35 | results set under a query are returned for any query with the same key within 300 seconds |
| Cache.SearchCache.constructor | backend/app/services/search_cache.py:11 | the cache starts empty |
| Cache.SearchCache.Get | backend/app/services/search_cache.py:15-29 | the method returns `Lookup` and leaves the state `AfterGet` |
| Cache.SearchCache.Set | backend/app/services/search_cache.py:32-45 | the method leaves the state `AfterSet` |
| Cache.SearchCache.Clear | backend/app/services/search_cache.py:48-50 | the cache is emptied |
| Cache.OldestKey | backend/app/services/search_cache.py:41 | the loop finds the first position of the smallest timestamp |
| Accounts.Sanitize | backend/app/services/account_service.py:28-29 | the name keeps its length and holds no ':' or '/' |
| Accounts.FilenameShape | backend/app/services/account_service.py:21-29 | every file name ends with ".json" and holds no ':' or '/' |
| Accounts.BareDomainFilename | backend/app/services/account_service.py:25-29 | a bare domain is used character by character, with ':' and '/' replaced by '_' |
| Accounts.ListedNameRoundTrip | backend/app/services/account_service.py:21-29 | the name listed for a file maps back to that same file |
| Accounts.AccountNamesExactly | backend/app/services/account_service.py:62-64 | a name is listed exactly when its ".json" file is in the directory |
| Accounts.SessionDirectory.SaveSession | backend/app/services/account_service.py:32-45 | the state is written to the site's file, replacing any older one |
| Accounts.SessionDirectory.GetSessionPath | backend/app/services/account_service.py:48-55 | the site's file is returned exactly when it exists |
| Accounts.SessionDirectory.DeleteSession | backend/app/services/account_service.py:68-75 | the site's file is removed, and true is returned exactly when there was one |
| Accounts.SessionDirectory.ListAccounts | backend/app/services/account_service.py:58-65 | the loop lists each ".json" file without its suffix, in listing order, and exactly those |
| Accounts.SavedSessionIsListed | backend/app/services/account_service.py:58-65 | a saved site is listed, and its listed name finds its file again |

## Left out

- The network, the database and the file system are not modelled. The API call, the
  tool services (search, scraping, sandbox, notes, wallet, calendar, image search,
  vision, OSINT, realtime, time, weather) and their results are inputs: one reply,
  one tool outcome and one elapsed time per step.
- History persistence is not modelled: `HistoryService` saving the user message and
  the answer, and fetching the last 15 messages. The history is a parameter.
- The vector memory is not modelled: its search before the loop and its additions
  after an answer, a command or an image analysis. `vector_memory.py` is not part of
  this model.
- The warm-up statistics are a parameter (`systemInfo`). These are the accounts
  list, the timestamp, the recent topics, the memory summary and the
  `CONNECTED_WALLET:` scan of the legacy context.
- The long system prompt is also a parameter.
- `analyze_content` returns a constant and is not modelled. Neither are the lazily
  created singletons `get_vector_memory` and `get_context_manager`.
- `search_count` and `last_tool_call` are set but never read, so they are not
  modelled.
- The JSON body of the API response is not modelled. A missing `choices` entry or an
  unreadable body is one of the failed requests (`RequestFailed`).
- The model's reply content is taken to be a string.
- Tool results are taken to be strings. `_clean_result_for_ai` is modelled on strings,
  so its `str(result)` path for a non-string result is left out.
- Cleaning.CleanContext: the source merges contents into the dict of the previous
  message in place, so the caller's dict objects change too. The model works on
  values, so this aliasing is not captured.
- The loop detector's `except` path is left out: `json.dumps` of a decoded call
  cannot fail.
- LoopDetection.CheckStep: a call's signature is the decoded map itself, not the
  text `json.dumps(call, sort_keys=True)` prints. Key order does not matter to
  either. The two differ for floats only: the model keeps a float as the literal
  written, so two calls that differ only in `1.0` against `1.00`, or `1e2` against
  `100.0`, are different signatures in the model. The source prints them as the same
  text, and flags the second call (for instance IMMEDIATE_REPEAT) where the model
  accepts it.
- Json.Falsy: a non-zero float literal too small for a double, such as `1e-400`, is
  0.0 and falsy in Python but truthy in the model. A required parameter with such a
  value passes `FirstMissing` in the model.
- `json.loads` is modelled by a parser that keeps integers as their value and floats
  as the literal written. Floats are never rounded to doubles. JSON with lone
  surrogate escapes is rejected, because a Dafny `char` cannot hold one.
- Json.PyStr: a float is printed as the literal written, where Python prints the
  shortest text of the double (`1.00` and `1e2` print as `1.0` and `100.0`). Inside
  a list or dict, `repr` of a string is modelled for the quote choice, the backslash
  escapes and the characters up to U+00FF that Python does not count as printable.
  Characters above U+00FF that Python does not count as printable are shown as they
  are, where Python escapes them. An object with a repeated key is printed with every
  member, where Python's dict keeps one.
- ContextBuilder.FormatMessage: an entry with "role" and "content" becomes a message
  holding `str()` of each value. The source passes the values through unchanged, so
  it differs when one of them is not a string. With a `null`, number or boolean
  content, `_count_tokens` raises TypeError before the loop's `try`, and the stream
  stops after the info record. A falsy list or dict content is dropped by
  `_clean_context` instead of being sent as "[]" or "{}". A non-empty list or dict
  content is counted by its number of elements. It then either reaches the API as
  JSON or makes a later string operation raise, such as the merge in
  `_clean_context`. The model's messages hold text only.
- ContextBuilder.BuildOptimizedContext: for the reason above, the context is the
  source's only for history entries whose role and content are strings.
- Python's `set` iteration order depends on string hashing. It decides the order of
  `extract_entities` results and of the summary topics. The model uses the declared
  keyword order instead.
- Memory.ExtractEntities: the model does not prove that the result is free of
  duplicates.
- Memory.MostCommon: ties are broken by first occurrence, as `Counter` does. No lemma
  states that order.
- `lower()` and `upper()` are modelled for ASCII letters only: other characters are
  left as they are. `isspace()` is modelled for Python's full white-space set.
- Reflection.IsValidUrl: `\d` and the case-insensitive `[A-Z]` of the URL pattern
  are modelled for ASCII only. Python's `re` also lets `\d` match the other Unicode
  decimal digits, and lets `[A-Z]` match letters that fold to ASCII, such as the
  Kelvin sign.
- `_count_tokens` uses only the `len(text) // 4` fallback. The tiktoken encoder is
  not modelled.
- `max_tokens * 0.2` is compared exactly as `5 * tokens < max_tokens`, without
  floating-point rounding.
- `urlparse(...).netloc` is a parameter of the account service. The sessions
  directory is a map from file name to stored state, and the order `os.listdir`
  reports is a parameter.
- Corrupt or missing memory files, which the source reads as empty, are not
  modelled: each file is a field of the store.
- The cache's fallback `clear()` on a failing `min` is not modelled, because `min`
  over a non-empty dictionary of numbers cannot fail.
