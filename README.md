# Feishu chat bot: message handling core

This project is a Dafny model of the message-handling core of a Feishu (Lark)
chat bot that answers users through a chat-completion service. It also
searches the web when the question calls for it.

A received message flows through these stages:

- **Entry point.** A nil-guarded entry point (`Handler`) hands the event to the
  receive handler.
- **Classification.** The receive handler classifies the chat type (group,
  private or other) and the message type (text, image or audio). It works out
  the session the message belongs to: the thread root if there is one, else
  the message itself. It trims the parsed text.
- **Chain.** It then runs a fixed chain of actions until one of them returns
  false. The actions, in order:
  1. deduplication;
  2. the mention gate;
  3. audio;
  4. empty message;
  5. `/read` page browsing;
  6. automatic web search;
  7. `/clear`;
  8. picture;
  9. `/roles`;
  10. `/help`;
  11. `/balance`;
  12. `/system` role play;
  13. the free-form message action.
- **Message action.** The free-form action works in several steps:
  - It first asks the completion service to classify the question as a JSON
    decision.
  - If the decision calls for the web, it:
    - fans searches out over up to ten queries, with per-search timeouts and a
      Custom Search → DuckDuckGo fallback;
    - collects the outcomes into a JSON context array;
    - asks again with that context, through a three-step retry ladder for
      empty replies.
  - It writes the exchange back to the session store and replies. The first
    exchange of a session is answered with a new-topic card instead of a reply.

The model covers:

- the session store;
- the configuration value rules;
- the search helpers (DuckDuckGo and Custom Search, both context builders);
- the event classifiers;
- every action of the chain;
- the chain itself.

The parts that work by changing state are imperative Dafny:

- the session store;
- the handler object, which holds:
  - the processed-message set;
  - the list of completion requests made;
  - the list of items sent;
- the loops: the config list parser, the key filter, the search scans, the
  fan-out and the collector.

Each method is proved equal to a specification function, and the properties
are proved about those functions.

The two long system prompts of the message action (the classifier's and the
one for answering with search results) are a `MessageFlow.Prompts` value. The
message flow is stated for any prompt texts, and the handler is built with the
bot's own texts, `MessageFlow.SourcePrompts`.

The outside world is passed in as oracles (`Environment.World`, `Web.Net`,
`Initialization.Lookups`):

- **Completion service.** Its reply to the n-th request depends on n and on the
  request.
- **Message delivery.** Whether the n-th sent item failed.
- **Search back ends.** HTML/JSON parsing, `%q` quoting, URL unescaping and
  the Han-script test.
- **Timeouts.** Whether a search outlives its per-search timeout.
- **Scheduler.** Which search outcomes reach the collector, and in what order.
- **Unmodelled helpers.** The helpers whose code is not part of this model:
  - `EitherTrimEqual`, `EitherCutPrefix` and `parseContent`;
  - the audio and picture actions;
  - `GetBalance` and `GetAllUniqueTags`.

Some behaviours worth stating plainly:

- **`max_tokens` clamp.** A suggested `max_tokens` that is unset or not
  positive becomes 1500, one of 1..99 becomes 500, 100..4000 is kept, and
  anything larger becomes 4000.
- **Search concurrency.** `LoadConfig` defaults the configured search
  concurrency to 4. The message action replaces a value that is not
  positive by 3 and caps it at 10.
- **Automatic search in the chain.** The automatic-search action is part of
  the chain, between `/read` and `/clear`.
- **Private-chat spelling.** A card names the private-chat handler
  "personal", while an event's chat type says "p2p".

All paths below are relative to the repository root's source tree.

## Model

| member | source | states |
|---|---|---|
| Services.SessionCache.constructor | code/services/sessionCache.go:14-18 | a new store holds no session |
| Services.SessionCache.GetMsg | code/services/sessionCache.go:20-24 | returns the stored history of a session, or the empty history for a session never stored; the store is unchanged |
| Services.SessionCache.SetMsg | code/services/sessionCache.go:26-30 | replaces the history of exactly one session; every other session reads back as before |
| Services.StoreLaws | code/services/sessionCache.go:20-30 | set-then-get returns the value set, the later of two sets on a key wins, a set on another key is invisible |
| Initialization.StringValue | code/initialization/config.go:95-101 | the looked-up string unless it is empty, then the default; empty only when both are |
| Initialization.IntValue | code/initialization/config.go:127-133 | the looked-up integer unless it is zero, then the default; zero only when both are |
| Initialization.BoolValue | code/initialization/config.go:135-140 | the looked-up boolean when the key is set, else the default |
| Initialization.StringArray | code/initialization/config.go:105-125 | the loop returns the environment's comma list (pieces trimmed, empty ones dropped) if it has an entry, else the file's list if non-empty, else the default |
| Initialization.CommaListClean | code/initialization/config.go:105-125 | every entry of a parsed comma list is non-empty, trimmed and comma-free |
| Initialization.CommaListRoundTrip | code/initialization/config.go:105-125 | joining clean keys with commas and parsing the result gives the keys back |
| Initialization.SkKeys | code/initialization/config.go:165-172 | the kept keys are exactly the input keys starting with "sk-" and no more of them |
| Initialization.SkKeysAppend | code/initialization/config.go:165-172 | the filter distributes over concatenation, so kept keys keep their input order |
| Initialization.FilterFormatKey | code/initialization/config.go:165-172 | the loop computes exactly the "sk-" filter |
| Initialization.LoadConfig | code/initialization/config.go:51-92 | each of these options is its lookup under its key with its default: bot name, keys, ports, HTTPS, API URL, provider, search options (top-k 3, timeouts 10 s and 6 s, concurrency 4, keywords), Custom Search credentials |
| Web.ReaderUrl | code/utils/web.go:21-34 | the address is read through the reader endpoint; a scheme-less address gets https, an http(s) one is kept |
| Web.FetchUrlAsPlainText | code/utils/web.go:20-54 | a blank address fails with "empty url" before any request; any other is fetched through the reader URL of its trimmed form |
| Web.TrimTo | code/utils/web.go:263-268 | a prefix of the input: all of it when the limit is non-positive or not exceeded, else exactly the limit |
| Web.StripTags | code/utils/web.go:277-281 | never longer than the input; text without '<' is unchanged |
| Web.SelectIsFilterPrefix | code/utils/web.go:97-122 | the scan's result is the first k elements of the filtered sequence, so it is empty iff nothing is accepted |
| Web.SelectAccepted | code/utils/web.go:97-122 | every element the scan keeps is accepted and comes from the input |
| Web.ScanKeep | code/utils/web.go:97-122 | the early-stopping scan loop keeps exactly the first k accepted converted entries |
| Web.TopKOrDefault | code/utils/web.go:68-74 | a non-positive top-k becomes 3; a positive one is kept |
| Web.WebSearch | code/utils/web.go:67-128 | the method computes the DuckDuckGo search: "empty query" for a blank query, the page error, "no results", or the first top-k outside links |
| Web.WebSearchResults | code/utils/web.go:67-128 | a successful search has a non-blank query and returns 1..top-k http(s) links none of which is on duckduckgo.com |
| Web.GoogleNum | code/utils/web.go:183-190 | the requested count is three per wanted result, capped at 10, also where `topK * 3` wraps around |
| Web.WrappedTripleLemma | code/utils/web.go:183-190 | where `topK * 3` overflows Go's int, the wrapped product is below topK, so the guard restores topK |
| Web.GoogleSearch | code/utils/web.go:166-231 | the method computes the Custom Search: "empty query", "google api key or cse id missing", the request error, "no results", or the first top-k items with a link |
| Web.GoogleSearchResults | code/utils/web.go:166-231 | a successful search had credentials and a non-blank query and returns 1..top-k results, each with a link |
| Web.ReadResult | code/utils/web.go:246-259 | a result yields an entry iff its page fetch succeeds; the entry keeps url and title; its content is the fetched page, cut to its first 4000 elements for Custom Search; its snippet is the result's for Custom Search and empty for DuckDuckGo |
| Web.FetchedItemsProperties | code/utils/web.go:246-259 | a builder finds nothing iff every page fetch failed; Custom Search contents are at most 4000 long |
| Web.CollectItems | code/utils/web.go:142-153 | the read loop keeps one entry per readable result, in result order |
| Web.BuildSearchContext | code/utils/web.go:131-154 | the search error, "no accessible results", or the marshalled entries of the readable results |
| Web.FetchedItemsInOrder | code/utils/web.go:142-148 | the entries for two stretches of results are the first stretch's followed by the second's, and one result gives its own entry iff its page can be read: the entries are the readable results in result order |
| Web.BuildGoogleSearchContext | code/utils/web.go:234-260 | the same for Custom Search, with snippets kept and contents cut to 4000 |
| Events.MessageOf | code/handlers/init.go:34-37 | a message exists iff the event, its body and its message are all present |
| Events.JudgeChatType | code/handlers/init.go:92-107 | group iff chat type "group", personal iff "p2p", otherwise (also for a broken event) other |
| Events.JudgeCardType | code/handlers/init.go:79-90 | group iff the card's chatType is "group", personal iff it is "personal" |
| Events.ChatAndCardSpellings | code/handlers/init.go:79-107 | an event with "personal" and a card with "p2p" are both classified as other chat |
| Events.JudgeMsgType | code/handlers/handler.go:44-54 | text, image and audio pass unchanged; any other type fails with "unknown message type: " and the type |
| Events.JudgeIfMentionMe | code/handlers/handler.go:147-153 | true iff there is exactly one mention and it names the bot |
| Events.MentionAlone | code/handlers/handler.go:147-153 | mentioning the bot among two or more mentions does not count |
| Events.SessionIdOf | code/handlers/handler.go:84-90 | the session is the non-empty thread root, else the message id |
| Events.SessionsOfThread | code/handlers/handler.go:84-90 | messages of one thread share a session; distinct unthreaded messages get distinct sessions |
| Actions.MentionPasses | code/handlers/event_common_action.go:48-61 | private chats pass, group messages pass iff they mention the bot alone, other chats stop |
| Actions.EmptySpec | code/handlers/event_common_action.go:66-74 | an empty question stops the chain with one prompt to the chat, and only then |
| Actions.CommandsLeaveSession | code/handlers/event_common_action.go:79-87 | clear (here), help (110-117), balance (184-196) and roles (201-216) stop the chain iff their token matches, send exactly one item then and none otherwise, never call the completion service and never write the session |
| Actions.RolePlaySpec | code/handlers/event_common_action.go:92-105 | "/system " resets the session to the one system message and sends the system card; anything else passes untouched |
| Actions.WebBrowseEffects | code/handlers/event_common_action.go:122-145 | "/read " always stops the chain and nothing else does; an unreadable page makes no request, writes nothing and sends one reply; otherwise exactly one request goes out over the history, the page and the prompt, and the session becomes that request's messages plus the answer exactly when the answer arrived |
| Actions.AutoSearchEffects | code/handlers/event_common_action.go:150-179 | a non-text message, a failed search or a failed completion lets the chain go on with nothing sent and the session untouched; otherwise one request goes out over the history, the context and the question, the session becomes its messages plus the answer, one reply carries the answer and the chain stops |
| MessageFlow.Min | code/handlers/event_msg_action.go:14-19 | the smaller of the two arguments |
| MessageFlow.ClassifyMessages | code/handlers/event_msg_action.go:40-58 | the classifier prompt is the JSON-decision system prompt, the whole history, then the question |
| MessageFlow.SearchQueries | code/handlers/event_msg_action.go:105-109 | the classifier's queries, or the question alone when it gave none |
| MessageFlow.ClampCount | code/handlers/event_msg_action.go:113-119 | the search count is 3 when not positive, at most 10, else as suggested |
| MessageFlow.ClampMaxTokens | code/handlers/event_msg_action.go:328-337 | the budget is 1500 when unset, 500 when below 100, at most 4000, else as suggested; always 100..4000 |
| MessageFlow.RetryBudget | code/handlers/event_msg_action.go:354-357 | the second attempt's budget is double the first, capped at 4000 |
| MessageFlow.LaunchedTasks | code/handlers/event_msg_action.go:152-156 | one search per non-blank query among the first n, with its trimmed text, in query order |
| MessageFlow.LaunchedCount | code/handlers/event_msg_action.go:152-156 | exactly as many searches as non-blank queries among the first n |
| MessageFlow.Timeout | code/handlers/event_msg_action.go:169-172 | the timeout in nanoseconds is always positive: configured seconds when positive and not overflowing, the default when the product in nanoseconds is not positive |
| MessageFlow.SearchContext | code/handlers/event_msg_action.go:190-198 | Custom Search when configured and successful, DuckDuckGo otherwise |
| MessageFlow.LaunchResults | code/handlers/event_msg_action.go:152-223 | one reported outcome per launched search |
| MessageFlow.FanOut | code/handlers/event_msg_action.go:122-156 | the launch loop over the first min(10, n) queries yields exactly the launched searches' outcomes, in launch order |
| MessageFlow.KeptPartsCount | code/handlers/event_msg_action.go:257-280 | the collector keeps exactly as many parts as there are successful non-blank outcomes |
| MessageFlow.KeptPartsAppend | code/handlers/event_msg_action.go:257-280 | parts follow arrival order |
| MessageFlow.Collect | code/handlers/event_msg_action.go:257-280 | the collector loop's parts are the fold over arrivals; successes count the parts, and successes plus failures count the arrivals |
| MessageFlow.ContextParts | code/handlers/event_msg_action.go:298-304 | never empty: the kept parts, or the single placeholder when none |
| MessageFlow.ContextPartsBound | code/handlers/event_msg_action.go:257-304 | for any arrival stream drawn from the launched outcomes, at most one part per launched search and at least one part overall |
| MessageFlow.KeptPerLaunched | code/handlers/event_msg_action.go:122-304 | whatever the timing of the searches, the collector keeps at most one part per launched search, so at most one per non-blank query among the first ten |
| MessageFlow.ContextJson | code/handlers/event_msg_action.go:306-320 | the comma-joined, bracketed parts when they parse as JSON, and the safe default exactly when they do not |
| MessageFlow.WebMessages | code/handlers/event_msg_action.go:322-325 | the second prompt is the history, the browsing system prompt and the question with its context |
| MessageFlow.RetryLadder | code/handlers/event_msg_action.go:340-394 | one to three requests (prompt at budget, prompt at retry budget, short prompt at 2000); every earlier reply was blank; a returned reply is non-blank; each failure has its own text |
| MessageFlow.Conclude | code/handlers/event_msg_action.go:395-409 | the final history is stored; a two-message history gets a new-topic card and stops; otherwise the answer is replied and the chain goes on iff it was delivered |
| MessageFlow.MessageOutcome | code/handlers/event_msg_action.go:24-515 | one classification request comes first, then at most three more; a write-back is the old history plus the question and one answer; a run that writes nothing fails with one reply; the first exchange of a session is answered by a new-topic card and stops, later ones by a reply carrying the stored answer |
| MessageFlow.JsonFallbackEndsWell | code/handlers/event_msg_action.go:65-92 | an undecodable decision leads to exactly one plain request over the history and the question; its reply is stored as returned exactly when that request succeeds |
| MessageFlow.WebPathEndsWell | code/handlers/event_msg_action.go:102-410 | the search path makes only its retry ladder's requests and stores an assistant message with the answer's text exactly when the ladder yields a non-blank answer |
| MessageFlow.AnswerFallbackEndsWell | code/handlers/event_msg_action.go:412-497 | with neither search nor answer, the retry ladder's requests are made and its reply is stored as returned exactly when it yields one |
| MessageFlow.MessageRoutes | code/handlers/event_msg_action.go:52-515 | a failed classification sends one failure reply and stores nothing; the other routes make exactly the requests and store exactly the answer described for them, and a direct answer makes no further request |
| Handlers.PipelineOrder | code/handlers/handler.go:113-127 | thirteen distinct actions, deduplication first, message action last, automatic search before clear, help, balance and role play |
| Handlers.InfoOf | code/handlers/handler.go:92-105 | the action input carries the thread session and the space-trimmed parsed text |
| Handlers.MessageHandler.constructor | code/handlers/handler.go:137-145 | a new handler has an empty store, nothing processed, requested or sent, and asks with the two system prompts of the message action |
| Handlers.MessageHandler.ProcessedUnique | code/handlers/event_common_action.go:37-43 | passes iff the message id was not processed before; the id is processed afterwards |
| Handlers.DuplicateRejected | code/handlers/event_common_action.go:37-43 | the same message id presented twice is refused the second time |
| Handlers.MessageHandler.Empty | code/handlers/event_common_action.go:66-74 | result and items sent are those of the empty-message specification |
| Handlers.MessageHandler.Clear | code/handlers/event_common_action.go:79-87 | result and items sent are those of the clear specification |
| Handlers.MessageHandler.RolePlay | code/handlers/event_common_action.go:92-105 | result, items sent and new session map are those of the role-play specification |
| Handlers.MessageHandler.Help | code/handlers/event_common_action.go:110-117 | result and items sent are those of the help specification |
| Handlers.MessageHandler.WebBrowse | code/handlers/event_common_action.go:122-145 | result, requests, items sent and new session map are those of the browsing specification |
| Handlers.MessageHandler.AutoSearch | code/handlers/event_common_action.go:150-179 | result, requests, items sent and new session map are those of the automatic-search specification |
| Handlers.MessageHandler.Balance | code/handlers/event_common_action.go:184-196 | result and items sent are those of the balance specification |
| Handlers.MessageHandler.RoleList | code/handlers/event_common_action.go:201-216 | result and items sent are those of the roles specification |
| Handlers.MessageHandler.Ladder | code/handlers/event_msg_action.go:340-394 | the requests made and the outcome are those of the retry ladder |
| Handlers.MessageHandler.WriteBack | code/handlers/event_msg_action.go:395-409 | stores the final history for the session and sends what the common ending prescribes |
| Handlers.MessageHandler.GatherContext | code/handlers/event_msg_action.go:122-320 | the context array is built from the launched searches' outcomes as they arrive, keeping at most one part per query among the first ten |
| Handlers.MessageHandler.SearchAndAnswer | code/handlers/event_msg_action.go:102-410 | result, requests, items sent and new session map are those of the search path |
| Handlers.MessageHandler.JsonFallback | code/handlers/event_msg_action.go:65-93 | result, requests, items sent and new session map are those of the non-JSON fallback |
| Handlers.MessageHandler.AnswerFallback | code/handlers/event_msg_action.go:413-498 | result, requests, items sent and new session map are those of the answer fallback |
| Handlers.MessageHandler.Message | code/handlers/event_msg_action.go:24-515 | result, requests, items sent and new session map are those of the whole message action |
| Handlers.ChainStep | code/handlers/handler.go:18-25 | one turn of the loop: after an action returning false the run ends with that action's effects; after one returning true it goes on from the next position with those effects added |
| Handlers.ChainRunStops | code/handlers/handler.go:17-29 | a chain over a non-empty list runs at least one action, never more than there are, every verdict but the last is true, and it ends before the last action only on a false verdict |
| Handlers.ChainRunRecords | code/handlers/handler.go:17-29 | the actions a chain runs, paired with their verdicts, are a non-empty prefix of the list that stops at the first false verdict |
| Handlers.ReceivedStops | code/handlers/handler.go:56-133 | an ignored event has no effect at all; an event that runs the pipeline runs a non-empty prefix of it that stops at the first false verdict |
| Handlers.MessageHandler.Run | code/handlers/handler.go:113-128 | running one action has exactly the effects the action specification gives it on the current state: its verdict, requests, items sent and session write; the processed set grows only under deduplication |
| Handlers.MessageHandler.RunAt | code/handlers/handler.go:18-25 | one turn of the loop keeps the invariant: what has run so far followed by the chain from the next position is the whole chain's outcome, and after a false verdict the state is that outcome |
| Handlers.MessageHandler.RunUntilFalse | code/handlers/handler.go:17-29 | the verdicts returned, the processed set, the sessions, the requests made and the items sent are exactly those of the chain specification on the old state; it succeeds iff every action ran and the last returned true |
| Handlers.MessageHandler.Chain | code/handlers/handler.go:17-29 | the verdicts, processed set, sessions, requests and items sent are exactly those of the chain specification over the handler's actions on the old state; every verdict but the last is true; it stops at the first false verdict; it succeeds iff all ran and all succeeded |
| Handlers.MessageHandler.MsgReceived | code/handlers/handler.go:56-133 | runs the chain iff the chat type is known and the message type is supported; the new processed set, sessions, requests and items sent are exactly those of the received-event specification, which is no change for an ignored event and the pipeline's chain otherwise |
| Handlers.MessageHandler.Handle | code/handlers/init.go:32-63 | a nil event, body or message fails with "invalid event structure" and changes nothing; any other event is handled without error, with exactly the effects of the received-event specification |

## Left out

- Logging, the mutex of the session store, and the Feishu SDK calls themselves. Sending is an append to the outbox; its delivery error comes from an oracle.
- Goroutines, the semaphore and the wait group of the search fan-out. The concurrency clamp bounds how many searches are in flight, which changes no result of the model and is not modelled. The order in which outcomes arrive, and which arrive before the overall timeout, come from the `schedule` oracle. Its type, `Environment.Scheduler`, lets it deliver only outcomes of launched searches, each at most once.
- The overall search timeout is armed afresh for each result the collector waits on (`time.After` inside the loop). The `schedule` oracle may cut the stream anywhere, which covers this.
- Timeouts are decided by the `timedOut` oracle. The timeout error's text is modelled as "search timeout"; the collector only tests that there is an error.
- A completion reply depends only on the request and on its position among the handler's requests.
- HTML scraping, JSON encoding and decoding, `%q` quoting, URL unescaping, the Han-script regular expression and HTTP are oracles of `Net` and `World`.
- `parseContent`, `parseFileKey` and `parseImageKey` are not part of this model; `fileKey` and `imageKey` are dropped from the action input.
- The audio and picture actions are not part of this model; they are verdict oracles that change nothing else.
- `EitherTrimEqual`, `EitherCutPrefix`, `GetBalance` and `GetAllUniqueTags` are not part of this model; they are oracles.
- RolePlay clears the session before storing the new one. The model stores directly, which leaves the same final map.
- Go's `append(history, …)` may share the backing array of the stored history. The model uses values, so that aliasing is not captured.
- Go strings are UTF-8 bytes; the model uses characters. `trimTo(content, 4000)` and the length tests therefore count characters, not bytes.
- `Web.StripTags`: the contract states only the length bound and the tag-free identity, not the exact regular-expression semantics.
- The card handler, the read-receipt handler and the certificate-file getters of the configuration are outside the core.
- Pointer fields of the event other than `RootId` and `ChatType` are taken as present.
