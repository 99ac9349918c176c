# WhatsApp sales bot: a verified model of its core

This project models the deterministic core of a WhatsApp sales bot in Dafny. The
bot receives the messaging provider's webhooks, keeps conversations in SQLite,
answers through a chat-completion engine grounded by a keyword retriever, sends
follow-ups to idle customers, exports conversations as CSV and imports old chats
as training text. The modules follow the program:

- `Rag` (rag.js): the keyword retriever. Its chunk list and loaded flag live in the
  class `Rag.Retriever`. `Search` scores, ranks and truncates with loops.
  `RetrieveContext` packs the best hits greedily under a character budget. Scores
  are integers counted in tenths: a word found n times adds 10 + n, where the
  source adds `1 + 0.1 * n`.
- `Store` (database.js): the three tables held in memory by the class
  `Store.ConversationStore`: the append-only turn log, the processed-delivery table
  and the poke counters. The read-only queries are functions over the tables.
  Timestamps are whole seconds, and the clock is a parameter. Rows with equal
  timestamps keep the order in which they were logged: insertion order breaks the
  ties that `ORDER BY timestamp` leaves open.
- `Ai` (ai.js): `generateReply`. It covers the retrieval gate, the message list
  sent to the engine, and the choice between the engine's answer and the two fixed
  apologies. The engine is an abstract function from the message list to what the
  HTTP call yields.
- `Json` and `Gateway` (server.js, webhook handler): JavaScript truthiness, the
  `a || b || c` alias chains, and the decision chain that drops echoes of the bot's
  own messages. `Gateway` also extracts and validates the fields, keeps only the
  digits of the number and derives the dedup key.
- `Server` (server.js, processing body): one processing step as a pure function on
  the bot's state (database, excluded numbers, send attempts). Each statement of
  the body that can throw can be made to fail: the two dedup checks, the two logs,
  the history read, the send, and the insert and the prune of
  `markMessageProcessed`. The body's `catch`, or the handler's for the first dedup
  check, stops the step there.
- `Poke` (server.js): `generatePokeMessage` and the `runAutoPoke` sweep as pure
  functions, with their per-client and whole-sweep effects.
- `Export` (server.js): the CSV export.
- `Importer` (fetch_wati_chats.js): the page-until-short-page loops against an
  abstract page oracle, record normalisation, the message total and the
  "Agent:/Customer:" training text.
- `Bot.Bot`: the running server as an object. Its methods are the webhook handler,
  the exclusion routes and the follow-up sweep. Each method is proved to leave
  exactly the state that `Server` or `Poke` describes.
- `Strings`, `Seqs` and `Wrappers` hold the shared string, sequence and option
  helpers. `Seqs.SortDesc` is the stable sort that both `Array.prototype.sort` and a
  tie-broken `ORDER BY` stand for.

Points where the code behaves otherwise than one might expect, and which the model
follows:

- **Missing reply text.** Processing does not always end with a reply. An engine
  answer whose `content` is missing makes `aiReply.substring` throw, so nothing is
  sent. This is the model's `NoReplyText`.
- **Engine-written follow-ups.** `generatePokeMessage` is meant to use the engine's
  text when its length is plausible, but as written it never does (see Findings). The
  sweep (`Poke.Compose`, `Poke.AutoPoke`, `Bot.Bot.RunAutoPoke`) is modelled as
  written, so it always sends the picked template. `Poke.PokeMessage` and
  `Poke.ComposeIntended` are the corrected follow-up and composer.
- **500 answers.** The handler answers 500 not only when classification itself
  fails. It also does so when `eventType`/`event` is truthy but not a string, when an
  id-less message has a text that is not a string, and when the first dedup check
  throws. The first two are `Gateway.Crashed`.
- **Poke window.** A comment in the code speaks of "11+ hours" idle. The query uses
  12 hours, and so does the model.
- **Poke counters.** The database keeps poke counters, but `runAutoPoke` never calls
  `incrementPokeCount` or `resetPokeCount`, and the model's sweep leaves the counters
  alone.

## Model

| member | source | states |
|---|---|---|
| Rag.Retriever.Load | rag.js:19-38 | a parsed chunk file replaces the chunks and sets the loaded flag; a missing or unparsable file leaves the state as it was and reports false |
| Rag.Retriever.ScoreChunk | rag.js:80-88 | the per-word loop computes the chunk's score, one term per query word |
| Rag.Retriever.Search | rag.js:59-98 | the scoring loops, the sort and the slice return the first topK of the stable ranking of positively scored chunks, or nothing when the corpus is unloaded or empty or the query has no search words |
| Rag.SearchResult | rag.js:59-98 | defines `search` on the retriever's state; `Rag.SearchEmptyCases` through `Rag.SearchIsRankingPrefix` state its properties, and `Rag.Retriever.Search` computes it |
| Rag.Retriever.RetrieveContext | rag.js:108-145 | the packing loop with `break` returns the trimmed concatenation of the additions of the longest prefix of hits that fits the budget, one reported chunk per addition |
| Rag.RetrievalFor | rag.js:108-145 | defines `retrieveContext` on the retriever's state; `Rag.RetrieveNothing`, `Rag.RetrievePacksPrefix` and `Rag.RetrieveUsedIff` state its properties |
| Rag.KeywordsShape | rag.js:65-68 | each search word comes from a query word longer than two characters, has its punctuation stripped, and holds only word characters |
| Rag.PunctuationCountsTowardsLength | rag.js:65-68 | the length filter runs before stripping: a search word of two characters or fewer appears exactly when some query word longer than two characters strips down to one |
| Rag.HiKeyword | rag.js:65-68 | "hi!" survives as "hi" while "ok" is dropped |
| Rag.KeywordsComplete | rag.js:65-68 | every query word longer than two characters yields its stripped form, in order and with repeats: the i-th word is the search word after one per long word before it, and there are no other search words |
| Rag.KeywordsCount | rag.js:65-68 | there is one search word per query word longer than two characters |
| Rag.QueryWords | rag.js:65-68 | defines the search words: lower-case, split on white space, keep words longer than two characters, strip non-word characters; `Rag.KeywordsShape` and `Rag.KeywordsComplete` state what it yields |
| Rag.OccurrencesPositive | rag.js:82-84 | a word has a match exactly when it occurs at some position of the content |
| Rag.OccurrencesBound | rag.js:82-84 | matches do not overlap: n matches of a non-empty word take at least n times its length |
| Rag.ChunkScoreDecomposes | rag.js:84-87 | a chunk's score in tenths is 10 per matching query word (repeats included) plus 1 per match, that is, 1 + 0.1 * n per word |
| Rag.ChunkScorePositive | rag.js:84-90 | a chunk scores above 0 exactly when some query word matches in it |
| Rag.ScoreAllMembers | rag.js:76-93 | the scored list holds exactly the corpus chunks that score above 0, each with its own score |
| Rag.EmptyWordMatchesAll | rag.js:82-83 | a query word stripped to "" matches everywhere, so every chunk of the corpus becomes a hit |
| Rag.SearchEmptyCases | rag.js:60-72 | an unloaded or empty corpus, a query without search words, or topK 0 gives no hits |
| Rag.SearchBounded | rag.js:96-97 | there are at most topK hits, and no more than there are chunks |
| Rag.SearchSorted | rag.js:96 | the hits come in non-increasing score order |
| Rag.SearchMembers | rag.js:76-97 | every hit is a corpus chunk with a positive score, namely its score against the query words |
| Rag.SearchIsRankingPrefix | rag.js:96-97 | the hits are a prefix of the full ranking, of length min(topK, ranking size), and chunks of equal score keep their corpus order |
| Rag.ScoreTextRoundTrip | rag.js:136 | the printed score reads back as the score: digits, a point, the tenths digit and a trailing 0 |
| Rag.ScoreText | rag.js:136 | defines `toFixed(2)` of a score given in tenths; `Rag.ScoreTextRoundTrip` states that it reads back |
| Rag.PackedFits | rag.js:123-138 | packing keeps the untrimmed context within maxChars and stops only where the next addition would overflow it |
| Rag.RetrieveNothing | rag.js:111-117 | no hits give an empty context, no chunks and used = false |
| Rag.RetrievePacksPrefix | rag.js:123-143 | the reported chunks are those of a prefix of the hits; its context fits the budget, and the returned context is that text trimmed; packing stops at the first hit that does not fit rather than skipping it |
| Rag.ContextBlank | rag.js:125 | every addition holds a '-', so a context, even trimmed, is empty exactly when no hit went into it |
| Rag.RetrieveUsedIff | rag.js:140-144 | used holds exactly when at least one chunk was reported, which is exactly when the context is not empty |
| Strings.TrimSpec | rag.js:141 | `trim` keeps a slice that neither starts nor ends with white space and drops only white space |
| Strings.WordsJoin | rag.js:66 | splitting on white space loses nothing but white space: the words, joined, are the non-space characters |
| Strings.NatToStringRoundTrip | rag.js:136 | the decimal text of a number reads back as that number |
| Store.ConversationStore.constructor | database.js:8-37 | `initDB` reopens the database file: the store holds exactly the rows the file already has (empty tables for a new file) |
| Store.ConversationStore.LogMessage | database.js:77-83 | exactly one row (number, role, content, now) is appended, and the other tables are unchanged |
| Store.ConversationStore.MarkMessageProcessed | database.js:101-107 | an insert-or-ignore followed by the seven-day prune, and the other tables are unchanged |
| Store.ConversationStore.InsertProcessed | database.js:103 | the insert-or-ignore alone, as the table stands when the prune after it throws; the other tables are unchanged |
| Store.ConversationStore.IncrementPokeCount | database.js:53-62 | the upsert starts a count at 1 or adds 1, stamped now; the other tables are unchanged |
| Store.ConversationStore.ResetPokeCount | database.js:65-68 | the number's counter row is deleted; the other tables are unchanged |
| Store.TurnsOfLogged | database.js:77-83 | a logged turn joins its own number's conversation, at the end, and no other |
| Store.HistoryLength | database.js:85-93 | the history has min(limit, number of the number's turns) entries |
| Store.HistoryAscending | database.js:85-93 | the history is in ascending time order |
| Store.HistoryOfNumber | database.js:88 | every history entry is a turn of the requested number |
| Store.HistoryMostRecent | database.js:85-93 | the returned entries are the most recent: a turn of the number newer than some returned entry is itself returned |
| Store.HistoryInLogOrder | database.js:85-93 | with a clock that never goes back, the history is the last `limit` turns of the number in log order |
| Store.HistoryEndsWithLatest | database.js:77-93 | read after write: a turn logged no earlier than the log's turns is the last entry of its number's history |
| Store.History | database.js:85-93 | defines `getConversationHistory`; `Store.HistoryLength` through `Store.HistoryEndsWithLatest` state its properties |
| Store.MarkedContains | database.js:101-107 | after marking, the id is recorded unless its old record is more than seven days old, the insert having been ignored; so a fresh mark is always kept |
| Store.MarkedFresh | database.js:106 | after marking, no record older than seven days remains, and every remaining record kept its own time |
| Store.MarkedOthers | database.js:101-107 | other ids are kept exactly when they are fresh, with their timestamps |
| Store.MarkedIdempotent | database.js:103 | re-marking a recorded id keeps its single record and its original timestamp |
| Store.Inserted | database.js:103 | defines the insert-or-ignore: a recorded id keeps its record, a new id is stamped now; `Store.MarkedContains` and `Store.MarkedIdempotent` state what marking keeps |
| Store.Marked | database.js:101-107 | defines `markMessageProcessed` as the insert followed by the seven-day prune; `Store.MarkedContains`, `Store.MarkedFresh` and `Store.MarkedOthers` state its effect |
| Store.PokeCounters | database.js:53-75 | the count is 0 for an unknown number, the increment adds 1, the reset returns it to 0, and other numbers are untouched |
| Store.NeedsPokeIff | database.js:134-151 | the condition on one number, stated on its turns: a user turn newer than 24 hours and every turn older than 12 |
| Store.PokeEligibility | database.js:131-154 | a number is listed exactly when it has a user turn less than 24 hours old and all its turns are more than 12 hours old; a number without user turns never is |
| Store.PokeRows | database.js:142-146 | each listed row carries its number's latest user-turn time and latest turn time, and no number is listed twice |
| Store.CandidatesMembers | database.js:131-154 | a row is listed exactly when its number is in the log and passes the condition with those times |
| Store.ClientsNeedingPoke | database.js:131-154 | defines `getClientsNeedingPoke`; `Store.PokeEligibility`, `Store.PokeRows` and `Store.CandidatesMembers` state which rows it lists |
| Store.AllConversationsRows | database.js:109-118 | there is one row for every number in the log and for no other, holding that number's turn count and its latest timestamp |
| Store.AllConversationsOrder | database.js:115 | the rows are in non-increasing order of last message, and no number appears twice |
| Store.AllConversations | database.js:109-118 | defines `getAllConversations`; `Store.AllConversationsRows` and `Store.AllConversationsOrder` state its rows and their order |
| Ai.RagGateSpec | ai.js:27-43 | retrieval (top 5, 2000 characters) counts as used exactly when the history has fewer than 3 entries and the retriever reports used; its context and chunks are then kept, and are empty otherwise |
| Ai.RagSkippedForLongHistory | ai.js:27-29 | with 3 or more history entries retrieval is not attempted: the reply does not depend on the corpus and reports no retrieval |
| Ai.MessagesShape | ai.js:46-142 | the list has |history| + 2 messages: a system prompt with the knowledge base and the retrieved context exactly when used; every history entry in order with content unchanged and role 'assistant' kept, anything else becoming 'user'; last the user's message, with an image part exactly when a URL is given |
| Ai.ReplySelection | ai.js:158-180 | with a non-empty choice list, the reply is the first choice's content, with the gate's retrieval flags, when that choice has a message, and the "technical difficulties" apology when it has none; an empty or missing list gives the "trouble connecting" apology and an exception the "technical difficulties" one, both without retrieval; a reply that is not an apology comes from the first choice |
| Ai.EngineThrowApologises | ai.js:173-180 | an engine that always throws gives the "technical difficulties" apology without retrieval |
| Ai.HistoryMessages | ai.js:129-132 | one message per history entry, in order, each the entry with its role coerced |
| Ai.RagGate | ai.js:27-43 | defines the retrieval gate; `Ai.RagGateSpec` states it |
| Ai.Messages | ai.js:46-142 | defines the message list sent to the engine; `Ai.MessagesShape` and `Ai.HistoryMessages` state its shape |
| Ai.SelectReply | ai.js:158-180 | defines the choice between the engine's answer and the apologies; `Ai.ReplySelection` states it |
| Ai.GenerateReply | ai.js:7-181 | defines `generateReply` as the gate, the message list and the selection; `Ai.RagSkippedForLongHistory` and `Ai.EngineThrowApologises` state its properties |
| Json.ChainFirstTruthy | server.js:82-85 | an alias chain is truthy exactly when one of its fields is, and then it is the first truthy field in the listed order |
| Json.ToText | server.js:101 | defines `String(v)`, with an array printing as the comma-joined text of its elements; `Gateway.NumericSender` states it for numbers |
| Json.Joined | server.js:101 | defines `join(',')`, where `null` and `undefined` elements print as nothing |
| Gateway.EchoesDiscarded | server.js:54-70 | an owner flag that is exactly true, or an outbound event type in any letter case, discards the payload |
| Gateway.HeuristicDiscards | server.js:74-79 | the status heuristic discards exactly the payloads that passed the exact checks, have neither owner flag explicitly false, and carry an outbound status; an explicit false flag disables it |
| Gateway.AcceptedExactly | server.js:54-104 | a payload is accepted exactly when it passes the echo checks, has a truthy sender and a non-empty text, a type that is 'text' or absent, and a usable id; the envelope holds the sender's digits, the text and the dedup key |
| Gateway.MissingFieldDiscards | server.js:90-93 | after the echo checks, a payload without a truthy sender alias or text alias is dropped |
| Gateway.DigitsOnlyKeepsDigits | server.js:101 | the conversation number equals the sender exactly when the sender is all digits, and normalising twice changes nothing |
| Gateway.NumericSender | server.js:101 | a numeric sender, of any sign, is read through its decimal text: the conversation is the digits of its magnitude, which read back as that magnitude |
| Gateway.FortyTwoSender | server.js:101 | 42 and "+4 2" give the same conversation |
| Gateway.KeyWithoutId | server.js:104 | without an id the key is the number, a dash and at most 50 characters of text; two id-less texts from one sender that agree on their first 50 characters share a key |
| Gateway.Classify | server.js:54-104 | defines the handler's decision chain up to the dedup key; `Gateway.EchoesDiscarded` through `Gateway.MissingFieldDiscards` state it |
| Server.DuplicateIsNoOp | server.js:105-121 | a delivery whose key is already processed changes nothing; the first dedup check finds it, so it is a duplicate unless that check throws, and the re-check inside the lock is never reached |
| Server.ExcludedIsNoOp | server.js:121-129 | a message from an excluded number changes nothing and its key stays unmarked; it is skipped unless a dedup check throws |
| Server.ProcessTurns | server.js:121-168 | a step adds no turns, just the user's turn, or the user's turn then the reply's, depending on where it stops; a failing dedup check adds none; the reply that is logged is the one sent; sends happen only once the reply is logged |
| Server.HandledExactly | server.js:121-150 | a step is handled exactly when the key is new, the number is not excluded, no step fails and the answer has text; only then is the key marked; a step whose prune throws has inserted the key without pruning; otherwise the processed table is unchanged |
| Server.RedeliveryIsDuplicate | server.js:105-121 | delivering a handled message again changes nothing, whatever the engine now answers, and is a duplicate unless the first dedup check throws |
| Server.EngineFailureStillAnswers | server.js:132-150 | when the engine throws, the apology is logged and sent like a reply, and the key is marked |
| Server.ReplySeesMessage | server.js:132-138 | with a clock that never goes back, the reply's history ends with the message being answered |
| Server.WebhookStatus | server.js:43-180 | the handler answers 500 exactly for a payload that makes it throw and for an accepted message whose first dedup check throws, and 200 otherwise; a 500 and a payload that is not accepted leave the state unchanged |
| Server.FirstCheckFails | server.js:105-110 | a step stops at the first dedup check exactly when that check throws, and then changes nothing |
| Server.Respond | server.js:105-150 | defines the processing body, step by step, given the reply; `Server.ProcessTurns`, `Server.HandledExactly` and the lemmas above state its effect |
| Server.Process | server.js:132-138 | defines the reply as `generateReply` of the message and the history read right after its log; `Server.ReplySeesMessage` and `Server.EngineFailureStillAnswers` state what it sees |
| Server.Webhook | server.js:43-180 | defines the handler as classification then processing; `Server.WebhookStatus` states its answers |
| Poke.PokeMessageSpec | server.js:474-488 | the follow-up is the engine's text exactly when there is history, the reply has a text, and its length is strictly between 10 and 300; otherwise it is the picked template |
| Poke.EngineAnswerDiscarded | server.js:479-482 | as written, the follow-up is always the picked template; a concrete history and a fitting 21-character answer show that this differs from the intended follow-up |
| Poke.TemplatesFit | server.js:465-474 | the random index picks one of the five templates, and every template would pass the length test |
| Poke.ComposeReadsHistory | server.js:507-510 | the sweep's follow-up for a number is `generatePokeMessage` as written on that number's last 10 turns, asking the engine with no history of its own, and so it is the picked template; the intended composer gives the corrected follow-up |
| Poke.ComposeIsTemplate | server.js:479-488 | as written, the sweep's composer gives the picked template for every number and state |
| Poke.PokedIsTemplate | server.js:507-516 | as written, the turn the sweep logs for a client, and the text it sends, are the client's picked template |
| Poke.PokeStepEffect | server.js:498-529 | one client's follow-up logs an assistant turn with the message at the given time and then attempts to send the same message; an excluded number or a failure before logging changes nothing; no other state changes |
| Poke.PokeIsLocal | server.js:507 | a client's follow-up depends on the state only through that client's own turns and the exclusions |
| Poke.PokeStepOthers | server.js:515 | a step for one number leaves every other number's turns as they were |
| Poke.SweepFrame | server.js:491-536 | the sweep never touches the exclusions, the processed deliveries or the poke counters |
| Poke.SweepPerClient | server.js:498-530 | with each client listed once, each listed client gets exactly the follow-up it would get against the starting state, and unlisted numbers keep their turns |
| Poke.SweepSends | server.js:498-530 | with each client listed once, the sweep's sends are the follow-ups of the clients that got that far, in list order |
| Poke.AutoPokeEffect | server.js:491-536 | the whole sweep: every listed client gains its one follow-up (none when excluded or failing before the log), every other number's turns and the other tables are unchanged, and the sends are the follow-ups in list order; an error for one client does not stop the rest; `Poke.PokedIsTemplate` says each follow-up is the picked template |
| Poke.PokeMessageAsWritten | server.js:474-488 | defines `generatePokeMessage` as written; `Poke.EngineAnswerDiscarded` states that it is always the picked template |
| Poke.PokeMessage | server.js:474-488 | defines the follow-up as evidently intended; `Poke.PokeMessageSpec` states when it is the engine's text |
| Poke.Compose | server.js:461-489 | defines the sweep's composer, `generatePokeMessage` as written on the number's last 10 turns; `Poke.ComposeReadsHistory` and `Poke.ComposeIsTemplate` state what it gives |
| Poke.ComposeIntended | server.js:461-489 | defines the composer with the length test applied to the reply's text; `Poke.ComposeReadsHistory` states what it gives |
| Poke.PokeStep | server.js:498-529 | defines one pass of the loop body; `Poke.PokeStepEffect`, `Poke.PokeIsLocal` and `Poke.PokeStepOthers` state its effect |
| Poke.Sweep | server.js:498-530 | defines the loop over the listed clients; `Poke.SweepFrame`, `Poke.SweepPerClient` and `Poke.SweepSends` state its effect |
| Poke.AutoPoke | server.js:491-536 | defines `runAutoPoke` as the listing at `now` and the sweep with the composer as written; `Poke.AutoPokeEffect` states its effect |
| Export.BuildCsv | server.js:215-220 | the `forEach` builds the header followed by one quoted line per row, in order |
| Export.DoubleQuotesRoundTrip | server.js:218 | doubling quotes loses nothing: the reader of RFC 4180 section 2 rule 7 gets the text back |
| Export.FlattenCommutes | server.js:218 | doubling quotes and flattening line feeds can be done in either order |
| Export.EscapeContentSpec | server.js:218 | the escaped message contains no line feed, is one character longer per quote, and reads back as the message with its line feeds turned into spaces |
| Export.OneLinePerTurn | server.js:215-219 | when no number, date text or role holds a line feed, the export has exactly one line per turn after the header, whatever the messages hold |
| Export.EscapeContent | server.js:218 | defines the quote doubling and line-feed flattening of a message; `Export.EscapeContentSpec` states it |
| Export.Csv | server.js:215-220 | defines the export text; `Export.BuildCsv` computes it and `Export.OneLinePerTurn` states its line structure |
| Importer.Paginate | fetch_wati_chats.js:35-55 | the `while (true)` loop gathers, in page order, each page's kept items up to the first page that fails, is empty or is short |
| Importer.CollectSound | fetch_wati_chats.js:73-85 | every gathered item passed the filter and came from a page the loop fetched |
| Importer.StopsAtFirstShortPage | fetch_wati_chats.js:66-94 | the loop's result is fixed by the first page that is not full; nothing after it is read |
| Importer.CollectIsKeptPages | fetch_wati_chats.js:66-94 | when the pages before s are full and page s is not, the loop gathers exactly the kept items of those pages, in page order |
| Importer.KeepAll | fetch_wati_chats.js:42-46 | without a filter, as for the contact list, the pages are concatenated as fetched |
| Importer.Collect | fetch_wati_chats.js:66-94 | defines what the page loop gathers from page p on; `Importer.CollectSound`, `Importer.StopsAtFirstShortPage` and `Importer.CollectIsKeptPages` state it |
| Importer.ImportChats | fetch_wati_chats.js:108-140 | the contact loop yields one chat per contact with an id and in-range messages, in contact order |
| Importer.RunImport | fetch_wati_chats.js:99-163 | the import gives the chats of the paginated contacts, a total equal to the number of in-range messages fetched, and the training text of those chats |
| Importer.ChatsValid | fetch_wati_chats.js:113-123 | every chat has an id and at least one message, and its count is its number of records |
| Importer.ChatHasContact | fetch_wati_chats.js:108-132 | every chat is the entry of some contact |
| Importer.ContactHasChat | fetch_wati_chats.js:113-132 | every contact with an id and in-range messages gives a chat |
| Importer.ChatRecords | fetch_wati_chats.js:119-131 | a contact gives a chat exactly when it has an id and messages; the chat's records are its messages normalised, in order |
| Importer.NormaliseDefaults | fetch_wati_chats.js:124-131 | a record's id and text follow their alias order, ownership defaults to false, and the type defaults to 'text' |
| Importer.Normalise | fetch_wati_chats.js:124-131 | defines a message's record; `Importer.NormaliseDefaults` states its alias orders and defaults |
| Importer.Records | fetch_wati_chats.js:124-131 | one record per message, in order |
| Importer.TotalIsFetched | fetch_wati_chats.js:147 | the total is the number of in-range messages fetched for the contacts with an id |
| Importer.BuildTraining | fetch_wati_chats.js:154-163 | the nested `forEach` builds, per chat, its header and then one line per message |
| Importer.TrainingAppend | fetch_wati_chats.js:157-163 | the training text of several chats is theirs one after the other |
| Importer.LinesAppend | fetch_wati_chats.js:159-162 | a chat's lines are its messages' lines, one after the other |
| Importer.SpeakerLine | fetch_wati_chats.js:160-161 | a message is an "Agent:" line when its owner flag is truthy and a "Customer:" line otherwise |
| Importer.Training | fetch_wati_chats.js:154-163 | defines the training text; `Importer.BuildTraining` computes it and `Importer.TrainingAppend`, `Importer.LinesAppend` and `Importer.SpeakerLine` state its shape |
| Bot.Bot.constructor | server.js:14-18 | the server starts with the database as its file holds it, the chunk file loaded as the retrieval module does on import (rag.js, line 148), and the excluded numbers read from their file |
| Bot.Bot.Process | server.js:121-168 | the processing body leaves exactly the state and outcome of `Server.Process` |
| Bot.Bot.HandleWebhook | server.js:43-180 | the handler's answer and new state are those of `Server.Webhook` |
| Bot.Bot.Exclude | server.js:276-280 | adds the number to the excluded set and sends nothing |
| Bot.Bot.Include | server.js:283-287 | removes the number from the excluded set and sends nothing |
| Bot.Bot.GeneratePokeMessage | server.js:461-489 | the follow-up is what the sweep's composer gives for that number's turns, which as written is the picked template whatever the engine answers |
| Bot.Bot.PokeClient | server.js:498-529 | the loop body leaves exactly the state of `Poke.PokeStep` |
| Bot.Bot.PokeClients | server.js:498-530 | the `for` loop leaves exactly the state of `Poke.Sweep` over the listed clients |
| Bot.Bot.RunAutoPoke | server.js:491-536 | `runAutoPoke` leaves exactly the state of `Poke.AutoPoke`, whose effect `Poke.AutoPokeEffect` states |

## Left out

- The per-number lock (server.js:112-117, 171-173) is left out: it orders concurrent deliveries, and the model processes each delivery atomically, which is the lock's purpose.
- Store.ClientsNeedingPoke lists the numbers in the order of their first turn in the log, and Store.AllConversations breaks ties of equal last-message time the same way: the query of database.js:131-153 has no `ORDER BY`, and `ORDER BY lastMessage DESC` (database.js:115) leaves ties open, so SQLite's actual order is not modelled. The first order fixes the order of the sweep's sends and logged follow-ups.
- JSON numbers that are not integers are not modelled: `Json.Value.Num` holds an integer, so a sender such as `1.5`, which JavaScript prints as "1.5" and the digit filter turns into "15", has no counterpart.
- The first duplicate check (server.js:105-110) and the re-check inside the lock (line 121) read the same table with nothing in between when deliveries are processed one at a time, so `Server.Respond` makes the test once; each check has its own fault, `AtFirstCheck` answered 500 and `AtRecheck` swallowed.
- Server.Respond stamps the user's turn, the reply's turn and the processed record with the one clock reading `now`, where the code reads the clock at each statement; the time the engine call takes is not modelled.
- Console logging, the SSE broadcasts (server.js:160-164, 521-522) and the dashboard's other routes are left out: they are output only.
- The auto-learn append to the knowledge base (server.js:152-158) is left out: it is a file write, it runs after the key is marked, and a failure there changes nothing in the model's state.
- File I/O is left out: `Rag.Retriever.Load` takes the already-parsed chunk file, `Ai` takes the knowledge-base text, `Bot.Bot.constructor` takes the rows the database file holds, the parsed chunk file and the excluded set, and the writes of the excluded file and the importer's output files are not modelled.
- `getStatus` (rag.js:43-49) only reports the module state and is not modelled.
- Bot.Bot.Exclude and Bot.Bot.Include do not model the file save that follows each update.
- The 100 ms and 2 s delays, and the hourly and start-up timers that trigger `runAutoPoke`, are left out.
- `Math.random` is left out: the template index is an input, `pick`, reduced modulo 5.
- Floats are left out: scores are integer tenths, and `toFixed(2)` is the text `Rag.ScoreText` builds from them.
- `Date` handling is left out: timestamps are whole seconds, and SQLite's comparison of datetime text becomes integer comparison. The CSV's `toLocaleString` is an abstract `dateText` function, the importer's date range an abstract `inRange` predicate, and `toISOString` for a `time` field is kept as the raw value (`Importer.FromTime`).
- `getAllMessages`' `ORDER BY` is left out: `Export.BuildCsv` takes the rows in the order it is given them.
- `(m.content || '')` in the export is not modelled: stored contents are strings, and the empty string stays empty either way.
- Payloads whose id is an object, an array or a boolean, or whose text is a non-string with an id, give `Gateway.Unsupported` (`Server.OutsideModel`): what SQLite and the later string calls make of such values is not modelled. An object or array sender is read through `Json.ToText`, like any other.
- The importer's responses are abstracted as `Importer.PageResult`: the `response.data.contact_list || ...` alias chains (fetch_wati_chats.js:42, 73) are assumed already resolved to a list, and the 404 logging distinction (89-91) is not modelled, since both branches stop the loop.
- The importer's loops end because some page is not full: the ghost `last` page stands for the provider eventually returning one. Collect and Paginate say nothing about a provider that returns full pages forever.
- `runAutoPoke`'s outer `catch` for a failing client query (server.js:533-535) is left out: the query is a pure function in the model and cannot fail.
- The legacy cooldown structures (server.js:25-28) are left out as unused.
- The other routes (sending messages, the knowledge-base editor, the live feed, the provider sync) are left out.
- The fixed sales text of the system prompt (ai.js:49-123) is left out: `Ai.SystemPrompt` keeps only the knowledge base and the retrieved context it embeds.
- HTTP calls are left out: the engine is a function from the message list to `Ai.EngineResponse`, and `sendMessage` is recorded as a `Server.SendAttempt` whose `delivered` flag says whether it threw.
- Strings.Lower lower-cases ASCII letters only, and lengths are counted in characters rather than UTF-16 code units.
- Bot.Bot.RunAutoPoke takes the composer that `Poke.Compose` builds; the sweep is proved for any composer, and `Poke.ComposeReadsHistory` ties that one to `generatePokeMessage` as written.
- Strings.IntToString prints every digit: JavaScript's `String` switches to exponent notation from 10^21 on, and such numbers are not modelled.

## Findings

| source | as written | input that shows it | evidently intended | confidence | as-written member | corrected member |
|---|---|---|---|---|---|---|
| server.js:480 | `aiPoke.length` is read from the object `generateReply` resolves to, so it is `undefined`, the length test never passes, and the template is always returned | history `[Entry("user", "Hi", 0)]`, pick 0, engine text "Still keen on the EA?" (21 characters): as written the template is sent, as intended the engine's text | test and return `aiPoke.text`, so that a reply of 11 to 299 characters is used | not executed | Poke.EngineAnswerDiscarded | Poke.PokeMessageSpec |
