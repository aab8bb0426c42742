# A verified model of the LangGraph RAG chatbot core

This project models the three components of the chatbot that make decisions. Each one is written in Dafny and comes with proved properties.

- **The agent pipeline** (`agent.dfy`, module `Agent`) is a five-node graph.
  - It classifies a question as `weather` or `document`.
  - For a weather question it extracts a city and fetches the weather record.
  - For a document question it asks the retrieval tool.
  - Either way it then produces one final answer, and `run` records the turn in the chat log.
  - Every stage catches its own failure. It then writes an `error` text and puts a fixed default in its own field.
  - A stage takes the whole state and returns the state with only its own field (and the error) replaced. The graph library is replaced by an explicit step function (`Next`) and a run of the graph (`Execute`), which terminates by rank.
- **The retrieval tool** (`rag.dfy`, module `Rag`) covers:
  - the collection-name sanitiser;
  - the registry of collections kept by the vector database, with create-if-absent on `load_pdf` and switch-only-if-present on `switch_to_pdf`;
  - keeping the ranker's top three, and building the context and the source previews;
  - the decision tree of `query`: no store, nothing retrieved, an answer, or an error.
- **The chat log** (`database.dfy`, module `Database`) is one table of turns.
  - The table is a sequence of rows in insertion order. Creation times come from a counter that only increases.
  - Its queries (replay, latest PDF, per-session listing) are specified by functions over that sequence, and each query method is proved against its function.
  - The deletes are assignments of the remaining rows.

`common.dfy` (module `Common`) holds what the three share:
- the outcome of a call into an external service: `Returns(value)` or `Fails(cause)`;
- the two message shapes;
- the Python string operations used (`strip`, `lower`, `isalnum`, slicing), on ASCII.

Every external service is a parameter that returns a value or a failure. These are the language model (intent, city, weather answer, document answer), the weather service, the vector database (listing, creating, ingesting, opening a store, similarity search) and the ranker.

## Model

| member | source | states |
|---|---|---|
| Common.Take | rag.py:41 | `s[:n]` has `min(|s|, n)` elements and is a prefix of `s` |
| Common.Lower | rag.py:42 | lower-casing keeps the length and maps each character by ASCII `lower` |
| Common.TrimStart | agent.py:59 | `lstrip` drops exactly a leading run of whitespace, and the result does not start with whitespace |
| Common.TrimEnd | agent.py:59 | `rstrip` drops exactly a trailing run of whitespace, and the result does not end with whitespace |
| Common.Strip | agent.py:59 | `strip` keeps a piece of the string with no whitespace at either end, and leaves a string without whitespace as it is |
| Common.StripIdempotent | agent.py:91 | a stripped string has no whitespace at either end, and stripping it again changes nothing |
| Rag.RemovePdf | rag.py:37 | `replace('.pdf', '')` never lengthens the name |
| Rag.RemovePdfAround | rag.py:37 | every occurrence of ".pdf" is removed, not only a suffix: the text before and after it is cleaned independently |
| Rag.RemovePdfNone | rag.py:37 | a name without '.' is unchanged |
| Rag.RemovePdfSuffix | rag.py:37 | a name without '.' followed by ".pdf" loses exactly that suffix |
| Rag.RemovePdfSinglePass | rag.py:37 | removal is one left-to-right pass, so "..pdfpdf" becomes ".pdf" |
| Rag.Sanitize | rag.py:26-42 | the key is "pdf_" followed by the first 50 characters of the name without ".pdf", each turned into its lower-case form or '_'; its length is at most 54 |
| Rag.SanitizeAlphabet | rag.py:39-42 | after "pdf_", a key holds only lower-case letters, digits and '_' |
| Rag.SanitizeCollides | rag.py:41 | names that agree, up to case and punctuation, on their first 50 kept characters share one collection |
| Rag.SanitizeTest | tests/test_rag.py:31-33 | "TEST.pdf" gives "pdf_test" |
| Rag.SanitizeMyDocument | tests/test_rag.py:23-24 | "My Document (2024).pdf" gives "pdf_my_document__2024_" |
| Rag.BasenameSuffix | rag.py:55 | `os.path.basename` is the longest suffix without '/', preceded by '/' when shorter than the path |
| Rag.Passages | rag.py:155 | the ranker is given the retrieved texts, with each id being the text's position |
| Rag.Rerank | rag.py:140-166 | a ranker failure propagates. Otherwise the first three listed ids select documents in the ranker's order. An id past the end raises "list index out of range" |
| Rag.RerankKeepsThree | rag.py:164-166 | a ranker that lists every passage once keeps exactly `min(3, n)` documents |
| Rag.Join | rag.py:205 | joining no texts gives "", and joining one text gives that text |
| Rag.JoinAppend | rag.py:205 | the join of a concatenation is the two joins with one blank line between them |
| Rag.Preview | rag.py:227 | a preview is the first 200 characters (or all of them) followed by "..." |
| Rag.Sources | rag.py:225-231 | there is one source per kept document, in rank order, with its preview and its metadata unchanged |
| Rag.Ingest | rag.py:54-109 | existing collections are never changed. A collection is created only when the key is absent, and is filled with the chunks, or left empty if ingestion fails. Success holds exactly when the listing works, the collection exists or was created and filled, and a store opens on it |
| Rag.LoadTwice | rag.py:58-62 | after a successful load, loading a path with the same basename leaves the collections unchanged |
| Rag.RagTool.constructor | rag.py:18-24 | the tool starts with no store and no current names |
| Rag.RagTool.LoadPdf | rag.py:44-109 | its result and the new collections are those of `Ingest`. Success makes the basename and its key current. Failure leaves the current fields as they were |
| Rag.RagTool.ClearPdf | app.py:59-60 | the front end's "Clear PDF" closes the store and forgets the PDF name, keeps the collection name and the collections, and keeps the tool's invariant |
| Rag.RagTool.Open | rag.py:58-109 | once the names are derived, the collections change as `Ingest` says. Success makes the two names current and opens the store on the key. Failure leaves the current fields as they were |
| Rag.RagTool.SwitchToPdf | rag.py:111-138 | it gives true exactly when the key exists and a store opens, and then the name and key are current. If the key is absent it gives false and nothing changes. Database failures escape |
| Rag.Query | rag.py:168-239 | with no store, the fixed "not loaded" answer with no service called. With a store, retrieval is called first. Sources imply that all three services were called, and there are at most 3 sources |
| Rag.QueryNothingRetrieved | rag.py:195-199 | nothing retrieved gives the fixed "no relevant information" answer, and neither the ranker nor the model is called |
| Rag.QueryAnswers | rag.py:204-232 | on success, the model's answer comes from the kept texts joined by blank lines, with one source per kept document |
| Rag.QueryRetrieveFails | rag.py:234-239 | a retriever that raises (the call at line 191) gives exactly "Error processing query: " followed by its message, with no sources, and neither the ranker nor the model is called |
| Rag.QueryRerankFails | rag.py:234-239 | a rerank that fails (line 202) gives exactly "Error processing query: " followed by its cause, with no sources, and the model is not called |
| Rag.QueryGeneratorFails | rag.py:234-239 | an answer model that raises on the prompt built from the kept texts (lines 216-221) gives exactly "Error processing query: " followed by its message, with no sources |
| Database.SessionRows | database.py:79-85 | a session's rows are the rows with that session id |
| Database.SessionRowsComplete | database.py:79-85 | every row of the session is among the session's rows |
| Database.Count | database.py:133 | a session's row count is at most the table's size |
| Database.CountZero | database.py:133 | the count is zero exactly when no row carries the session id |
| Database.History | database.py:77-93 | the replay has twice as many messages as the session has rows, and the roles alternate between human and ai |
| Database.HistoryPairs | database.py:87-90 | messages 2k and 2k+1 of the replay are the query and the answer of the session's k-th row |
| Database.SessionRowsAscending | database.py:83 | a session's rows are rows of the table, oldest first |
| Database.SessionPdf | database.py:105-119 | a session that has a PDF has rows; `SessionPdfNone` and `SessionPdfNewest` say which PDF it is |
| Database.SessionPdfNone | database.py:105-119 | the session's PDF is none exactly when no row of the session names a PDF |
| Database.SessionPdfNewest | database.py:105-119 | otherwise it is the PDF of the session's newest row that names one |
| Database.Latest | database.py:134 | the maximum creation time is absent exactly when the session has no rows |
| Database.LatestIsLastRow | database.py:134 | in a table kept in creation order, that maximum is the time of the session's last row |
| Database.AppendRow | database.py:57-65 | appending a row adds its query and answer to its own session's replay, count and PDF, and leaves every other session as it was |
| Database.AppendRowOthers | database.py:57-65 | appending a row leaves the replay of every other session unchanged |
| Database.Without | database.py:164 | no remaining row belongs to the deleted session |
| Database.WithoutKeepsOthers | database.py:164 | after the delete, every other session's rows, replay, PDF and latest time are unchanged |
| Database.WithoutAscending | database.py:164 | the remaining rows stay in creation order |
| Database.ListingDistinct | database.py:130-141 | entries that describe their sessions and are strictly ordered by time name distinct sessions |
| Database.NoSessionsNoListing | database.py:168-173 | an empty table has an empty listing |
| Database.ChatDatabase.constructor | database.py:7-26 | opening the log keeps the rows the table already holds, in creation order, with the clock after all of them |
| Database.ChatDatabase.InsertMessage | database.py:46-65 | exactly one row is appended, stamped with the current time, and the table stays in creation order |
| Database.ChatDatabase.GetSessionHistory | database.py:67-93 | the method's loop returns the session's replay |
| Database.ChatDatabase.GetSessionPdf | database.py:95-119 | the newest-first scan returns the session's PDF |
| Database.ChatDatabase.GetAllSessions | database.py:121-154 | there is one entry per distinct session, each with its row count, its maximum time and its PDF, newest first |
| Database.ChatDatabase.ClearSession | database.py:156-166 | the rows are exactly those outside the session, and the table stays in order |
| Database.ChatDatabase.ClearAll | database.py:168-173 | the table is empty |
| Agent.Initial | agent.py:257-269 | the run starts from the query and the given history (empty when missing), with every other field empty |
| Agent.IntentOf | agent.py:59-63 | the intent is always "weather" or "document", and it is "weather" exactly when the stripped, lower-cased reply is "weather" |
| Agent.DocumentLabel | agent.py:59-63 | the reply "document" is read as a document question |
| Agent.IntentOfExamples | agent.py:59-63 | " Weather\n" is "weather", and "WEATHER." falls back to "document" |
| Agent.ClassifyIntent | agent.py:38-72 | it writes only the intent and the error. The intent is one of the two labels. A failure gives "document" and "Intent classification failed: " with the cause |
| Agent.ExtractCity | agent.py:74-99 | it writes only the city and the error. The city is the stripped reply, or "" with "City extraction failed: " on failure |
| Agent.FetchWeather | agent.py:101-116 | it writes only the record and the error. On success it stores the service's record and leaves the error as is. On failure it stores an empty record and "Weather fetch failed: " with the cause |
| Agent.FirstMissing | agent.py:161-165 | gives the first key missing from the record, or none when all are present |
| Agent.WeatherText | agent.py:161-165 | the report exists exactly when all six fields are present and starts with the city and country. Otherwise it is the `KeyError` of the first missing field |
| Agent.WeatherReply | agent.py:159-181 | a missing field gives the `KeyError` of the first missing one and the model is not asked. Otherwise the reply is the model's answer to the query and the report |
| Agent.Convert | agent.py:128-132 | a message becomes at most one chat message, with the same content and a human or ai kind following its role. A message with any other role is dropped |
| Agent.Formatted | agent.py:127-132 | the converted history is never longer than the history |
| Agent.FormattedAppend | agent.py:127-132 | conversion works message by message: it distributes over concatenation |
| Agent.FormattedKeepsTurns | agent.py:127-132 | a history of human and ai messages converts one to one, in order, keeping each message's kind and content |
| Agent.ReplayKeepsTurns | agent.py:127-132 | a session's replay from the log reaches the retrieval chain whole, pair by pair |
| Agent.FormatHistory | agent.py:127-132 | the conversion loop computes `Formatted` |
| Agent.QueryDocuments | agent.py:118-145 | it writes only the retrieval answer and the error. It stores the tool's answer for the converted history, or on failure the fixed failure answer with no sources and "RAG query failed: " |
| Agent.GenerateResponse | agent.py:147-196 | it writes only the final answer and the error. A weather question with no record gets the fixed apology. One with a record gets the model's answer about its report, or the fixed error answer with "Response generation failed: ". Any other question gets the stored answer, or "No answer available." |
| Agent.RouteIntent | agent.py:198-202 | the conditional edge goes to city extraction for "weather" and to retrieval for "document". No other label has a route |
| Agent.Next | agent.py:204-242 | every edge goes to a node of lower rank, and only the answer node ends the run |
| Agent.Apply | agent.py:38-196 | a stage that raises leaves a non-empty error. One that does not raise leaves the error unchanged. No stage changes the query or the history |
| Agent.Execute | agent.py:204-242 | a run visits at most as many nodes as its rank, starting with the given node and state |
| Agent.Invoke | agent.py:276 | a run of the graph starts at classification with the initial state, visits at most four nodes, and never changes the query or the history |
| Agent.WeatherRoute | agent.py:204-242 | a question classified as weather runs classification, city extraction, the weather fetch and the answer, each given the previous stage's state, and the run completes |
| Agent.DocumentRoute | agent.py:204-242 | a question classified as a document question runs classification, retrieval and the answer, and the run completes |
| Agent.InvokeRoutes | agent.py:204-242 | every run completes. A weather run is classification, city, weather, answer; any other run is classification, retrieval, answer. The final state is the composition of those stages |
| Agent.ErrorIffNoFault | agent.py:38-196 | the run's error is empty exactly when it started empty and no visited stage raised |
| Agent.TurnKeepsOtherBranch | agent.py:244-276 | a weather turn stores no retrieval answer. A document turn stores no city and no record. The query and history are untouched |
| Agent.AnswerNotEmpty | agent.py:181-187 | when model and retrieval answers are non-empty, so is the final answer |
| Agent.AnswerCanBeEmpty | agent.py:185-187 | an empty retrieval answer for a document question gives an empty final answer and no error |
| Agent.TurnPdf | agent.py:279-283 | the logged PDF is the tool's current PDF exactly for a document turn with an open store; otherwise there is none |
| Agent.AgentPipeline.constructor | agent.py:32-36 | a pipeline starts over a tool with no store |
| Agent.AgentPipeline.Run | agent.py:244-297 | the final state is the graph run from the empty initial state, and the intent is one of the two labels. Exactly one row is appended, holding the query, answer, intent and PDF, and any recorded PDF is the one whose collection is open. The clock advances by one. The session's replay grows by this turn, and no other replay changes |

## Left out

- The front end (`app.py`), printing, and the demo blocks are not part of this model.
- The weather client (`weather.py`) is not part of this model. It is a parameter returning a record or a failure.
- Agent.WeatherText: the record's values are taken as already-formatted strings. Python's formatting of the float temperature and wind values is not modelled.
- The prompt texts and the language-model, embedding, PDF-loading, splitting, Qdrant and flashrank libraries are not modelled. Each is a parameter returning a value or a failure. The chunking parameters (1000/200) belong to the splitter library and are not modelled.
- Rag.Ingest: ingestion is one step that stores all chunks or fails. A partially filled collection after a failed upsert is modelled as empty.
- Rag.Rerank: ids are natural numbers. Python's negative indexing, which a misbehaving ranker could trigger, is not modelled.
- Rag.RagTool.LoadPdf: the opened vector store is represented by the name of its collection.
- Common.Lower: only ASCII case mapping is modelled. The same holds for `isalnum` and `isspace`, so Unicode semantics are not captured.
- Agent.QueryDocuments: prior messages always carry a role and content. The `KeyError` for a message without them is not modelled. Because the tool's `query` catches its own failures, the failure branch is never taken inside `Run`.
- Database.ChatDatabase.GetAllSessions: creation times come from a counter that strictly increases. Millisecond ties of the real timestamps, and SQLite's order among tied rows, are not modelled.
- The table creation and column migration, SQL text and connection handling are not modelled.
- The front end's other direct write to the tool, which sets the current PDF name before each turn (app.py:198), is not modelled. It writes back the name that the front end recorded from the most recent successful load or switch.
- Concurrency is not modelled, including two callers creating the same collection at once.
- The graph library raising on a label without a route is modelled as a run that does not complete (`NoRoute`). `InvokeRoutes` proves that this never happens.

## Behaviour worth noting

- **Routing.** One might expect every label other than "weather" to go to retrieval. It does not: the conditional edge's path map has only "weather" and "document", so any other label would make the graph library raise. Classification only ever produces those two labels, so this never happens. The model follows the code (`RouteIntent`, `InvokeRoutes`).
- **Final answer.** Nothing in the code makes the final answer non-empty. It forwards whatever the model or the retrieval tool returns, so an empty reply gives an empty answer. `AnswerNotEmpty` states the condition under which the answer is non-empty, and `AnswerCanBeEmpty` shows the case where it is empty.
