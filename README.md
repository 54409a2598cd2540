# Health-Buddy backend, modelled in Dafny

Health-Buddy is a retrieval-augmented health chat. Its backend has two halves, and both are modelled here.

- **Offline ingestion run.** It extracts the text of a health document and cuts the text into word-greedy chunks of about 500 characters. It embeds the chunks 16 at a time and writes them to `embeddings.json`. It then builds a FAISS index 50 documents at a time and saves it to `faiss_index`. Each of the two files is a checkpoint that lets a rerun skip its step.
- **Chat server.** For every chat turn (`POST /generate`), the server:
  1. validates the request;
  2. either creates a chat, recording the prompt as a symptom event on the user, or loads an existing chat;
  3. saves the user's turn;
  4. retrieves up to five chunks from the index;
  5. saves a `system` turn holding that context;
  6. builds the system instruction;
  7. streams the model's answer while accumulating it;
  8. saves the `ai` turn, and only once the stream has ended.

The server also serves the symptom history (a week or month window over the per-symptom date lists), the user's profile with its flattened symptoms, user sign-up, and the transcript rendering behind the health summary.

Modules, one per component:

| module | file | models |
|---|---|---|
| `Wrappers` | wrappers.dfy | `Option`, `Result` |
| `Text` | text.dfy | `join`, `split`, `map`, `filter`, `flat` on sequences, with their laws |
| `ChatModel`, `UserModel` | chat_model.dfy, user_model.dfy | the two document schemas: enums, required fields, defaults |
| `Store` | store.dfy | the `users` and `chats` collections (class `Database`), turn saving, user sign-up |
| `SymptomHistory` | symptoms.dfy | the symptom key (`trim().toLowerCase()`), the symptoms map as an insertion-ordered entry list, and the report window |
| `UserRoutes` | user_routes.dfy | the profile, symptom-report and health-summary routes |
| `Chunker` | chunker.dfy | `splitIntoChunks` |
| `Embeddings` | embeddings.dfy | `generateEmbeddings` |
| `VectorIndex` | vector_index.dfy | `createFaissIndex`: the precomputed-vector map, the zero-vector fallback and the 50-document slices (class `FaissStore`) |
| `Ingestion` | ingestion.dfy | `main` of the ingestion run, over a workspace holding the two checkpoints (class `Workspace`) |
| `Rag` | rag.dfy | the retrieval service's module state (class `RagService`): `initializeRAG`, `retrieveContext` |
| `Prompting` | prompting.dfy | title prompt, history, context turn, system instruction, and the streaming loop |
| `Generate` | generate.dfy | the `/generate` handler |

The server's entry file and its route module each have a `/generate` handler. The two handlers are one method, `Generate.HandleTurn`. Its parameter `Variant` selects where they differ:

- the title call and its texts;
- whether a failed search is swallowed (entry file) or fails the turn (route module);
- the context turn's text and its condition (chunk count, or a non-empty joined string);
- the instruction texts.

The model fixes these points:

- **External calls are parameters.** These are the title call, the answer generator (a sequence of fragments that may throw after the last one), the similarity search, the embedding model, the disk writes, the clock (`now`) and the identifier a new chat gets.
- **Errors are values.** A request error ends a turn as `Rejected`, and nothing is written. A failure after the chat was written ends it as `Failed`. A fully streamed and saved answer ends it as `Completed`.
- **Three behaviours of the code are kept as they are.**
  - The chunker produces an empty chunk for the empty text and for a text that ends in a space.
  - The index is saved once, with no retry.
  - The route module does not turn a retrieval error into an empty context; it fails the turn.
- **An empty answer is not saved.** The schema marks `message` as a required string, and a required-string validator refuses `""`. So an answer whose fragments are all empty is not saved: the turn ends `Failed`, after the (empty) stream was sent.
- **The title returned by the route module's title helper is the whole reply object.** Whether the chat's `name` field can hold it is the parameter `storeName`.

## Model

| member | source | states |
|---|---|---|
| ChatModel.SenderRoundTrip | backend/models/Chat.js:17-21 | each sender is stored under its own name, and the enum validator accepts exactly "user", "ai" and "system" |
| ChatModel.NewChat | backend/models/Chat.js:5-15 | a new chat has an empty transcript and a timestamp of the creation time; it passes the schema exactly when the e-mail is non-empty |
| ChatModel.Push | backend/models/Chat.js:16-30 | a push adds the turn at the end and keeps the earlier turns and the other fields; the chat stays valid exactly when the turn is valid |
| UserModel.CycleTypeRoundTrip | backend/models/User.js:22-26 | each cycle type survives storage; the validator accepts only "regular", "irregular" and "unknown", so the sign-up form's "Menopause" is refused |
| Store.CycleField | backend/index.js:107 | a given cycle type is kept; a missing one becomes the enum's default |
| Store.NewUser | backend/index.js:100-110 | the new document is accepted exactly when name, e-mail and password are non-empty, age is given and the cycle type parses; an accepted document holds the request's fields, the creation time and no symptoms |
| Store.SaveChatKeepsValid | backend/models/Chat.js:9-25 | saving a chat the schema accepts keeps every stored document valid |
| Store.SaveUserKeepsValid | backend/models/User.js:9-13 | saving a valid user under the same address keeps the addresses unique |
| Store.Database.AppendTurn | backend/index.js:347-352 | a valid turn pushed and saved: only that chat changes, and only by the push; the collections stay valid |
| Store.Database.CreateUser | backend/index.js:98-119 | an invalid body gives 400 "Failed to create user"; a taken e-mail gives 400 "Email already exists"; otherwise 201 and the user is stored under the new id; nothing is stored on an error (the route module's copy at backend/routes/user.js:7-28 is identical) |
| SymptomHistory.TrimOfPadded | backend/index.js:329 | trimming removes exactly the white space around a string with no white space at its ends |
| SymptomHistory.TrimIdempotent | backend/index.js:329 | trimming twice is trimming once |
| SymptomHistory.Lower | backend/index.js:329 | lowercasing keeps the length and maps each character on its own |
| SymptomHistory.SymptomKeyIdempotent | backend/index.js:329 | the key of a key is the key itself, and a key has no white space at either end |
| SymptomHistory.Get | backend/index.js:333 | `get` finds a value exactly when the key is in the map |
| SymptomHistory.Set | backend/index.js:335 | `set` on an existing key keeps the keys and their order; a new key goes to the end |
| SymptomHistory.SetThenGet | backend/index.js:333-335 | after `set`, `get` gives the new dates for that key and the old value for every other key |
| SymptomHistory.Record | backend/index.js:333-335 | recording keeps the keys when the key exists, and otherwise appends a one-date entry |
| SymptomHistory.RecordAppendsDate | backend/index.js:329-338 | recording appends the date to the key's list (an empty list if the key is new); other keys are unchanged and keys stay unique; duplicate dates are kept |
| SymptomHistory.RecordKeepsUnique | backend/routes/response.js:41-43 | recording keeps keys unique |
| SymptomHistory.Cutoff | backend/index.js:146-149 | the cutoff is a month back for "month" and a week back for anything else |
| SymptomHistory.WindowRows | backend/index.js:151-157 | the report's rows are stored entries in stored order; each row has exactly the dates after the cutoff, in stored order, and their count; an entry has a row exactly when one of its dates is after the cutoff |
| SymptomHistory.WiderWindowReportsMore | backend/index.js:151-157 | with an earlier cutoff, every reported symptom is still reported, with at least as many dates |
| UserRoutes.AsArray | backend/index.js:182 | an array of dates is kept; a lone date is wrapped in a one-element list |
| UserRoutes.FlattenSymptoms | backend/index.js:179-184 | one `{symptom, dates}` per stored entry, in order; no symptoms field gives the empty list |
| UserRoutes.Stored | backend/models/User.js:31-35 | the schema stores every symptom's value as an array of dates |
| UserRoutes.FlattenStoredRoundTrip | backend/routes/user.js:70-75 | flattening what the schema stored gives the symptoms back unchanged |
| UserRoutes.GetUser | backend/index.js:168-189 | an unknown user gives 404; otherwise the profile has the user's fields and symptoms |
| UserRoutes.SymptomsReport | backend/routes/user.js:31-52 | an unknown user gives 404; otherwise the report has at most one row per stored symptom |
| UserRoutes.SymptomsReportRows | backend/routes/user.js:38-50 | the route's rows are the window's rows, with the cutoff chosen by the filter |
| UserRoutes.RenderTurnParses | backend/routes/user.js:103-105 | a transcript line gives back its message, labelled "User" for the user's turns and "AI" for the others, system turns included |
| UserRoutes.RenderChatLines | backend/routes/user.js:100-106 | with no multi-line message, a chat's transcript splits back into its lines; a transcript is empty exactly when the chat has no turns |
| UserRoutes.SummaryPrompt | backend/routes/user.js:109-115 | the summary prompt starts with the fixed lead and ends with the fixed tail, and the transcripts joined with "," lie between them |
| UserRoutes.SummaryPromptEmbedsHistory | backend/routes/user.js:111-113 | the transcripts can be read back out of the summary prompt |
| UserRoutes.HealthSummary | backend/routes/user.js:89-125 | an unknown user gives 404; otherwise the answer is the summary reply's text exactly when the call succeeds, and 500 when it fails |
| Text.Split | backend/pdf-process.js:35 | splitting gives at least one piece, and no piece holds the separator |
| Text.JoinSplit | backend/pdf-process.js:35-47 | splitting on a character and joining with it gives the text back |
| Text.SplitJoin | backend/routes/user.js:104 | joining pieces that lack the separator and splitting again gives the pieces back |
| Text.JoinEmpty | backend/routes/response.js:63-65 | a join with a non-empty separator is empty exactly when there is at most one part and it is empty |
| Text.ConcatEmpty | backend/index.js:438-444 | a concatenation is empty exactly when every part is empty |
| Text.FilterSelects | backend/index.js:151-157 | `filter` keeps, in order, exactly the elements that pass |
| Text.FilterMembers | backend/routes/user.js:44-50 | `filter` output is no longer than its input, and holds exactly the passing elements |
| Text.FilterMonotone | backend/index.js:154-155 | a weaker test keeps at least as many elements |
| Chunker.SplitIntoChunks | backend/pdf-process.js:34-50 | the chunks form a chunking of the text: at least one chunk; joined with single spaces they are the text; every chunk but the last reaches the size; every word boundary in a chunk lies before the size |
| Chunker.PushKeepsBoundaries | backend/pdf-process.js:40-41 | adding a word to a chunk still under the size keeps its boundaries below the size |
| Chunker.ChunkingIsUnique | backend/pdf-process.js:39-45 | the chunking is determined by the text and the size, so the closing rule is exactly "the first word that reaches the size" |
| Chunker.FirstChunk | backend/pdf-process.js:39-45 | the first chunk is a prefix of the text, cut at a space at or after the size, or at the end of the text |
| Chunker.EmptyTextGivesEmptyChunk | backend/pdf-process.js:46-49 | the empty text gives the single empty chunk |
| Embeddings.Texts | backend/pdf-process.js:183 | the texts of the records, one per record, in order |
| Embeddings.GenerateEmbeddings | backend/pdf-process.js:70-93 | it succeeds exactly when the model loads and every chunk embeds; record `i` is then chunk `i` with its vector; the batches are slices of 16 in order, all full but the last |
| Embeddings.EmbedBatch | backend/pdf-process.js:78-89 | one batch fails exactly when one of its calls fails; otherwise every chunk is paired with its vector, in input order |
| Embeddings.BatchStep | backend/pdf-process.js:74-91 | a batch that embeds in full extends the records and the batches by one slice |
| VectorIndex.ZeroVector | backend/pdf-process.js:137 | the fallback is 384 zeros |
| VectorIndex.EmbedDocuments | backend/pdf-process.js:130-139 | one vector per text, in order: the precomputed one, or zeros |
| VectorIndex.Documents | backend/pdf-process.js:101-104 | one document per chunk text, in order, each with the fixed source |
| VectorIndex.PrecomputedKeys | backend/pdf-process.js:114-117 | every chunk text, and nothing else, has a precomputed vector |
| VectorIndex.LastOccurrenceWins | backend/pdf-process.js:114-117 | for a repeated text, the vector of its last occurrence wins |
| VectorIndex.IndexUsesPrecomputedVectors | backend/pdf-process.js:130-139 | building the index never takes the zero-vector fallback; with distinct texts, document `i` gets embedding `i` |
| VectorIndex.BuildEmbeddingMap | backend/pdf-process.js:114-117 | the loop builds the precomputed map, which holds every chunk text |
| VectorIndex.FaissStore.FromDocuments | backend/pdf-process.js:151 | the store is created holding the slice's entries, embedded with the given model |
| VectorIndex.FaissStore.AddDocuments | backend/pdf-process.js:154 | the new entries go after the existing ones |
| VectorIndex.CreateFaissIndex | backend/pdf-process.js:97-167 | no chunks give null; otherwise a fresh store holds one entry per chunk, in order, with the precomputed vectors; it was created by the first slice and extended by the later ones, in slices of 50 with only the last shorter |
| VectorIndex.FirstBatch | backend/pdf-process.js:149-151 | the creating slice starts the batch record |
| VectorIndex.NextBatch | backend/pdf-process.js:145-155 | each later slice extends the entries and the batch record by the next 50 documents or fewer |
| Ingestion.Workspace.WriteEmbeddingsFile | backend/pdf-process.js:202 | a successful write leaves a complete file; a write that fails before starting leaves the file as it was; one cut off mid-way leaves a damaged file |
| Ingestion.Workspace.ComputeEmbeddings | backend/pdf-process.js:185-204 | extraction, chunking, embedding and the write, in that order; each failure stops the run at that step, and the log records how far it got; the embedding step fails exactly when the model does not load or does not embed every chunk of the text; once the text is embedded, the run succeeds exactly when the write does; on success the file holds the text's chunking with each chunk's vector |
| Ingestion.Workspace.LoadOrComputeEmbeddings | backend/pdf-process.js:180-204 | an existing file is loaded and nothing is extracted, chunked or embedded; a damaged file fails the read; an absent file is computed and written, and this succeeds exactly when the text was extracted, every chunk embeds and the write completes |
| Ingestion.Workspace.BuildIndexUnlessPresent | backend/pdf-process.js:207-217 | an existing index directory skips the index; otherwise the index is built from the records and saved, and this succeeds exactly when there are records and the save completes; no records gives the null-store error, and a failed save leaves the directory absent or damaged |
| Ingestion.Workspace.RunPipeline | backend/pdf-process.js:169-223 | the embeddings checkpoint is reused when present; no index is built when the index directory exists; an index is built only after the embeddings file is complete, and holds that file's index; a run with no error leaves both checkpoints; a run where the text is extracted, every chunk embeds and both writes complete reports no error; errors are returned, never thrown |
| Rag.PageContents | backend/services/rag.js:47 | one text per document, in order |
| Rag.RagService.constructor | backend/services/rag.js:7-8 | before `initializeRAG`, neither the model nor the store is set |
| Rag.RagService.InitializeRAG | backend/services/rag.js:18-41 | the store is set only by a successful load of the index, after the model loaded; a failed load leaves the store as it was and reports the error |
| Rag.RagService.RetrieveContext | backend/services/rag.js:43-48 | no store gives no texts; otherwise the texts are the page contents of the documents the search returns, in its order (one per document), and a search error is passed on |
| Rag.RagService.RetrievedTextsAreStored | backend/services/rag.js:43-47 | with a search that returns at most `k` stored documents, the texts are at most `k`, each the page content of a stored chunk |
| Prompting.TitlePrompt | backend/index.js:316 | the title prompt starts with the handler's fixed prefix and ends with its fixed suffix, with exactly the prompt's length between them |
| Prompting.TitlePromptEmbedsPrompt | backend/routes/response.js:28 | the prompt is embedded verbatim and determined by the title prompt |
| Prompting.History | backend/index.js:355-358 | one history entry per turn, with its message; role "user" exactly for the user's turns, "model" for the others |
| Prompting.HistoryEndsWithPrompt | backend/routes/response.js:53-59 | the history taken after the user's turn is the earlier history followed by the prompt in the user role |
| Prompting.ContextTurnMessage | backend/index.js:389-396 | the entry-file handler records a prefixed context whenever a chunk came back; the route module records the bare context when it is non-empty; a recorded message is never empty |
| Prompting.ContextTurnText | backend/index.js:389-396 | the entry-file handler's context turn reads as its fixed prefix followed by the joined chunks; the route module's reads as the joined chunks alone |
| Prompting.ContextTurns | backend/routes/response.js:65-72 | at most one context turn, a valid `system` turn |
| Prompting.ContextTurnConditionsDiffer | backend/routes/response.js:63-72 | the two handlers' conditions disagree exactly on a single empty chunk |
| Prompting.SystemInstruction | backend/index.js:399-405 | the instruction starts with the base chosen by first-message status |
| Prompting.SystemInstructionRecoversContext | backend/routes/response.js:74-80 | the instruction is the bare base exactly when there is no context; otherwise the context follows the base and the header |
| Prompting.StreamResponse | backend/index.js:438-444 | the loop writes the truthy fragment texts in arrival order, and the accumulated answer is their concatenation |
| Prompting.WrittenIsAllText | backend/routes/response.js:110-116 | skipping absent and empty fragments loses no text; the answer is empty exactly when no fragment is truthy |
| Generate.RetrieveForTurn | backend/index.js:368-384 | the entry-file handler searches for five and turns a failed search into no chunks; the route module passes the service's result and error on |
| Generate.Appended | backend/index.js:347-452 | a completed turn appends 2 or 3 turns: the user's, the context turn exactly when there is one, and the AI's |
| Generate.StoredTitle | backend/routes/response.js:28-34 | the entry-file handler names the chat with the reply's text; the route module stores the whole reply object when the chat's `name` can hold it, and otherwise has no name to store |
| Generate.CreateChat | backend/index.js:312-338 | a failed title call, or a title that cannot be stored, writes nothing and answers 500, and a usable title is never rejected; otherwise the chat is created empty under the new id, named by the title, stamped with the current time and carrying the user's e-mail, and the symptom key is recorded on the user; a key the map refuses fails the turn after the chat was created |
| Generate.OpenChat | backend/routes/response.js:14-50 | the request is rejected exactly when it is not admissible (a missing field gives 400, an unknown user or chat 404, a failed or unusable title 500), each with nothing written; an existing chat is found and nothing is written; a new chat is created, named by the title and stamped with the current time, and the symptom recorded |
| Generate.Prepared | backend/routes/response.js:52-72 | the transcript before the answer: the earlier turns, then the user's turn at the next index, then the context turn when retrieval succeeded; no AI turn |
| Generate.Prepare | backend/routes/response.js:52-72 | the user's turn is saved, the history is taken after it, and the context turn is saved after retrieval succeeds, so the chat's transcript is `Prepared` of the old one; only that chat changes |
| Generate.Converse | backend/index.js:407-452 | the AI's turn is saved, with the concatenated answer, exactly when the stream opened, did not throw, and gave a non-empty answer; otherwise nothing is saved |
| Generate.Respond | backend/routes/response.js:74-123 | the generator is sent the instruction built from the chunks, the history and the prompt; the turn completes exactly when the stream opens, ends without throwing and gives a non-empty answer, and then the answer is saved as the AI's turn; a failed one saves nothing; what was written is the stream's truthy fragments, or nothing when it did not open |
| Generate.PreparedTurns | backend/index.js:347-396 | the transcript saved before the answer, followed by the AI's turn, is the earlier transcript followed by a completed turn's turns |
| Generate.AnswerTurn | backend/routes/response.js:52-129 | on an existing chat: a failed retrieval fails the turn without asking for an answer; after a successful one, the generator gets the instruction with the retrieved context, and the turn completes exactly when the stream does; a failed turn keeps what was saved before it failed, the user's turn and the context turn when retrieval succeeded (`Prepared`); a completed turn appends user, [system], ai at the end; earlier turns and the chat's other fields are untouched |
| Generate.HandleTurn | backend/index.js:292-459 | a request is rejected exactly when it is not admissible, and error exits write nothing; only the touched chat changes; a symptom is recorded exactly on new chats; a new chat is named by the title and stamped with the current time, an existing chat keeps its name, time and e-mail; the answer is asked for exactly when the chat is open and retrieval succeeded, and the turn completes exactly when the stream does; the transcript grows by user, [system], ai on success; a failed turn keeps the user's turn and any context turn (`Prepared`), except that a symptom key the map refuses leaves the new chat empty; the generator gets the history and the prompt after the user's turn, and the instruction with the retrieved context |

## Left out

- The React frontend (dashboard, sign-up, login, app shell): it is UI code.
- The Gemini wrapper in `backend/services/gemini.js` and every Gemini call. The title call and the summary call are functions that may fail. The answer generator is a function from the request to a fragment sequence that may throw at its end.
- FAISS similarity search, the MiniLM embedding pipeline and pdf2json extraction.
  - The search is a parameter, constrained by `WellBehaved`: at most `k` stored documents. Ranking and tie-breaking are not modelled.
  - Vectors are opaque sequences of reals.
  - The extracted text is a parameter.
- MongoDB persistence is an in-memory map per collection: `findById` is a lookup and `save` an update. The chat-listing, delete and other CRUD routes are plumbing and are not part of this model. Chat lookup by e-mail for the health summary is a parameter (`chats`).
- Login and `backend/routes/login.js`: authentication is not part of this model.
- HTTP headers and server-sent-event transport are not modelled. This covers the base64 `X-Retrieved-Context` header and the overwritten `Access-Control-Expose-Headers`. The written fragments (`written`) stand for the response body.
- Calendar arithmetic (`setMonth`, `setDate`): the week and month cutoffs are parameters.
- A single clock value `now` serves for every date within one turn. In the source, each `new Date()` reads the clock separately.
- The embedding loop of a batch runs sequentially in the model. `Promise.all` in the source runs it concurrently; its results come back in input order either way.
- No concurrent turns run on one chat, and there are no races. The source has no locking.
- The memory-pressure pause and forced garbage collection between index slices.
- The wiring faults of `backend/routes/user.js` are not modelled; its route logic is. The faults are: `app` is undefined, `Chat` and `genAI` are not imported, and the symptoms path lacks its leading `/`.
- `UserRoutes.SymptomsReport`: the rows come in the order the symptoms were first recorded. The route reads a loaded document, whose map is rebuilt from a JavaScript object. Such an object lists keys that are array indices (such as "2" or "42") first, in ascending numeric order, and the other keys after them in insertion order. So a symptom "2" recorded after "headache" comes first in the source and second in the model.
- `UserRoutes.FlattenSymptoms`: lists the symptoms in the order they were first recorded, while `Object.entries` on the lean document lists array-index keys first, as for `UserRoutes.SymptomsReport`. The same holds for `UserRoutes.GetUser`, which uses it.
- `SymptomHistory.Record`: a new key goes to the end of the model's entries. In the source the map was loaded with array-index keys first, so the order of the other keys can differ. Only the order is affected, not the keys or their dates.
- `Generate.RetrieveForTurn`: both handlers read the retrieval service's store, which may be unset. The entry file keeps a store of its own, loaded by its own `initializeRAG` before the server listens, so for the entry-file handler the unset case does not arise.
- Identifiers are strings: `ObjectId` casts and their errors are not modelled.
- A `Damaged` artifact stands for a half-written file. `pathExists` reports it as present, and a later read fails.
- `Generate.Respond` and `Generate.HandleTurn`: the instruction and the title call are sent as their parts (`Instruction`, `TitleRequest`). The text of each is given by `SystemInstruction` and `TitlePrompt`, whose properties are proved separately.
- `Generate.CreateChat`: whether the route module's title reply object can be stored as the chat's `name` is the parameter `storeName`. Mongoose casting is not modelled.
- `SymptomHistory.Lower`: only ASCII capitals are lowercased. `toLowerCase` maps all of Unicode.
- `Store.Database.CreateUser`: `age` is a number or absent, and a non-numeric value is taken as absent. A duplicate key raised by a concurrent insert is the same as a taken address at the time of the check.
- `Chunker.SplitIntoChunks`: chunk lengths count characters (Unicode scalar values). The source's `.length` counts UTF-16 code units, so for text with characters beyond U+FFFF the chunks close at different words.
- The similarity ranking itself is the parameter `search`; `Rag.RagService.RetrieveContext` passes its order on.
