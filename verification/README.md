# livechat-ai-be in Dafny

This project models the back end of a live-chat assistant, a NestJS service. The service answers visitor messages from a tenant's knowledge base. It has two halves.

**Chat path.**
- `ApiKeyGuard` checks the `Authorization: Bearer <key>` header.
- `ChatController.chat` calls `ChatService.processMessage`.
- `IntentService.detectIntent` classifies the message with Vietnamese and English keyword sets.
- An explicit request for a human is answered at once.
- Otherwise `RagService.retrieve` embeds the query and searches the vector store for the tenant's chunks.
- `RagService.generate` then builds a system prompt and a user prompt, sends them through `LlmService.chat`, and scores the reply's confidence.
- `LlmService.withRetry` retries rate-limited calls with exponential back-off.
- The controller turns a rate-limit failure into a polite "busy" reply.

**Document path.**
- `KnowledgeController` accepts uploads and filters them by extension.
- `KnowledgeService` stores a `pending` document and enqueues an `index-document` job.
- `KnowledgeIndexingProcessor.process` loads the text and splits it with `ChunkingService.chunk`. It then embeds, upserts and records the chunks in batches of 15, reports progress, and marks the document `indexed` or `failed`.
- Delete and reindex clean up vector points and chunk records.

**How the model is built.**
- There is one Dafny module per source file.
- Datatypes mirror the schemas and DTOs.
- Operations are pure functions over an explicit `World`: documents, chunk records, vector points and queued jobs.
- External services are parameters:
  - the embedder, vector search, language model and file readers are functions;
  - the failure of any storage or queue call is a `Faults` map from call site to an optional error.
- JavaScript semantics are written out where they matter:
  - `||` defaults treat `0` and `""` as missing;
  - `String.prototype.trim` uses the ECMAScript white-space set;
  - `lastIndexOf` and `slice` follow the language rules;
  - `Math.round` rounds half up;
  - `toFixed(0)` is modelled.

Modules and files:

| file | module | models |
|---|---|---|
| wrappers.dfy | Wrappers | `Option`, `Result`, the thrown `Error` |
| json.dfy | Json | request bodies and point payloads as JSON values |
| seqs.dfy | Seqs | concatenation and fixed-size batching |
| text.dfy | Text | JavaScript string built-ins: `includes`, `lastIndexOf`, `slice`, `trim`, `toLowerCase`, `split`, `join`, `toFixed(0)`, `Math.round` |
| schemas.dfy | Schemas | `src/knowledge/schemas/*.schema.ts` |
| queue_interfaces.dfy | QueueInterfaces | `src/queue/interfaces.ts` |
| chat_dto.dfy | ChatDto | `src/chat/chat.dto.ts` and its validation |
| chunking.dfy | Chunking | `src/knowledge/chunking.service.ts` |
| extraction.dfy | Extraction | the type dispatch of `src/knowledge/extraction.service.ts` |
| embedding.dfy | Embedder | `src/rag/embedding.service.ts` |
| vector_db.dfy | VectorDb | `src/rag/vector-db.service.ts` |
| llm.dfy | Llm | `src/rag/llm.service.ts` |
| rag.dfy | Rag | `src/rag/rag.service.ts` |
| intent.dfy | Intent | `src/intent/intent.service.ts` |
| chat_service.dfy | ChatService | `src/chat/chat.service.ts` |
| chat_controller.dfy | ChatController | `src/chat/chat.controller.ts` |
| auth_guard.dfy | AuthGuard | `src/auth/api-key.guard.ts` |
| store.dfy | Store | the shared world: MongoDB collections, the vector collection and the queue |
| indexing_processor.dfy | IndexingProcessor | `src/queue/processors/knowledge-indexing.processor.ts` |
| knowledge_service.dfy | KnowledgeService | `src/knowledge/knowledge.service.ts` |
| knowledge_controller.dfy | KnowledgeController | `src/knowledge/knowledge.controller.ts` |

## Model

| member | source | states |
|---|---|---|
| AuthGuard.CanActivate | src/auth/api-key.guard.ts:9-30 | The guard never answers "false": it either lets the request through or throws. It throws "missing header" exactly when the header is absent or empty. |
| AuthGuard.CanActivateSpec | src/auth/api-key.guard.ts:11-29 | A request passes iff its header is `Bearer `, then the configured key, then nothing or a space-led tail. The key itself must be non-empty and space-free. |
| AuthGuard.AcceptedPasses | src/auth/api-key.guard.ts:17-29 | Every header of that shape passes. Anything after the token is ignored. |
| AuthGuard.PassingIsAccepted | src/auth/api-key.guard.ts:17-29 | Every header that passes has that shape. This is the converse direction. |
| AuthGuard.DefaultKeyRejectsAll | src/auth/api-key.guard.ts:19-27 | With the default empty key (`API_KEY` unset), every request is rejected, because an empty token never passes. |
| AuthGuard.LowerCaseSchemeRejected | src/auth/api-key.guard.ts:19-21 | The scheme is compared case-sensitively, so `bearer <key>` is a format error. |
| AuthGuard.DoubleSpaceRejected | src/auth/api-key.guard.ts:17-21 | `Bearer  <key>` (two spaces) splits into an empty token and is a format error. |
| Text.SplitPieces | src/auth/api-key.guard.ts:17 | `split(' ')` yields pieces without the separator that join back to the input. |
| Schemas.ParseCategory | src/knowledge/schemas/document.schema.ts:14-20 | A category string is accepted iff it names one of pricing, technical, general and faq. Parsing inverts naming. |
| Schemas.ParseStatus | src/knowledge/schemas/document.schema.ts:34-41 | A status string is accepted iff it names one of pending, indexing, indexed and failed. Parsing inverts naming. |
| Schemas.NewDocumentRecord | src/knowledge/schemas/document.schema.ts:8-60 | Storage accepts a document iff the tenant and title are non-empty strings and the category is in the enumeration. The stored record keeps the given fields and takes the schema defaults: chunkCount 0, no indexedAt, no errorMessage. |
| Schemas.BareChunkRecord | src/knowledge/schemas/chunk.schema.ts:8-41 | A chunk record built from the required fields alone has no point id, no indexedAt and the `paragraph` chunk type. It is valid iff the tenant and the content are non-empty. |
| QueueInterfaces.IndexJobFor | src/queue/interfaces.ts:6-14 | The indexing job is named `index-document` and carries the document id, tenant, category and title, but no content. |
| ChatDto.RequiredString | src/chat/chat.dto.ts:38-49 | A required field is accepted iff it is present and a string. |
| ChatDto.OptionalString | src/chat/chat.dto.ts:12-36 | An optional string field is accepted iff it is missing, null or a string. It is reported present iff it was given. |
| ChatDto.OptionalNumber | src/chat/chat.dto.ts:17-27 | An optional number field is accepted iff it is missing, null or a number. |
| ChatDto.ParseMessage | src/chat/chat.dto.ts:4-10 | A history entry that is an object is accepted iff it has string `role` and `content` and no other keys. The role is not restricted to `visitor` and `assistant`. A nested array of messages is refused, unlike the source (see Left out). |
| ChatDto.ParseHistory | src/chat/chat.dto.ts:42-46 | A history array is accepted iff every element is, and the result keeps length and order. |
| ChatDto.ValidateChatRequest | src/chat/chat.dto.ts:38-55 | An accepted body is an object with only the four known keys and string `message` and `tenantSlug`. A non-string message or tenant is refused. History and config are present iff given. A given config is accepted only if it is valid settings, as an object or as an array of them, and an array gives no settings. |
| ChatDto.ParseConfig | src/chat/chat.dto.ts:12-36 | Settings are accepted iff they are an object with only the declared keys, each of its declared type, or an array (arrays may nest) whose every element is such. An object keeps exactly the given settings, and an array carries none. |
| ChatDto.ArrayConfigAccepted | src/chat/chat.dto.ts:51-54 | `@ValidateNested()` without `@IsObject()` lets an array of valid settings through, `[]` included. The request then has settings with every field absent. |
| ChatDto.ParseMessageJson | src/chat/chat.dto.ts:4-10 | Encoding a history entry and validating it gives the entry back. |
| ChatDto.ParseConfigJson | src/chat/chat.dto.ts:12-36 | Encoding any config and validating it gives the config back. |
| ChatDto.ParseHistoryJson | src/chat/chat.dto.ts:42-46 | Encoding any history and validating it gives the history back. |
| ChatDto.ValidateRequestJson | src/chat/chat.dto.ts:38-55 | Encoding any request and validating it gives the request back. |
| Chunking.ChunkSizeOf | src/knowledge/chunking.service.ts:23 | The chunk size is the option when it is non-zero. Otherwise it is 500, so an explicit 0 also falls back. |
| Chunking.OverlapOf | src/knowledge/chunking.service.ts:24 | The overlap is the option when it is non-zero. Otherwise it is floor(chunkSize / 5). |
| Chunking.CollapseNewlines | src/knowledge/chunking.service.ts:4 | After replacing runs of 3 or more newlines with two, no run of three newlines is left and the text is no longer. |
| Chunking.CollapseKeepsText | src/knowledge/chunking.service.ts:4 | The replacement changes only newlines: with newlines removed, input and output are equal. |
| Chunking.CollapseIdentity | src/knowledge/chunking.service.ts:4 | A text without three consecutive newlines is left unchanged. |
| Chunking.NormalizeProperties | src/knowledge/chunking.service.ts:27 | The cleaned text has no triple newline, is no longer than the input, and cleaning it again changes nothing. |
| Text.TrimIdempotent | src/knowledge/chunking.service.ts:27 | `trim` is idempotent. |
| Text.Trim | src/knowledge/chunking.service.ts:27 | The trimmed text is a slice of the input, with only ECMAScript white space cut from each end, and neither end is white space. |
| Chunking.BreakOffset | src/knowledge/chunking.service.ts:76-108 | A natural break lies past 30% of the window and inside it or at its very end (a blank line closing the window puts the break at the end), or there is none. |
| Chunking.ParagraphBreakChosen | src/knowledge/chunking.service.ts:81-84 | When a blank line lies past half the window, the break falls just after the last blank line. |
| Chunking.SentenceBreakChosen | src/knowledge/chunking.service.ts:86-99 | Otherwise, when a sentence end lies past 30%, the break falls just after a sentence end. |
| Chunking.BestBreakIsLast | src/knowledge/chunking.service.ts:90-95 | The chosen sentence end is the last one past 30% over all six terminators. |
| Chunking.SpaceChosen | src/knowledge/chunking.service.ts:101-105 | Otherwise, when a space lies past half, the break falls just after the last space. |
| Chunking.NoBreakFound | src/knowledge/chunking.service.ts:107 | When none of the three exists, no break is found and the window keeps its full end. |
| Chunking.SentenceBreakOccurrence | src/knowledge/chunking.service.ts:87 | A position is a sentence end iff one of the six terminator strings occurs there. |
| Chunking.WindowEndBounds | src/knowledge/chunking.service.ts:38-48 | Each window ends after its start and at most chunkSize later. A window that stops before the end of the text covers more than 30% of chunkSize. |
| Chunking.AsWrittenNeverFinishes | src/knowledge/chunking.service.ts:37-68 | As written, with 0 < overlap ≤ 30% of chunkSize and a text longer than chunkSize, the loop never finishes, whatever the step budget. |
| Chunking.AsWrittenFixedPoint | src/knowledge/chunking.service.ts:61-67 | As written, once a window ends at the text's end, `start = end - overlap` repeats forever. |
| Chunking.ChunkAsWrittenDivergesOnDefaults | src/knowledge/chunking.service.ts:22-68 | With default options, every input whose cleaned text is longer than 500 characters never finishes. |
| Chunking.ShortTextAgrees | src/knowledge/chunking.service.ts:29-31 | On short texts the as-written function and the corrected one agree: one chunk holding the cleaned text. |
| Chunking.NextStartAgrees | src/knowledge/chunking.service.ts:61-67 | Whenever the as-written next start advances, the corrected rule picks the same start. |
| Chunking.Windows | src/knowledge/chunking.service.ts:37-68 | The corrected loop produces a chain of windows from 0 whose last window ends at the text's end. |
| Chunking.SegmentCoversText | src/knowledge/chunking.service.ts:37-68 | Every position of the cleaned text lies in some window, so no text is skipped. |
| Chunking.WindowCountBound | src/knowledge/chunking.service.ts:37-68 | With an overlap of at most a fifth of chunkSize, there are fewer than 10 × length / chunkSize + 2 windows. Each window starts more than a tenth of chunkSize after the previous one, so the loop is linear. |
| Chunking.SegmentPieces | src/knowledge/chunking.service.ts:50-59 | Every emitted chunk is non-empty and trimmed, has at most chunkSize characters, and carries the type detected from its own content. |
| Chunking.EmitKeepsPieces | src/knowledge/chunking.service.ts:50-59 | Exactly the non-empty pieces are emitted, in order. |
| Chunking.Chunk | src/knowledge/chunking.service.ts:22-73 | The corrected segmenter returns at least one chunk with indices 0..n-1. A short cleaned text gives exactly one `paragraph` chunk, even when empty. |
| Chunking.LineEnd | src/knowledge/chunking.service.ts:5 | A line ends at or after its start and within the text, as the `m` flag's `$` does. |
| Extraction.KindOf | src/knowledge/extraction.service.ts:13-23 | The dispatch recognises exactly `pdf`, `docx`, `text` and `txt`, case-sensitively. |
| Extraction.ExtractText | src/knowledge/extraction.service.ts:12-24 | A known type reads the file with the matching reader. Any other type throws `Không hỗ trợ loại file: <type>`. |
| Extraction.ExtractionSucceedsOnKnownTypes | src/knowledge/extraction.service.ts:13-23 | With readers that never fail, extraction succeeds iff the type is one of the four. |
| Extraction.UpperCaseTypeRefused | src/knowledge/extraction.service.ts:21-22 | The type `PDF` is refused. |
| Embedder.EmbedBatch | src/rag/embedding.service.ts:25-51 | An empty input makes no provider call. Requests are the consecutive sub-batches of at most 100, in order. |
| Embedder.SendAll | src/rag/embedding.service.ts:34-48 | All sub-batches succeed iff every provider call does. Results are concatenated in sub-batch order. On failure, the failing call is the last one made. |
| Embedder.EmbedBatchComplete | src/rag/embedding.service.ts:31-50 | When the provider answers each sub-batch in full, there is one vector per text, and the number of calls is ceil(n/100). |
| Embedder.HealthCheck | src/rag/embedding.service.ts:54-62 | Healthy iff a test embedding succeeds. |
| Seqs.Batches | src/queue/processors/knowledge-indexing.processor.ts:97-98 | Batches concatenate back to the input; each holds 1..size items and all but the last hold exactly size. |
| Seqs.BatchCount | src/rag/embedding.service.ts:34 | The number of batches is ceil(n / size). |
| VectorDb.SearchFilter | src/rag/vector-db.service.ts:75-84 | The filter always starts with the tenant clause. It has a second, category, clause iff the category is a non-empty string. |
| VectorDb.LimitOr5 | src/rag/vector-db.service.ts:89 | The limit is topK when given and non-zero, else 5. |
| VectorDb.ToSearchResult | src/rag/vector-db.service.ts:93-98 | A hit keeps its id and score. Its content is the payload's non-empty string `content` or `''`. Its metadata is the whole payload or `{}`. |
| VectorDb.MapResults | src/rag/vector-db.service.ts:93-98 | Hits map one-to-one and in order. |
| VectorDb.SearchStaysInTenant | src/rag/vector-db.service.ts:69-99 | When the store honours the request, every result belongs to the tenant, and to the category when one was given. |
| VectorDb.DeleteByDocumentId | src/rag/vector-db.service.ts:102-108 | Exactly the points whose payload `documentId` matches are removed. Others stay unchanged. |
| VectorDb.DeleteIgnoresTenant | src/rag/vector-db.service.ts:105-107 | Deletion looks only at the document id, never at the tenant. |
| VectorDb.Upsert | src/rag/vector-db.service.ts:51-66 | Upserting adds or replaces exactly the given ids and leaves every other point unchanged. |
| VectorDb.UpsertLastWins | src/rag/vector-db.service.ts:58-65 | A point not overwritten later in the same batch is stored as given. |
| VectorDb.DeleteWhere | src/rag/vector-db.service.ts:103-108 | A filtered delete removes exactly the points that satisfy the filter. |
| VectorDb.EnsureCollection | src/rag/vector-db.service.ts:29-48 | The collection is created, with 768 dimensions and cosine distance, iff the listing succeeded and lacks it. A failed listing is swallowed. |
| VectorDb.HealthCheck | src/rag/vector-db.service.ts:112-119 | Healthy iff listing collections succeeds. |
| Llm.IsRateLimitMeans | src/rag/llm.service.ts:112-113 | An error is a rate limit iff its message contains `429`, `RESOURCE_EXHAUSTED` or `quota`. |
| Llm.WithRetry | src/rag/llm.service.ts:107-125 | There are between 1 and 4 calls, with one wait between consecutive calls. The result is the last call's outcome, unchanged. |
| Llm.RetryFromStops | src/rag/llm.service.ts:108-122 | Every call but the last was a rate limit on an attempt below 3. The last call is not retried. Each wait is 5000·2^attempt ms. |
| Llm.BackoffsAt | src/rag/llm.service.ts:119 | The j-th wait is 5000·2^(attempt+j), so each wait doubles the previous one. |
| Llm.RunWithRetry | src/rag/llm.service.ts:107-125 | The loop form computes the same calls, waits and result as the recursive definition. |
| Llm.NonRateLimitNotRetried | src/rag/llm.service.ts:115-117 | Any other error is rethrown after a single call, with no wait. |
| Llm.ExhaustionRethrowsLastError | src/rag/llm.service.ts:115-124 | Four rate limits in a row give 4 calls, waits of 5000, 10000 and 20000 ms, and the last call's own error. `Max retries exceeded` is never thrown. |
| Llm.SuccessAfterRateLimits | src/rag/llm.service.ts:108-110 | After k ≤ 3 rate limits, a success on call k+1 is returned unchanged. |
| Llm.ConfigOf | src/rag/llm.service.ts:74-77 | Temperature and output budget default to 0.3 and 500 only when absent (`??`). |
| Llm.StartChat | src/rag/llm.service.ts:81-87 | The session history is every message but the last, and only the last message's content is sent. An empty message list fails. |
| Llm.ProviderRole | src/rag/llm.service.ts:82 | Provider roles are only `model` or `user`. |
| Llm.StartChatKeepsConversation | src/rag/llm.service.ts:81-89 | Mapping the provider roles back recovers every earlier message, and the sent text is the last message. |
| Llm.ToResponse | src/rag/llm.service.ts:93-102 | Token usage is the sum of the prompt and candidate counts, a missing count being 0. The finish reason is never empty and defaults to `unknown`. |
| Llm.TokenUsageAddsCounts | src/rag/llm.service.ts:93-95 | With non-negative counts, usage is non-negative and at least the prompt count. |
| Llm.Complete | src/rag/llm.service.ts:28-60 | A completion succeeds iff the last retried call does. Its response is built from that reply, and a failure rethrows that call's error. |
| Llm.Chat | src/rag/llm.service.ts:63-104 | The same holds for a chat session. An empty message list throws before any call. |
| Rag.Retrieve | src/rag/rag.service.ts:38-57 | Embedding and search failures propagate. Results are the mapped hits in order. maxScore is the first hit's score, or 0 when there are none. |
| Rag.RetrievalStaysInTenant | src/rag/rag.service.ts:44-56 | When the store honours the request, at most `topK || 5` chunks come back, all of the tenant. maxScore bounds every score when the hits are ranked. |
| Rag.RecentHistory | src/rag/rag.service.ts:77-78 | The kept history is the last min(n, 10) entries. |
| Rag.UserRole | src/rag/rag.service.ts:82 | The role becomes `user` iff it was `visitor`, and `assistant` otherwise. |
| Rag.ChatMessages | src/rag/rag.service.ts:77-87 | The message list is the recent history with mapped roles, then the user prompt, so it has min(n,10)+1 entries. |
| Rag.MaxTokens | src/rag/rag.service.ts:93-95 | The budget is min(2·maxResponseLength, 1000) when the length is non-zero, else 500. |
| Rag.DisplayName | src/rag/rag.service.ts:116 | The assistant's name is the configured one when non-empty, else a non-empty default. |
| Rag.StyleText | src/rag/rag.service.ts:117-123 | The professional style is chosen iff the style is exactly `professional`. |
| Rag.SystemPromptLines | src/rag/rag.service.ts:119-133 | The prompt has 15 lines. The first names the assistant, the style line carries the chosen style, and rule 2 quotes the fallback reply. |
| Rag.SystemPromptCarries | src/rag/rag.service.ts:119-133 | The system prompt starts with the introduction and contains the style and the fallback sentence. |
| Rag.EntryHeading | src/rag/rag.service.ts:144 | Entries are numbered from 1: entry i starts with `[` and the decimal i+1. |
| Rag.ContextEntry | src/rag/rag.service.ts:142-145 | Each context entry starts with its heading and contains the chunk's content. |
| Rag.ContextEntries | src/rag/rag.service.ts:141-146 | There is one entry per retrieved chunk, in order. |
| Rag.UserPromptMarksContext | src/rag/rag.service.ts:136-148 | The user prompt opens with `Context:` iff any chunk was retrieved. |
| Rag.UserPromptHoldsQuery | src/rag/rag.service.ts:136-148 | The user prompt always contains the visitor's query. |
| Rag.UserPromptHoldsChunk | src/rag/rag.service.ts:141-148 | The user prompt contains every retrieved chunk's content. |
| Text.ToFixed0 | src/rag/rag.service.ts:144 | `toFixed(0)` writes the decimal digits of the value rounded half away from zero, with a minus sign for negatives. |
| Text.NatToString | src/rag/rag.service.ts:144 | A natural is written as decimal digits that parse back to it. |
| Rag.Round2 | src/rag/rag.service.ts:172 | The result is a whole number of hundredths, and rounding to two decimals moves a value by at most 0.005 (ties go up). |
| Rag.Round2Unique | src/rag/rag.service.ts:172 | Those two properties determine the result: any whole number of hundredths in (x − 0.005, x + 0.005] is the rounding of x. |
| Rag.Adjusted | src/rag/rag.service.ts:170 | An uncertain reply's score is min(avg/2, 0.4). A certain reply keeps avg. |
| Rag.Confidence | src/rag/rag.service.ts:152-173 | Empty context gives exactly 0.1. Otherwise the score is within 0.005 of the adjusted average of the top three. That adjusted average is min(avg/2, 0.4) for an uncertain reply, so such a reply never scores above 0.4, and the plain average for a certain one. Scores in [0,1] give a confidence in [0,1]. The confidence is always a whole number of hundredths, so with `Rag.Round2Unique` it is fixed exactly. |
| Rag.CalculateConfidence | src/rag/rag.service.ts:152-173 | The loop computes the same confidence as the functional definition. |
| Rag.TopAverageInUnit | src/rag/rag.service.ts:157-162 | The mean of the top min(n,3) scores stays in [0,1] when the scores do. |
| Rag.OnlyTopThreeCount | src/rag/rag.service.ts:157-161 | Confidence depends only on the first three scores. |
| Rag.StrongContextConfidence | src/rag/rag.service.ts:157-172 | Scores 0.9, 0.8 and 0.7 with a confident reply give 0.8. |
| Rag.FallbackReplyIsUncertain | src/rag/rag.service.ts:128 | The fallback sentence mandated by rule 2 contains `kết nối bạn với`, so it is always scored uncertain. |
| Rag.FallbackCapsConfidence | src/rag/rag.service.ts:165-170 | Replying with the fallback sentence caps confidence at 0.4. |
| Rag.Generate | src/rag/rag.service.ts:60-109 | A model failure propagates. Otherwise the reply text and token usage pass through, and confidence is scored from the context and the reply. |
| Rag.GenerateSendsPrompt | src/rag/rag.service.ts:73-96 | The model receives the system prompt as instruction, temperature 0.3, the token budget, and the user prompt as the sent message. |
| Rag.GenerateSendsHistory | src/rag/rag.service.ts:77-89 | The session history is the recent history with `visitor` as `user` and every other role as `model`. |
| Text.MatchesAnyMeans | src/intent/intent.service.ts:55-60 | A keyword set matches iff some keyword is a substring of the text. |
| Intent.Classify | src/intent/intent.service.ts:39-51 | Escalation wins whenever an escalation keyword occurs, then pricing, then technical, else general. Confidences are 0.9, 0.8, 0.8 and 0.5. isEscalationRequest holds iff the category is escalation. |
| Intent.DetectIntent | src/intent/intent.service.ts:35-52 | isEscalationRequest holds iff the category is escalation. |
| Intent.DetectIntentIgnoresTrim | src/intent/intent.service.ts:36 | Trimming never changes the result, because every keyword starts and ends with a letter. |
| Intent.DetectIntentCaseInsensitive | src/intent/intent.service.ts:36 | Lower-casing the message first never changes the result. |
| Intent.DetectIntentGeneral | src/intent/intent.service.ts:39-51 | The category is general iff no keyword of the three sets occurs in the normalised message. |
| Intent.EscalationKeywordWins | src/intent/intent.service.ts:39-41 | Any escalation keyword in the lower-cased message gives escalation with 0.9, whatever else it contains. |
| Intent.SetupHelpEscalates | src/intent/intent.service.ts:13-17 | `Cần hỗ trợ cài đặt` ("need help with setup") escalates: the substring `hỗ trợ` beats the technical keyword `cài đặt`. |
| ChatService.SettingsOf | src/chat/chat.service.ts:19-26 | Each setting is the given value when truthy, else its default: friendly, 300, vi, 0.7, [] and AI Assistant. |
| ChatService.ZeroThresholdIsDefault | src/chat/chat.service.ts:23 | A threshold of 0 is replaced by 0.7. |
| ChatService.ArrayConfigUsesDefaults | src/chat/chat.service.ts:19-26 | A request whose config is an array is served with every default setting, because an array has none of the settings' properties. |
| ChatService.SearchCategory | src/chat/chat.service.ts:53 | Retrieval is unfiltered iff the intent is general. Otherwise it filters on the intent's name. |
| ChatService.SearchCategoryIsDocumentCategory | src/chat/chat.service.ts:50-55 | A non-escalation intent's filter is a valid document category. |
| ChatService.EscalationReason | src/chat/chat.service.ts:68-72 | A reason is given iff escalating: `no_context` iff no chunk was retrieved, else `low_confidence`. |
| ChatService.ChunkSummaries | src/chat/chat.service.ts:86-91 | Retrieved chunks are summarised one-to-one and in order, keeping id, score and content. |
| ChatService.ProcessMessage | src/chat/chat.service.ts:16-95 | An escalation request gets the fixed hand-over reply. Otherwise retrieval and generation failures propagate, and shouldEscalate holds iff confidence is below the threshold. The response carries the generated text, confidence, usage and chunk summaries. |
| ChatService.HandOverSkipsServices | src/chat/chat.service.ts:31-43 | An escalation request's answer does not depend on the embedder, the store or the model. |
| ChatService.NothingFoundHandsOver | src/chat/chat.service.ts:66-72 | With default settings, retrieving nothing always escalates with `no_context`. |
| ChatService.FallbackAnswerHandsOver | src/chat/chat.service.ts:58-72 | With a threshold above 0.4, a model reply that is the fallback sentence always escalates. |
| ChatController.ErrorText | src/chat/chat.controller.ts:19 | The error text is the error's message when non-empty, else a non-empty default. |
| ChatController.Respond | src/chat/chat.controller.ts:15-42 | Success passes through unchanged. A rate-limit message gives the busy reply. Any other error becomes a 503 carrying the message. |
| ChatController.RateLimitNamesItsError | src/chat/chat.controller.ts:22-33 | Every error the retry loop classifies as a rate limit gets the busy reply: confidence 0, escalate, reason `ai_rate_limited`. |
| ChatController.ExhaustedRetriesGiveBusyAnswer | src/chat/chat.controller.ts:16-33 | When every retried model call is rate-limited, the endpoint answers with the busy reply rather than failing. |
| ChatController.UnknownErrorIsNotRateLimit | src/chat/chat.controller.ts:19-22 | The `Unknown error` default is never a rate limit. |
| ChatController.MessagelessErrorIsUnavailable | src/chat/chat.controller.ts:19-40 | An error without a message becomes a 503 carrying `Unknown error`. |
| Store.ChunksWithout | src/knowledge/knowledge.service.ts:99 | Deleting a document's chunk records keeps exactly the other documents' records. |
| Store.ChunksOfReplaced | src/queue/processors/knowledge-indexing.processor.ts:94-143 | After deleting a document's records and appending new ones, that document's records are exactly the new ones. |
| Store.AppendsOnlyKeepsOthers | src/queue/processors/knowledge-indexing.processor.ts:97-143 | Appending records of one document leaves every other document's records unchanged. |
| IndexingProcessor.ContentSource | src/queue/processors/knowledge-indexing.processor.ts:60-72 | The text is the stored content when non-empty. Otherwise it is extracted when both path and type are given, else the job fails with `Document has no content or file`. Extraction errors propagate. |
| IndexingProcessor.LoadText | src/queue/processors/knowledge-indexing.processor.ts:60-72 | Extracted text is saved back, and that save can fail. Stored content needs no save. |
| IndexingProcessor.PercentBounds | src/queue/processors/knowledge-indexing.processor.ts:146-147 | Progress is at most 100, and is 100 iff every chunk is processed. The model computes it exactly as floor(100·processed/total). |
| IndexingProcessor.PercentMonotone | src/queue/processors/knowledge-indexing.processor.ts:147 | Progress never decreases as more chunks are processed. |
| IndexingProcessor.BatchReport | src/queue/processors/knowledge-indexing.processor.ts:146-154 | A batch report is an `embedding` event with well-formed counts. It shows 100 iff all chunks are done. |
| IndexingProcessor.Payload | src/queue/processors/knowledge-indexing.processor.ts:115-122 | Each point's payload carries the tenant, document id, category, title, content and chunk index. |
| IndexingProcessor.BatchPoints | src/queue/processors/knowledge-indexing.processor.ts:110-124 | There is one point per chunk, in order, with fresh consecutive ids and the matching embedding. |
| IndexingProcessor.Records | src/queue/processors/knowledge-indexing.processor.ts:130-142 | There is one chunk record per chunk, in order. The i-th record's point id is the i-th point's id. |
| IndexingProcessor.RecordsLinked | src/queue/processors/knowledge-indexing.processor.ts:110-143 | Every stored record points at a stored point whose payload names the same document and holds the same content. |
| IndexingProcessor.StoreBatch | src/queue/processors/knowledge-indexing.processor.ts:127-154 | A batch either fails without reporting, or upserts, inserts and reports `min(i+len, total)`. |
| IndexingProcessor.Step | src/queue/processors/knowledge-indexing.processor.ts:97-155 | One loop turn takes the slice `[i, min(i+15, n))`. It reports progress only when the batch succeeds. |
| IndexingProcessor.IndexBatches | src/queue/processors/knowledge-indexing.processor.ts:97-157 | The loop processes exactly the batches of 15 in order, covering the chunk list once. |
| IndexingProcessor.RunFromBatches | src/queue/processors/knowledge-indexing.processor.ts:97-157 | A successful loop sends consecutive batches that concatenate to the chunk list, with one report per batch. |
| IndexingProcessor.RunFromKeeps | src/queue/processors/knowledge-indexing.processor.ts:97-157 | The loop never touches documents, jobs or earlier points. Its events extend the earlier ones with the batch reports in order. |
| IndexingProcessor.RunFromChunks | src/queue/processors/knowledge-indexing.processor.ts:130-143 | The loop only appends records of the job's own document, even when it fails. |
| IndexingProcessor.ChunkingReport | src/queue/processors/knowledge-indexing.processor.ts:83-88 | The first report is the well-formed `chunking` event. |
| IndexingProcessor.CompletedReport | src/queue/processors/knowledge-indexing.processor.ts:170-175 | The last report is the well-formed `completed` event. |
| IndexingProcessor.Segments | src/queue/processors/knowledge-indexing.processor.ts:78-79 | The text is split into at least one chunk, indexed 0..n-1. |
| IndexingProcessor.Finish | src/queue/processors/knowledge-indexing.processor.ts:159-175 | Marking indexed sets status `indexed`, the chunk count and indexedAt, clears the error, and reports `completed`. Other documents are untouched. |
| IndexingProcessor.MarkFailedRun | src/queue/processors/knowledge-indexing.processor.ts:178-187 | On an error the document becomes `failed` with the error's message, and the error is rethrown. A failing status save throws its own error instead. |
| IndexingProcessor.Index | src/queue/processors/knowledge-indexing.processor.ts:44-188 | A missing document throws `Document <id> not found` before any change. A failing `indexing` save throws before the try block. Other documents, the jobs and earlier points are untouched. |
| IndexingProcessor.IndexSucceeds | src/queue/processors/knowledge-indexing.processor.ts:55-175 | A successful run leaves the document indexed with its content and chunk count. Its records are exactly the new chunks, each linked to a stored point with a matching payload. |
| IndexingProcessor.IndexReportsProgress | src/queue/processors/knowledge-indexing.processor.ts:83-175 | A successful run reports chunking, one event per batch and completed. Every event is well formed and progress never decreases. |
| IndexingProcessor.ReportsOrdered | src/queue/processors/knowledge-indexing.processor.ts:146-175 | In the report pattern, progress is well formed and non-decreasing. |
| IndexingProcessor.IndexFails | src/queue/processors/knowledge-indexing.processor.ts:178-187 | Any error after the `indexing` save leaves the document `failed` with that error's message. |
| IndexingProcessor.IndexLoadFails | src/queue/processors/knowledge-indexing.processor.ts:58-72 | When the content cannot be loaded, nothing is reported and only the document's status and message change. |
| IndexingProcessor.IndexKeepsOtherChunks | src/queue/processors/knowledge-indexing.processor.ts:94-143 | Indexing one document never changes another document's chunk records. |
| KnowledgeService.InitialContent | src/knowledge/knowledge.service.ts:34-39 | Content is the given text when non-empty. Otherwise it is extracted text when path and type are both given, else null. Extraction errors propagate. |
| KnowledgeService.OrNull | src/knowledge/knowledge.service.ts:47-48 | An empty or missing path or type is stored as null. |
| KnowledgeService.Create | src/knowledge/knowledge.service.ts:24-67 | On success the new document is added and exactly one job is enqueued for it. Chunks and points never change. A failure enqueues nothing. |
| KnowledgeService.CreatedDocument | src/knowledge/knowledge.service.ts:42-62 | The created document is `pending` with the given fields and default metadata `{language: vi}`. The job names it and carries its tenant, category and title. |
| KnowledgeService.CreateSucceedsWhen | src/knowledge/knowledge.service.ts:34-62 | Creation succeeds iff content loads, the record validates, the id is new, and both the insert and the enqueue succeed. |
| KnowledgeService.EnqueueFailureStrandsDocument | src/knowledge/knowledge.service.ts:42-62 | When the enqueue fails, the document is already stored as `pending` and no job exists. |
| KnowledgeService.MatchingIds | src/knowledge/knowledge.service.ts:75-80 | The ids are exactly the matching documents', each once, newest first. |
| KnowledgeService.List | src/knowledge/knowledge.service.ts:70-81 | The listing holds exactly the documents matching the truthy filters, without repeats, sorted by createdAt descending. |
| KnowledgeService.GetById | src/knowledge/knowledge.service.ts:84-88 | Lookup succeeds iff the id exists, and otherwise throws NotFound with `Tài liệu <id> không tồn tại`. |
| KnowledgeService.Delete | src/knowledge/knowledge.service.ts:91-105 | A missing id changes nothing. Success removes the points, then the chunk records, then the document, and needs all three calls to succeed. |
| KnowledgeService.DeleteRemovesEverything | src/knowledge/knowledge.service.ts:95-102 | After a delete nothing of the document remains. Other documents, records and points are untouched. |
| KnowledgeService.DeleteStopsHalfway | src/knowledge/knowledge.service.ts:96-99 | When deleting the records fails, the points are already gone while the records and document remain. |
| KnowledgeService.Reindex | src/knowledge/knowledge.service.ts:108-130 | A missing id changes nothing. Success removes the points, resets the status to `pending` whatever it was, and enqueues one job. Chunk records are never touched. |
| KnowledgeService.ReindexLeavesRecords | src/knowledge/knowledge.service.ts:112-127 | After a reindex the old chunk records are still there but the document's points are gone. |
| KnowledgeController.ExtnameShape | src/knowledge/knowledge.controller.ts:38 | Like Node's `path.extname`, the extension is empty or a single leading dot with no other dot or slash, ending the last path component. |
| KnowledgeController.NoDotNoExtension | src/knowledge/knowledge.controller.ts:38 | A path without any dot has no extension, so it is refused by the filter. |
| KnowledgeController.ExtnameOfName | src/knowledge/knowledge.controller.ts:38 | `stem.e` has extension `.e`. |
| KnowledgeController.DotFileHasNoExtension | src/knowledge/knowledge.controller.ts:38 | A dot-file such as `.pdf` has no extension, as in Node, so it is refused. |
| KnowledgeController.FileFilter | src/knowledge/knowledge.controller.ts:44-52 | An upload is accepted iff its lower-cased extension is `.pdf`, `.docx` or `.txt`. Otherwise it is refused with the message naming the extension and the list. |
| KnowledgeController.FilterOnName | src/knowledge/knowledge.controller.ts:44-52 | `stem.e` is accepted iff `e` lower-cased is `pdf`, `docx` or `txt`. |
| KnowledgeController.StoredNameKeepsExtension | src/knowledge/knowledge.controller.ts:37-40 | The stored name, a fresh id plus the original extension, has the original's extension. |
| KnowledgeController.Receive | src/knowledge/knowledge.controller.ts:34-53 | No file passes through. A refused file fails with the filter's message, then a file over 10 MiB fails. Otherwise the file is stored under `uploads/<id><ext>`. |
| KnowledgeController.FileTypeDropsDot | src/knowledge/knowledge.controller.ts:59 | As written, the file type is the extension without its dot, with case preserved. |
| KnowledgeController.FileType | src/knowledge/knowledge.controller.ts:59 | Corrected: the type is the lower-cased extension without its dot, or `text` when there is no file. |
| KnowledgeController.AcceptedFileHasKnownType | src/knowledge/knowledge.controller.ts:44-59 | With the corrected type, every accepted file has a type the extractor dispatches on. |
| KnowledgeController.UpperCaseNamePasses | src/knowledge/knowledge.controller.ts:46-47 | `X.PDF` passes the filter. |
| KnowledgeController.UpperCaseTypeKept | src/knowledge/knowledge.controller.ts:59 | As written, `X.PDF` gets type `PDF`. |
| KnowledgeController.UpperCaseUploadFails | src/knowledge/knowledge.controller.ts:59-68 | As written, uploading `X.PDF` without body text fails inside the service with `Không hỗ trợ loại file: PDF`, and no document is created. |
| KnowledgeController.UploadParams | src/knowledge/knowledge.controller.ts:61-68 | Body content is forwarded iff non-empty (`|| undefined`). The type and path are forwarded, with no metadata. |
| KnowledgeController.UploadWith | src/knowledge/knowledge.controller.ts:55-75 | A refused file fails before the service is called. Otherwise the answer follows the service: its world, its error, and the new document's id. |
| KnowledgeController.UploadRejectsUnsupported | src/knowledge/knowledge.controller.ts:44-52 | An unsupported extension changes nothing and answers with the filter's message. |
| KnowledgeController.UploadAnswersPending | src/knowledge/knowledge.controller.ts:59-74 | A successful upload answers with the new id, `pending` and the processing message. The stored document has the derived type and the stored file's path. |
| KnowledgeController.UploadReadsAcceptedFiles | src/knowledge/knowledge.controller.ts:44-68 | With the corrected type and readers that never fail, every accepted file's content loads. |
| KnowledgeController.ListResponseOf | src/knowledge/knowledge.controller.ts:90-103 | There is one summary per document, in order, and `total` equals the number of documents returned. |
| KnowledgeController.ListDocuments | src/knowledge/knowledge.controller.ts:78-104 | The listing summarises exactly the matching documents, newest first. `total` is their number. |
| KnowledgeController.GetDocument | src/knowledge/knowledge.controller.ts:107-122 | Details exist iff the id does. Otherwise the service's NotFound is passed on. |
| KnowledgeController.DetailAgreesWithList | src/knowledge/knowledge.controller.ts:90-121 | A listed document's details repeat its list summary, plus its file type. |
| KnowledgeController.DeleteDocument | src/knowledge/knowledge.controller.ts:125-129 | The acknowledgement is `success: true` iff the service's delete succeeded. |
| KnowledgeController.DeleteAckMeansGone | src/knowledge/knowledge.controller.ts:125-129 | A positive acknowledgement means the document, its records and its points are gone. A missing id is NotFound with no change. |
| KnowledgeController.ReindexDocument | src/knowledge/knowledge.controller.ts:132-136 | The acknowledgement is `success: true` iff the service's reindex succeeded. |
| KnowledgeController.ReindexAckMeansQueued | src/knowledge/knowledge.controller.ts:132-136 | A positive acknowledgement means the document is pending and one job for it was enqueued. |
| KnowledgeController.Search | src/knowledge/knowledge.controller.ts:139-160 | Search succeeds iff retrieval does. It passes the chunks and maxScore through, and `total` is the chunk count. |
| KnowledgeController.SearchAsksTopKOr5 | src/knowledge/knowledge.controller.ts:143-148 | The store is asked for `topK || 5` results under the tenant/category filter. |
| KnowledgeController.SearchWithinLimit | src/knowledge/knowledge.controller.ts:143-159 | When the store honours the request, `total` is at most the limit and every chunk belongs to the tenant. |
| Json.StringFieldOr | src/chat/chat.service.ts:90 | A payload field is read as its string when that string is non-empty, else as the fallback. |

## Left out

- **Network services.** Gemini, Qdrant, MongoDB and BullMQ/Redis are function parameters or entries of the shared `World`. Any call of theirs may fail through the `Faults` map.
- **Ids.** uuid point ids are fresh serial numbers drawn from a counter in the world. Upload file ids and new document ids are parameters; a reused document id is a storage error.
- **Clock.** `Date.now()`, `new Date()`, `createdAt` and `processingTime` are parameters. Time is a number.
- **Waiting and logging.** The `setTimeout` back-off wait is not modelled; the delays are returned as numbers. All logging is left out.
- **Concurrency and the queue.** Worker concurrency, the queue's own retry/back-off options, worker events (`onFailed`, `onCompleted`) and job execution order are broker behaviour. The model records enqueued jobs in order.
- **Framework wiring.** `main.ts`, the `*.module.ts` files, the health controller, HTTP status codes beyond "503 with a body", and the env parsing in `configuration.ts` are left out. Only its defaults are used: an empty API key, `./uploads` and 10 MiB.
- **Floating point.** Scores and confidences are exact reals. `Math.round(x*100)/100` is modelled as rounding half up on reals, and `toFixed(0)` as rounding half away from zero. IEEE-754 representation error is not modelled.
- IndexingProcessor.Percent: computes progress exactly as floor(100·processed/total), on integers. The source computes `Math.floor((processed / total) * 100)` in doubles, which can come out one lower: 285 of 500 gives 56 there and 57 here. Bounds, reaching 100 exactly when done, and monotonicity hold for both computations.
- **Unicode.** `toLowerCase` covers ASCII, Latin-1 and the Vietnamese letters (Đ, Ă, Ơ, Ư and U+1EA0–U+1EF9). Other characters are left unchanged. Strings are sequences of code points, and the source's literals are all in the Basic Multilingual Plane.
- **File parsing.** pdf-parse, mammoth and `fs.readFileSync` are an abstract `Reader` per file kind that may fail. Files written by the upload interceptor are not modelled. A file left on disk after a failed upload is not tracked.
- **System prompt prose.** The system prompt's wording is kept as 15 constant lines. Only the name, style and fallback sentence are reasoned about.
- **MongoDB details.** Ordering ties among equal `createdAt` values are left to the implementation. `findById` on a malformed id is treated as "not found". `timestamps: true` `updatedAt` is not modelled. The compound indexes are not modelled; none of them is unique, so the model never rejects a duplicate `(documentId, chunkIndex)`.
- **Untyped bodies.** The knowledge controller's `@Body()` objects have no validation pipe. Their fields are modelled as already being strings, or an optional string for `content`, and an optional number for `topK`.
- **Validation messages.** The class-validator error texts are not modelled; a rejected chat request carries a short description.
- Chunking.DetectChunkType: its contract is the definition through the title, list and code cue predicates. Only `Chunking.SegmentPieces` relates it to the emitted chunks. The title regular expression is modelled as it is written: a line of at most 51 characters starting with A–Z or a character in U+00C0–U+024F. That range also holds lower-case letters and the signs × and ÷.
- ChatDto.ParseMessage: refuses a history element that is itself an array of messages. The source's nested validation accepts it, checking it message by message. Downstream such an element has no `role` or `content` (both read as undefined), and the message type cannot represent that.
- ChatDto.ValidateChatRequest: inherits that refusal, so a history with a nested array of messages is refused here and accepted by the source. Config arrays are accepted as in the source.
- Embedder.EmbedBatch: requests are stated as a prefix of the sub-batches. The number of calls is proved only when the provider answers every sub-batch in full (`Embedder.EmbedBatchComplete`).
- IndexingProcessor.Index: vector points of an earlier indexing of the same document are not deleted by the processor, which matches the source. The model states only that points below the counter are kept.

## Findings

| source | as written | input that shows it | evidently intended | confidence | as-written member | corrected member |
|---|---|---|---|---|---|---|
| src/knowledge/chunking.service.ts:61-67 | After each window, `start = end - overlap`. The guard resets `start = end` only when `start <= end - chunkSize`, which never holds for 0 < overlap < chunkSize. Once a window ends at the text's end, the same window is cut forever. | Any text whose cleaned form is longer than 500 characters, with default options, for example 600 letters `a`. | The loop stops after the window that reaches the end of the text, and `start` always advances. | not executed; high | Chunking.AsWrittenNeverFinishes | Chunking.Chunk |
| src/knowledge/knowledge.controller.ts:59 | The filter lower-cases the extension (line 46), but `fileType` keeps its case. The extractor's dispatch (src/knowledge/extraction.service.ts:13-23) is case-sensitive. | Uploading `X.PDF` without body text: the filter accepts it, and creation throws `Không hỗ trợ loại file: PDF`. | Every file the filter accepts is extracted, so `fileType` is lower-cased too. | not executed; medium | KnowledgeController.UpperCaseUploadFails | KnowledgeController.Upload |

The corrected segmenter is `Chunking.Chunk`. Its properties are stated by:
- `Chunking.SegmentPieces`;
- `Chunking.SegmentCoversText`;
- `Chunking.WindowCountBound`;
- `Chunking.ShortTextAgrees`.

The indexing processor uses it.

The corrected upload is `KnowledgeController.Upload`. It uses `KnowledgeController.FileType`, and its properties are stated by:
- `KnowledgeController.AcceptedFileHasKnownType`;
- `KnowledgeController.UploadReadsAcceptedFiles`.
