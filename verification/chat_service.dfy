/**
 * The chat pipeline for one visitor message: settings defaulted, intent
 * detected, an explicit request for a human answered at once, otherwise
 * retrieval and generation, and the decision to hand over to a human agent
 * when the confidence falls below the tenant's threshold.
 */
module ChatService {
  import opened Wrappers
  import opened Json
  import opened ChatDto
  import opened VectorDb
  import Intent
  import Schemas
  import Rag
  import Llm
  import Embedder

  /** The settings in force for one message, every one of them defaulted. */
  datatype Settings = Settings(
    responseStyle: string,
    maxResponseLength: real,
    language: string,
    confidenceThreshold: real,
    enabledCategories: seq<Json>,
    aiDisplayName: string)

  /** `value || fallback` on a string: an absent or empty string falls back. */
  function TextOr(value: Option<string>, fallback: string): (r: string)
    ensures value.Some? && value.value != [] ==> r == value.value
    ensures value.None? || value.value == [] ==> r == fallback
  {
    if value.Some? && value.value != [] then value.value else fallback
  }

  /** `value || fallback` on a number: an absent or zero number falls back. */
  function NumberOr(value: Option<real>, fallback: real): (r: real)
    ensures value.Some? && value.value != 0.0 ==> r == value.value
    ensures value.None? || value.value == 0.0 ==> r == fallback
  {
    if value.Some? && value.value != 0.0 then value.value else fallback
  }

  const DefaultSettings := Settings("friendly", 300.0, "vi", 0.7, [], "AI Assistant")

  /**
   * The settings of a request: each given, truthy value is kept and every
   * other one takes its default; an array is truthy even when empty.
   */
  function SettingsOf(config: Option<ChatConfig>): (r: Settings)
    ensures config.None? ==> r == DefaultSettings
    ensures config.Some? ==>
      && r.responseStyle == TextOr(config.value.responseStyle, DefaultSettings.responseStyle)
      && r.maxResponseLength == NumberOr(config.value.maxResponseLength, DefaultSettings.maxResponseLength)
      && r.language == TextOr(config.value.language, DefaultSettings.language)
      && r.confidenceThreshold == NumberOr(config.value.confidenceThreshold, DefaultSettings.confidenceThreshold)
      && r.enabledCategories == config.value.enabledCategories.GetOr([])
      && r.aiDisplayName == TextOr(config.value.aiDisplayName, DefaultSettings.aiDisplayName)
  {
    match config
    case None => DefaultSettings
    case Some(c) =>
      Settings(
        TextOr(c.responseStyle, "friendly"),
        NumberOr(c.maxResponseLength, 300.0),
        TextOr(c.language, "vi"),
        NumberOr(c.confidenceThreshold, 0.7),
        c.enabledCategories.GetOr([]),
        TextOr(c.aiDisplayName, "AI Assistant"))
  }

  /** A configured threshold of 0 cannot switch escalation off: it is read as the default 0.7. */
  lemma ZeroThresholdIsDefault(c: ChatConfig)
    requires c.confidenceThreshold == Some(0.0)
    ensures SettingsOf(Some(c)).confidenceThreshold == 0.7
  {
  }

  /** Settings sent as an array pass validation but carry nothing: every default applies. */
  lemma ArrayConfigUsesDefaults(body: Json)
    requires ValidateChatRequest(body).Success?
    requires "config" in body.fields && body.fields["config"].JArr?
    ensures SettingsOf(ValidateChatRequest(body).value.config) == DefaultSettings
  {
  }

  /** The collaborators a message reaches: the embedder, the vector store and the model. */
  datatype Services = Services(
    embed: string -> Result<Embedder.Vector, Error>,
    search: SearchRequest -> Result<seq<ScoredPoint>, Error>,
    model: Llm.ChatSession -> nat -> Llm.Outcome<Llm.ProviderReply>)

  const HandOverReply: string := "Tôi sẽ kết nối bạn với nhân viên hỗ trợ ngay. Vui lòng chờ trong giây lát!"

  /** The immediate answer to an explicit request for a human agent. */
  function HandOverResponse(elapsed: int): ChatResponse {
    ChatResponse(HandOverReply, 1.0, "escalation", true, Some("user_request"), [], 0, elapsed)
  }

  /** The category filter of the search: the detected category, or none for a general question. */
  function SearchCategory(intent: Intent.IntentResult): (r: Option<string>)
    ensures r.None? <==> intent.category == Intent.General
    ensures r.Some? ==> r.value == Intent.CategoryName(intent.category)
  {
    if intent.category != Intent.General then Some(Intent.CategoryName(intent.category)) else None
  }

  /** For any question the pipeline searches, the category filter names a document category. */
  lemma SearchCategoryIsDocumentCategory(intent: Intent.IntentResult)
    requires intent.category != Intent.Escalation
    ensures SearchCategory(intent).Some? ==> Schemas.ParseCategory(SearchCategory(intent).value).Some?
  {
  }

  /** The retrieval for a message: its tenant, its category filter, five hits. */
  function RetrieveParamsFor(req: ChatRequest): Rag.RetrieveParams {
    Rag.RetrieveParams(req.message, req.tenantSlug, SearchCategory(Intent.DetectIntent(req.message)), Some(5))
  }

  /** The generation for a message over the retrieved chunks, with the history or none. */
  function GenerateParamsFor(req: ChatRequest, chunks: seq<SearchResult>): Rag.GenerateParams {
    var s := SettingsOf(req.config);
    Rag.GenerateParams(req.message, chunks, req.conversationHistory.GetOr([]),
      Rag.GenerateConfig(s.responseStyle, s.maxResponseLength, s.language, s.aiDisplayName))
  }

  /** A retrieved chunk as reported back: its id, score, text and title (or ''). */
  function ChunkSummary(c: SearchResult): (r: RetrievedChunkSummary)
    ensures r.chunkId == c.id && r.score == c.score && r.content == c.content
  {
    RetrievedChunkSummary(c.id, c.score, c.content, StringFieldOr(c.metadata, "documentTitle", ""))
  }

  function ChunkSummaries(chunks: seq<SearchResult>): (r: seq<RetrievedChunkSummary>)
    ensures |r| == |chunks|
    ensures forall i :: 0 <= i < |chunks| ==> r[i] == ChunkSummary(chunks[i])
  {
    seq(|chunks|, i requires 0 <= i < |chunks| => ChunkSummary(chunks[i]))
  }

  /** Hand over exactly when the confidence is below the threshold; say why only then. */
  function EscalationReason(shouldEscalate: bool, chunkCount: nat): (r: Option<string>)
    ensures r.Some? <==> shouldEscalate
    ensures r == Some("no_context") <==> shouldEscalate && chunkCount == 0
    ensures r == Some("low_confidence") <==> shouldEscalate && chunkCount > 0
  {
    if !shouldEscalate then None else if chunkCount == 0 then Some("no_context") else Some("low_confidence")
  }

  /**
   * `processMessage`. `elapsed` stands for the milliseconds the call took.
   * A request for a human is answered without retrieval or generation;
   * otherwise the answer is generated from the retrieved chunks and marked
   * for hand-over when its confidence is below the threshold. A failure of
   * a collaborator is passed on.
   */
  function ProcessMessage(req: ChatRequest, services: Services, elapsed: int): (r: Result<ChatResponse, Error>)
    ensures Intent.DetectIntent(req.message).isEscalationRequest ==> r == Success(HandOverResponse(elapsed))
    ensures r.Success? && !Intent.DetectIntent(req.message).isEscalationRequest ==>
      && r.value.intent == Intent.CategoryName(Intent.DetectIntent(req.message).category)
      && (r.value.shouldEscalate <==> r.value.confidence < SettingsOf(req.config).confidenceThreshold)
      && r.value.escalationReason == EscalationReason(r.value.shouldEscalate, |r.value.retrievedChunks|)
      && r.value.processingTime == elapsed
    ensures !Intent.DetectIntent(req.message).isEscalationRequest ==>
      var retrieval := Rag.Retrieve(RetrieveParamsFor(req), services.embed, services.search);
      && (retrieval.Failure? ==> r == Failure(retrieval.error))
      && (retrieval.Success? ==>
            var generation := Rag.Generate(GenerateParamsFor(req, retrieval.value.chunks), services.model);
            && (generation.Failure? ==> r == Failure(generation.error))
            && (generation.Success? ==>
                  && r.Success?
                  && r.value.response == generation.value.response
                  && r.value.confidence == generation.value.confidence
                  && r.value.tokenUsage == generation.value.tokenUsage
                  && r.value.retrievedChunks == ChunkSummaries(retrieval.value.chunks)))
  {
    var settings := SettingsOf(req.config);
    var intent := Intent.DetectIntent(req.message);
    if intent.isEscalationRequest then Success(HandOverResponse(elapsed))
    else
      var retrieval :- Rag.Retrieve(RetrieveParamsFor(req), services.embed, services.search);
      var generation :- Rag.Generate(GenerateParamsFor(req, retrieval.chunks), services.model);
      var shouldEscalate := generation.confidence < settings.confidenceThreshold;
      Success(ChatResponse(
        generation.response,
        generation.confidence,
        Intent.CategoryName(intent.category),
        shouldEscalate,
        EscalationReason(shouldEscalate, |retrieval.chunks|),
        ChunkSummaries(retrieval.chunks),
        generation.tokenUsage,
        elapsed))
  }

  /** A request for a human never reaches the embedder, the store or the model. */
  lemma HandOverSkipsServices(req: ChatRequest, a: Services, b: Services, elapsed: int)
    requires Intent.DetectIntent(req.message).isEscalationRequest
    ensures ProcessMessage(req, a, elapsed) == ProcessMessage(req, b, elapsed)
    ensures ProcessMessage(req, a, elapsed).value.shouldEscalate
  {
  }

  /**
   * With the default threshold, a question for which nothing was found is
   * always handed over, for lack of context, whatever the model answers.
   */
  lemma NothingFoundHandsOver(req: ChatRequest, services: Services, elapsed: int)
    requires req.config.None?
    requires ProcessMessage(req, services, elapsed).Success?
    requires !Intent.DetectIntent(req.message).isEscalationRequest
    requires Rag.Retrieve(RetrieveParamsFor(req), services.embed, services.search).Success?
    requires Rag.Retrieve(RetrieveParamsFor(req), services.embed, services.search).value.chunks == []
    ensures ProcessMessage(req, services, elapsed).value.shouldEscalate
    ensures ProcessMessage(req, services, elapsed).value.escalationReason == Some("no_context")
  {
    var chunks := Rag.Retrieve(RetrieveParamsFor(req), services.embed, services.search).value.chunks;
    var generation := Rag.Generate(GenerateParamsFor(req, chunks), services.model);
    assert generation.Success?;
    assert generation.value.confidence == 0.1;
    var r := ProcessMessage(req, services, elapsed).value;
    assert r.confidence == 0.1 && |r.retrievedChunks| == 0;
    assert SettingsOf(req.config).confidenceThreshold == 0.7;
  }

  /**
   * A reply that gives the prompt's fallback answer is handed over at any
   * threshold above 0.4, even when chunks were found.
   */
  lemma FallbackAnswerHandsOver(req: ChatRequest, services: Services, elapsed: int)
    requires !Intent.DetectIntent(req.message).isEscalationRequest
    requires SettingsOf(req.config).confidenceThreshold > 0.4
    requires Rag.Retrieve(RetrieveParamsFor(req), services.embed, services.search).Success?
    requires var chunks := Rag.Retrieve(RetrieveParamsFor(req), services.embed, services.search).value.chunks;
      Rag.Generate(GenerateParamsFor(req, chunks), services.model).Success? &&
      Rag.Generate(GenerateParamsFor(req, chunks), services.model).value.response == Rag.FallbackReply
    ensures ProcessMessage(req, services, elapsed).Success?
    ensures ProcessMessage(req, services, elapsed).value.shouldEscalate
  {
    var chunks := Rag.Retrieve(RetrieveParamsFor(req), services.embed, services.search).value.chunks;
    if |chunks| > 0 {
      Rag.FallbackCapsConfidence(chunks);
    }
  }
}
