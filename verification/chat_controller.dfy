/**
 * The chat endpoint: the pipeline's answer is returned as it is; a failure
 * whose message marks a rate limit becomes a polite hand-over answer, and
 * any other failure becomes a `503 Service Unavailable`.
 */
module ChatController {
  import opened Wrappers
  import opened Text
  import opened ChatDto
  import ChatService
  import Llm

  /** The body of the `503` answer: a fixed message and the original error text. */
  datatype Unavailable = Unavailable(message: string, error: string)

  const UnavailableMessage: string := "Lỗi xử lý tin nhắn AI"

  /** `error?.message || 'Unknown error'`. */
  function ErrorText(e: Error): (r: string)
    ensures r != []
    ensures e.message != [] ==> r == e.message
  {
    if e.message == [] then "Unknown error" else e.message
  }

  /** The endpoint's rate-limit test, with its markers in the endpoint's own order. */
  predicate RateLimitText(message: string)
    ensures RateLimitText(message) <==> Llm.IsRateLimit(message)
  {
    Llm.IsRateLimitMeans(message);
    Contains(message, "429") || Contains(message, "quota") || Contains(message, "RESOURCE_EXHAUSTED")
  }

  const BusyReply: string := "Xin lỗi, hệ thống AI đang bận. Để tôi kết nối bạn với nhân viên hỗ trợ nhé!"

  /** The answer given while the model is rate-limited: nothing known, hand over at once. */
  const BusyResponse := ChatResponse(BusyReply, 0.0, "general", true, Some("ai_rate_limited"), [], 0, 0)

  /** Mapping the pipeline's outcome to the endpoint's answer. */
  function Respond(outcome: Result<ChatResponse, Error>): (r: Result<ChatResponse, Unavailable>)
    ensures outcome.Success? ==> r == Success(outcome.value)
    ensures outcome.Failure? && Llm.IsRateLimit(ErrorText(outcome.error)) ==> r == Success(BusyResponse)
    ensures outcome.Failure? && !Llm.IsRateLimit(ErrorText(outcome.error)) ==>
      r == Failure(Unavailable(UnavailableMessage, ErrorText(outcome.error)))
  {
    match outcome
    case Success(response) => Success(response)
    case Failure(e) =>
      var message := ErrorText(e);
      if RateLimitText(message) then Success(BusyResponse)
      else Failure(Unavailable(UnavailableMessage, message))
  }

  /** `POST /api/chat` for a request that passed validation and the key check. */
  function Chat(req: ChatRequest, services: ChatService.Services, elapsed: int): Result<ChatResponse, Unavailable> {
    Respond(ChatService.ProcessMessage(req, services, elapsed))
  }

  /** `Unknown error` holds none of the rate-limit markers. */
  lemma UnknownErrorIsNotRateLimit()
    ensures !Llm.IsRateLimit("Unknown error")
  {
    Llm.IsRateLimitMeans("Unknown error");
    var s := "Unknown error";
    assert forall i :: 0 <= i < |s| ==> s[i] != '4' && s[i] != 'R' && s[i] != 'q';
    forall pat: string, i | |pat| > 0 && (pat[0] == '4' || pat[0] == 'R' || pat[0] == 'q')
      ensures !OccursAt(s, pat, i)
    {
    }
  }

  /** An error without a message is a `503` carrying `Unknown error`, never the busy answer. */
  lemma MessagelessErrorIsUnavailable(e: Error)
    requires e.message == []
    ensures Respond(Failure(e)) == Failure(Unavailable(UnavailableMessage, "Unknown error"))
  {
    UnknownErrorIsNotRateLimit();
  }

  /**
   * When the model stays rate-limited through every retry, the chat does
   * not fail: the retries rethrow the last rate-limit error and the
   * endpoint turns it into the busy answer.
   */
  lemma ExhaustedRetriesGiveBusyAnswer(req: ChatRequest, services: ChatService.Services, elapsed: int)
    requires !ChatService.Intent.DetectIntent(req.message).isEscalationRequest
    requires ChatService.Rag.Retrieve(ChatService.RetrieveParamsFor(req), services.embed, services.search).Success?
    requires var chunks := ChatService.Rag.Retrieve(ChatService.RetrieveParamsFor(req), services.embed, services.search).value.chunks;
      var params := ChatService.Rag.ChatParamsFor(ChatService.GenerateParamsFor(req, chunks));
      Llm.StartChat(params).Success? &&
      forall j :: 0 <= j <= Llm.MaxRetries ==> Llm.RateLimited(services.model(Llm.StartChat(params).value)(j))
    ensures Chat(req, services, elapsed) == Success(BusyResponse)
  {
    var chunks := ChatService.Rag.Retrieve(ChatService.RetrieveParamsFor(req), services.embed, services.search).value.chunks;
    var params := ChatService.Rag.ChatParamsFor(ChatService.GenerateParamsFor(req, chunks));
    var call := services.model(Llm.StartChat(params).value);
    Llm.ExhaustionRethrowsLastError(call);
    var e := Llm.WithRetry(call).result.error;
    assert Llm.Chat(params, services.model) == Failure(e);
    assert ChatService.Rag.Generate(ChatService.GenerateParamsFor(req, chunks), services.model) == Failure(e);
    assert ChatService.ProcessMessage(req, services, elapsed) == Failure(e);
    RateLimitNamesItsError(e);
  }

  /** A rate-limit error has a message, so the endpoint tests the message itself. */
  lemma RateLimitNamesItsError(e: Error)
    requires Llm.IsRateLimit(e.message)
    ensures Respond(Failure(e)) == Success(BusyResponse)
  {
    Llm.IsRateLimitMeans(e.message);
    if Contains(e.message, "429") {
      ContainsFits(e.message, "429");
    } else if Contains(e.message, "quota") {
      ContainsFits(e.message, "quota");
    } else {
      ContainsFits(e.message, "RESOURCE_EXHAUSTED");
    }
  }
}
