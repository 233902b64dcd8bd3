/**
 * The language-model client: a bounded retry with exponential back-off on
 * rate-limit errors (429, the "Too Many Requests" status of section 4 of
 * RFC 6585, or the provider's quota errors), the split of a conversation
 * into history and last message, and the generation defaults and token
 * accounting of a reply. The provider is a parameter: `call(k)` is what the
 * k-th attempt returns.
 */
module Llm {
  import opened Wrappers
  import opened Text

  const MaxRetries: nat := 3
  const InitialDelayMs: nat := 5000

  /** What one provider call returns. */
  datatype Outcome<T> = Ok(value: T) | Err(error: Error)

  /** The markers of a rate-limit error message: the status code, the exhausted resource, the quota. */
  const StatusMarker: string := "429"
  const ExhaustedMarker: string := "RESOURCE_EXHAUSTED"
  const QuotaMarker: string := "quota"

  const RateLimitMarkers: seq<string> := [StatusMarker, ExhaustedMarker, QuotaMarker]

  /** An error message marks a rate limit when it mentions 429, the exhausted resource or the quota. */
  predicate IsRateLimit(msg: string) {
    MatchesAny(msg, RateLimitMarkers)
  }

  /** The rate-limit test is the three substring tests of the client, nothing more. */
  lemma IsRateLimitMeans(msg: string)
    ensures IsRateLimit(msg) <==> Contains(msg, "429") || Contains(msg, "RESOURCE_EXHAUSTED") || Contains(msg, "quota")
  {
    var m := RateLimitMarkers;
    MatchesAnyMeans(msg, m);
    assert |m| == 3 && m[0] == StatusMarker && m[1] == ExhaustedMarker && m[2] == QuotaMarker;
  }

  /** A call outcome that `withRetry` retries (unless it is the last attempt). */
  predicate RateLimited<T>(o: Outcome<T>) {
    o.Err? && IsRateLimit(o.error.message)
  }

  function Pow2(k: nat): (r: nat)
    ensures r >= 1
  {
    if k == 0 then 1 else 2 * Pow2(k - 1)
  }

  /** The wait before retrying after a rate limit on attempt `attempt`. */
  function BackoffDelay(attempt: nat): nat {
    InitialDelayMs * Pow2(attempt)
  }

  /** The outcome of a retried call: its result, how many calls were made, and the waits between them. */
  datatype Retry<T> = Retry(result: Result<T, Error>, calls: nat, delays: seq<nat>)

  /** Attempt `attempt` is followed by another: it hit a rate limit and was not the last attempt. */
  predicate Retries<T>(call: nat -> Outcome<T>, attempt: nat) {
    attempt < MaxRetries && RateLimited(call(attempt))
  }

  /** What a call that ends the retry hands back: its value, or its error rethrown. */
  function Settle<T>(o: Outcome<T>): (r: Result<T, Error>)
    ensures o.Ok? <==> r.Success?
    ensures o.Ok? ==> r.value == o.value
    ensures o.Err? ==> r.error == o.error
  {
    match o
    case Ok(v) => Success(v)
    case Err(e) => Failure(e)
  }

  /** The attempts `attempt`, `attempt + 1`, ... of `withRetry`. */
  function RetryFrom<T>(call: nat -> Outcome<T>, attempt: nat): (r: Retry<T>)
    requires attempt <= MaxRetries
    decreases MaxRetries - attempt
    ensures attempt < r.calls <= MaxRetries + 1
    ensures |r.delays| == r.calls - 1 - attempt
    ensures r.result == Settle(call(r.calls - 1))
  {
    if Retries(call, attempt) then
      var rest := RetryFrom(call, attempt + 1);
      Retry(rest.result, rest.calls, [BackoffDelay(attempt)] + rest.delays)
    else Retry(Settle(call(attempt)), attempt + 1, [])
  }

  /** The waits after `n` rate-limited attempts from `attempt` on: each attempt's own delay, in order. */
  function Backoffs(attempt: nat, n: nat): (r: seq<nat>)
    decreases n
    ensures |r| == n
  {
    if n == 0 then [] else [BackoffDelay(attempt)] + Backoffs(attempt + 1, n - 1)
  }

  /** The j-th wait from `attempt` on is the delay of attempt `attempt + j`: the delays double. */
  lemma {:induction false} BackoffsAt(attempt: nat, n: nat, j: nat)
    requires j < n
    decreases n
    ensures Backoffs(attempt, n)[j] == BackoffDelay(attempt + j)
    ensures j + 1 < n ==> Backoffs(attempt, n)[j + 1] == 2 * Backoffs(attempt, n)[j]
  {
    if j > 0 {
      BackoffsAt(attempt + 1, n - 1, j - 1);
    } else if n > 1 {
      BackoffsAt(attempt + 1, n - 1, 0);
    }
  }

  /**
   * Why the attempts from `attempt` stopped where they did: every call but
   * the last was retried after its own wait, and the last one was not
   * retried: it succeeded, failed otherwise, or was the final attempt.
   */
  lemma RetryFromStops<T>(call: nat -> Outcome<T>, attempt: nat, r: Retry<T>)
    requires attempt <= MaxRetries && r == RetryFrom(call, attempt)
    ensures r.delays == Backoffs(attempt, |r.delays|)
    ensures forall j :: attempt <= j < r.calls - 1 ==> Retries(call, j)
    ensures !Retries(call, r.calls - 1)
  {
    RetryFromWaits(call, attempt, r);
    RetryFromRetried(call, attempt, r);
  }

  /** The waits are those of the attempts that were retried. */
  lemma {:induction false} RetryFromWaits<T>(call: nat -> Outcome<T>, attempt: nat, r: Retry<T>)
    requires attempt <= MaxRetries && r == RetryFrom(call, attempt)
    decreases MaxRetries - attempt
    ensures r.delays == Backoffs(attempt, |r.delays|)
  {
    if Retries(call, attempt) {
      var rest := RetryFrom(call, attempt + 1);
      RetryFromWaits(call, attempt + 1, rest);
      assert r.delays == [BackoffDelay(attempt)] + rest.delays;
    }
  }

  /** Every attempt but the last was retried, and the last was not. */
  lemma {:induction false} RetryFromRetried<T>(call: nat -> Outcome<T>, attempt: nat, r: Retry<T>)
    requires attempt <= MaxRetries && r == RetryFrom(call, attempt)
    decreases MaxRetries - attempt
    ensures forall j :: attempt <= j < r.calls - 1 ==> Retries(call, j)
    ensures !Retries(call, r.calls - 1)
  {
    if Retries(call, attempt) {
      var rest := RetryFrom(call, attempt + 1);
      RetryFromRetried(call, attempt + 1, rest);
      assert r.calls == rest.calls;
      forall j | attempt <= j < r.calls - 1
        ensures Retries(call, j)
      {
        if j > attempt {
          assert attempt + 1 <= j < rest.calls - 1;
        }
      }
    } else {
      assert r.calls - 1 == attempt;
    }
  }

  /**
   * `withRetry`: the first successful value is returned unchanged; an error
   * that is not a rate limit, or a rate limit on the last attempt, is
   * rethrown as it is; every other rate limit waits and tries again.
   */
  function WithRetry<T>(call: nat -> Outcome<T>): (r: Retry<T>)
    ensures 1 <= r.calls <= MaxRetries + 1
    ensures |r.delays| == r.calls - 1
    ensures r.result.Failure? ==> call(r.calls - 1) == Err(r.result.error)
    ensures r.result.Success? ==> call(r.calls - 1) == Ok(r.result.value)
  {
    RetryFrom(call, 0)
  }

  /** The retry loop as the client runs it, one attempt per iteration. */
  method RunWithRetry<T>(call: nat -> Outcome<T>) returns (result: Result<T, Error>, calls: nat, delays: seq<nat>)
    ensures Retry(result, calls, delays) == WithRetry(call)
  {
    var attempt: nat := 0;
    delays := [];
    while attempt <= MaxRetries
      invariant attempt <= MaxRetries
      invariant WithRetry(call) == Retry(RetryFrom(call, attempt).result, RetryFrom(call, attempt).calls,
        delays + RetryFrom(call, attempt).delays)
      decreases MaxRetries - attempt
    {
      match call(attempt)
      case Ok(v) =>
        return Success(v), attempt + 1, delays;
      case Err(e) =>
        if !Retries(call, attempt) {
          return Failure(e), attempt + 1, delays;
        }
        assert delays + RetryFrom(call, attempt).delays
          == (delays + [BackoffDelay(attempt)]) + RetryFrom(call, attempt + 1).delays;
        delays := delays + [BackoffDelay(attempt)];
        attempt := attempt + 1;
    }
    assert false;
  }

  /** An error that is not a rate limit ends the retry after one call. */
  lemma NonRateLimitNotRetried<T>(call: nat -> Outcome<T>)
    requires call(0).Err? && !RateLimited(call(0))
    ensures WithRetry(call) == Retry(Failure(call(0).error), 1, [])
  {
  }

  /**
   * When every attempt is rate-limited, the client calls four times, waits
   * 5, 10 and 20 seconds in between, and rethrows the last error: the
   * `Max retries exceeded` error is never raised.
   */
  lemma ExhaustionRethrowsLastError<T>(call: nat -> Outcome<T>)
    requires forall j :: 0 <= j <= MaxRetries ==> RateLimited(call(j))
    ensures WithRetry(call).calls == 4 && WithRetry(call).delays == [5000, 10000, 20000]
    ensures WithRetry(call).result.Failure? && call(MaxRetries) == Err(WithRetry(call).result.error)
  {
    assert Pow2(1) == 2 && Pow2(2) == 4;
  }

  /** A success after some rate limits is returned unchanged, after the matching waits. */
  lemma SuccessAfterRateLimits<T>(call: nat -> Outcome<T>, k: nat)
    requires k <= MaxRetries
    requires forall j :: 0 <= j < k ==> RateLimited(call(j))
    requires call(k).Ok?
    ensures WithRetry(call).result == Success(call(k).value)
    ensures WithRetry(call).calls == k + 1
  {
  }

  /** A conversation turn handed to the client. */
  datatype Message = Message(role: string, content: string)

  /** A turn of the provider's chat history, with the provider's role names. */
  datatype Turn = Turn(role: string, text: string)

  /** The provider calls the assistant `model`; every other role is the user. */
  function ProviderRole(role: string): (r: string)
    ensures r == "model" || r == "user"
  {
    if role == "assistant" then "model" else "user"
  }

  datatype GenerationConfig = GenerationConfig(temperature: real, maxOutputTokens: real)

  /** The `??` defaults: only a missing value is replaced, an explicit 0 is kept. */
  function ConfigOf(temperature: Option<real>, maxTokens: Option<real>): (c: GenerationConfig)
    ensures c.temperature == temperature.GetOr(0.3)
    ensures c.maxOutputTokens == maxTokens.GetOr(500.0)
  {
    GenerationConfig(temperature.GetOr(0.3), maxTokens.GetOr(500.0))
  }

  datatype ChatParams = ChatParams(
    systemPrompt: string,
    messages: seq<Message>,
    temperature: Option<real>,
    maxTokens: Option<real>)

  /** What the client hands the provider for one chat: settings, history and the message sent. */
  datatype ChatSession = ChatSession(
    config: GenerationConfig,
    systemInstruction: string,
    history: seq<Turn>,
    sent: string)

  /** Reading the last message of an empty list fails with a type error. */
  const NoLastMessage := Error("Cannot read properties of undefined (reading 'content')")

  /**
   * The split in `chat`: every message but the last becomes history with the
   * provider's role names, and only the last message's content is sent.
   */
  function StartChat(params: ChatParams): (r: Result<ChatSession, Error>)
    ensures r.Success? <==> |params.messages| > 0
    ensures r.Success? ==>
      && |r.value.history| == |params.messages| - 1
      && r.value.sent == params.messages[|params.messages| - 1].content
      && r.value.config == ConfigOf(params.temperature, params.maxTokens)
  {
    var m := params.messages;
    if |m| == 0 then Failure(NoLastMessage)
    else
      var history := seq(|m| - 1, i requires 0 <= i < |m| - 1 => Turn(ProviderRole(m[i].role), m[i].content));
      Success(ChatSession(ConfigOf(params.temperature, params.maxTokens), params.systemPrompt, history, m[|m| - 1].content))
  }

  /** The client's own role name for a provider role. */
  function ClientRole(role: string): string {
    if role == "model" then "assistant" else "user"
  }

  /**
   * For conversations whose roles are `user` or `assistant`, the history and
   * the sent text give back every message except the role of the last.
   */
  lemma StartChatKeepsConversation(params: ChatParams)
    requires |params.messages| > 0
    requires forall i :: 0 <= i < |params.messages| ==>
      params.messages[i].role == "user" || params.messages[i].role == "assistant"
    ensures var s := StartChat(params).value;
      && (forall i :: 0 <= i < |s.history| ==>
        Message(ClientRole(s.history[i].role), s.history[i].text) == params.messages[i])
      && s.sent == params.messages[|params.messages| - 1].content
  {
  }

  /** The provider's token counts; either may be missing. */
  datatype Usage = Usage(promptTokenCount: Option<int>, candidatesTokenCount: Option<int>)

  datatype ProviderReply = ProviderReply(text: string, usage: Option<Usage>, finishReason: Option<string>)

  datatype LlmResponse = LlmResponse(text: string, tokenUsage: int, finishReason: string)

  /** `n || 0`: a missing count or a count of 0 both read as 0. */
  function CountOrZero(n: Option<int>): (r: int)
    ensures n.None? ==> r == 0
    ensures n.Some? ==> r == n.value
  {
    if n.None? then 0 else n.value
  }

  /** The reply the client returns for what the provider sent back. */
  function ToResponse(p: ProviderReply): (r: LlmResponse)
    ensures r.text == p.text
    ensures p.usage.None? ==> r.tokenUsage == 0
    ensures p.usage.Some? ==>
      r.tokenUsage == CountOrZero(p.usage.value.promptTokenCount) + CountOrZero(p.usage.value.candidatesTokenCount)
    ensures r.finishReason != []
    ensures p.finishReason.Some? && p.finishReason.value != [] ==> r.finishReason == p.finishReason.value
  {
    var tokens := if p.usage.None? then 0
      else CountOrZero(p.usage.value.promptTokenCount) + CountOrZero(p.usage.value.candidatesTokenCount);
    var reason := if p.finishReason.None? || p.finishReason.value == [] then "unknown" else p.finishReason.value;
    LlmResponse(p.text, tokens, reason)
  }

  /** Non-negative provider counts give a non-negative total of at least each count. */
  lemma TokenUsageAddsCounts(p: ProviderReply)
    requires p.usage.Some?
    requires p.usage.value.promptTokenCount.Some? ==> p.usage.value.promptTokenCount.value >= 0
    requires p.usage.value.candidatesTokenCount.Some? ==> p.usage.value.candidatesTokenCount.value >= 0
    ensures ToResponse(p).tokenUsage >= 0
    ensures p.usage.value.promptTokenCount.Some? ==> ToResponse(p).tokenUsage >= p.usage.value.promptTokenCount.value
  {
  }

  /** The client's answer for the outcome of a retried provider call. */
  function Reply(r: Result<ProviderReply, Error>): (o: Result<LlmResponse, Error>)
    ensures o.Success? <==> r.Success?
    ensures o.Success? ==> o.value == ToResponse(r.value)
    ensures o.Failure? ==> o.error == r.error
  {
    match r
    case Success(p) => Success(ToResponse(p))
    case Failure(e) => Failure(e)
  }

  datatype CompleteParams = CompleteParams(
    systemPrompt: string,
    userPrompt: string,
    temperature: Option<real>,
    maxTokens: Option<real>)

  /** What `complete` hands the provider: settings, instruction and the prompt. */
  datatype Completion = Completion(config: GenerationConfig, systemInstruction: string, prompt: string)

  /**
   * `complete`: one prompt with the `??` defaults, retried on rate limits.
   * `provider(c)(k)` is the provider's answer to attempt `k` for completion `c`.
   */
  function Complete(params: CompleteParams, provider: Completion -> nat -> Outcome<ProviderReply>): (r: Result<LlmResponse, Error>)
    ensures var c := Completion(ConfigOf(params.temperature, params.maxTokens), params.systemPrompt, params.userPrompt);
      var last := WithRetry(provider(c)).calls - 1;
      && (r.Success? <==> provider(c)(last).Ok?)
      && (r.Success? ==> r.value == ToResponse(provider(c)(last).value))
      && (r.Failure? ==> provider(c)(last) == Err(r.error))
  {
    var c := Completion(ConfigOf(params.temperature, params.maxTokens), params.systemPrompt, params.userPrompt);
    Reply(WithRetry(provider(c)).result)
  }

  /**
   * `chat`: an empty conversation fails before the provider is reached with
   * an error that is not a rate limit; otherwise the session is started and
   * its last message is sent with retries.
   */
  function Chat(params: ChatParams, provider: ChatSession -> nat -> Outcome<ProviderReply>): (r: Result<LlmResponse, Error>)
    ensures |params.messages| == 0 ==> r == Failure(NoLastMessage)
    ensures |params.messages| > 0 ==>
      var s := StartChat(params).value;
      var last := WithRetry(provider(s)).calls - 1;
      && (r.Success? <==> provider(s)(last).Ok?)
      && (r.Success? ==> r.value == ToResponse(provider(s)(last).value))
      && (r.Failure? ==> provider(s)(last) == Err(r.error))
  {
    match StartChat(params)
    case Failure(e) => Failure(e)
    case Success(session) => Reply(WithRetry(provider(session)).result)
  }
}
