/**
 * The retrieval-augmented answer: the question is embedded and searched in
 * the tenant's part of the vector store, the hits become the context of a
 * prompt, at most ten earlier turns go along as history, and the reply is
 * given a confidence from the top scores and from whether it sounds unsure.
 */
module Rag {
  import opened Wrappers
  import opened Text
  import opened Json
  import opened VectorDb
  import opened ChatDto
  import Llm
  import Embedder

  /** Phrases whose presence in a lower-cased reply marks it as unsure. */
  const UncertaintyPhrases: seq<string> := [
    "không có đủ thông tin",
    "không biết",
    "không chắc",
    "nhân viên hỗ trợ",
    "kết nối bạn với"
  ]

  /** How many of the latest earlier turns accompany a question. */
  const MaxHistory: nat := 10

  // ---------------------------------------------------------------- retrieval

  datatype RetrieveParams = RetrieveParams(query: string, tenantSlug: string, category: Option<string>, topK: Option<int>)

  datatype Retrieval = Retrieval(chunks: seq<SearchResult>, maxScore: real)

  /** The search for a question's vector: its tenant, its category, and `topK || 5` hits. */
  function RetrieveRequest(params: RetrieveParams, vector: Embedder.Vector): SearchRequest {
    SearchRequestFor(vector, params.tenantSlug, params.category, Some(LimitOr5(params.topK)))
  }

  /**
   * `retrieve`: embed the question, search with it, and report the hits in
   * the store's order with the first hit's score as the best score (0 when
   * nothing is found). A failure of either call is passed on.
   */
  function Retrieve(params: RetrieveParams, embed: string -> Result<Embedder.Vector, Error>,
                    search: SearchRequest -> Result<seq<ScoredPoint>, Error>): (r: Result<Retrieval, Error>)
    ensures embed(params.query).Failure? ==> r == Failure(embed(params.query).error)
    ensures embed(params.query).Success? ==>
      var hits := search(RetrieveRequest(params, embed(params.query).value));
      && (hits.Failure? ==> r == Failure(hits.error))
      && (hits.Success? ==> r.Success? && r.value.chunks == MapResults(hits.value))
      && (hits.Success? && |hits.value| > 0 ==> r.value.maxScore == hits.value[0].score)
      && (hits.Success? && |hits.value| == 0 ==> r.value.maxScore == 0.0)
  {
    var vector :- embed(params.query);
    var hits :- search(RetrieveRequest(params, vector));
    Success(Retrieval(MapResults(hits), if |hits| > 0 then hits[0].score else 0.0))
  }

  /** The store ranks its hits best first. */
  ghost predicate RankedBestFirst(hits: seq<ScoredPoint>) {
    forall i, j :: 0 <= i < j < |hits| ==> hits[i].score >= hits[j].score
  }

  /**
   * Against a correct store, a retrieval returns at most `topK || 5`
   * chunks, each of the asking tenant (and of the asked category, when one
   * is given); when the store ranks best first, the best score bounds
   * every chunk's score.
   */
  lemma RetrievalStaysInTenant(c: Collection, params: RetrieveParams, embed: string -> Result<Embedder.Vector, Error>,
                               search: SearchRequest -> Result<seq<ScoredPoint>, Error>)
    requires embed(params.query).Success?
    requires search(RetrieveRequest(params, embed(params.query).value)).Success?
    requires HonoursRequest(c, RetrieveRequest(params, embed(params.query).value),
                            search(RetrieveRequest(params, embed(params.query).value)).value)
    ensures Retrieve(params, embed, search).Success?
    ensures |Retrieve(params, embed, search).value.chunks| <= LimitOr5(params.topK)
    ensures forall i :: 0 <= i < |Retrieve(params, embed, search).value.chunks| ==>
      var m := Retrieve(params, embed, search).value.chunks[i].metadata;
      && "tenantSlug" in m && m["tenantSlug"] == JStr(params.tenantSlug)
      && (params.category.Some? && params.category.value != [] ==>
            "category" in m && m["category"] == JStr(params.category.value))
    ensures RankedBestFirst(search(RetrieveRequest(params, embed(params.query).value)).value) ==>
      forall i :: 0 <= i < |Retrieve(params, embed, search).value.chunks| ==>
        Retrieve(params, embed, search).value.chunks[i].score <= Retrieve(params, embed, search).value.maxScore
  {
    var vector := embed(params.query).value;
    var hits := search(RetrieveRequest(params, vector)).value;
    forall i | 0 <= i < |hits|
      ensures var m := MapResults(hits)[i].metadata;
        && "tenantSlug" in m && m["tenantSlug"] == JStr(params.tenantSlug)
        && (params.category.Some? && params.category.value != [] ==>
              "category" in m && m["category"] == JStr(params.category.value))
    {
      SearchStaysInTenant(c, vector, params.tenantSlug, params.category, Some(LimitOr5(params.topK)), hits, i);
    }
  }

  // ------------------------------------------------------------------ history

  /** `history.slice(-10)`: the latest ten turns, or all of them when there are fewer. */
  function RecentHistory(history: seq<ConversationMessage>): (r: seq<ConversationMessage>)
    ensures |r| == if |history| < MaxHistory then |history| else MaxHistory
    ensures history == history[..|history| - |r|] + r
  {
    if |history| <= MaxHistory then history else history[|history| - MaxHistory..]
  }

  /** A visitor's turn is the user's; every other turn is the assistant's. */
  function UserRole(role: string): (r: string)
    ensures r == "user" <==> role == "visitor"
    ensures r != "user" ==> r == "assistant"
  {
    if role == "visitor" then "user" else "assistant"
  }

  /**
   * The answer budget: twice the configured length capped at 1000 tokens,
   * or 500 when the length is 0 (falsy).
   */
  function MaxTokens(maxResponseLength: real): (r: real)
    ensures maxResponseLength == 0.0 ==> r == 500.0
    ensures maxResponseLength != 0.0 ==> r <= 1000.0 && r <= 2.0 * maxResponseLength
    ensures maxResponseLength != 0.0 ==> r == 1000.0 || r == 2.0 * maxResponseLength
  {
    if maxResponseLength == 0.0 then 500.0
    else if maxResponseLength * 2.0 <= 1000.0 then maxResponseLength * 2.0
    else 1000.0
  }

  // ------------------------------------------------------------------ prompts

  datatype GenerateConfig = GenerateConfig(responseStyle: string, maxResponseLength: real, language: string, aiDisplayName: string)

  /** The reply the assistant is told to give when the context does not answer the question. */
  const FallbackReply: string := "Tôi chưa có đủ thông tin về vấn đề này. Để tôi kết nối bạn với nhân viên hỗ trợ nhé!"

  const ProfessionalStyle: string := "Chuyên nghiệp, lịch sự, sử dụng kính ngữ"
  const FriendlyStyle: string := "Thân thiện, tự nhiên, gần gũi như nhân viên CSKH"

  /** `aiDisplayName || 'AI Assistant'`. */
  function DisplayName(config: GenerateConfig): (r: string)
    ensures r != []
    ensures config.aiDisplayName != [] ==> r == config.aiDisplayName
  {
    if config.aiDisplayName == [] then "AI Assistant" else config.aiDisplayName
  }

  /** Only the exact style `professional` selects the formal style; anything else is friendly. */
  function StyleText(responseStyle: string): (r: string)
    ensures r == ProfessionalStyle <==> responseStyle == "professional"
    ensures r == FriendlyStyle <==> responseStyle != "professional"
  {
    if responseStyle == "professional" then ProfessionalStyle else FriendlyStyle
  }

  /** The opening of the system prompt: the assistant's name in quotes. */
  function PromptIntro(config: GenerateConfig): string {
    "Bạn là \"" + DisplayName(config) + "\""
  }

  // The fixed text of the system prompt, around the three parts that vary.

  const IntroTail: string := ", trợ lý AI của doanh nghiệp trên nền tảng chat trực tuyến."

  const RoleLines: seq<string> := [
    "",
    "## Vai trò",
    "- Hỗ trợ khách hàng giải đáp thắc mắc dựa trên tài liệu nội bộ"
  ]

  const StylePrefix: string := "- Phong cách: "

  const RulesOpening: seq<string> := [
    "- Ngôn ngữ: Tiếng Việt",
    "",
    "## Quy tắc BẮT BUỘC",
    "1. CHỈ sử dụng thông tin từ \"Context\" được cung cấp — KHÔNG BAO GIỜ bịa đặt"
  ]

  const FallbackRulePrefix: string := "2. Nếu Context không đủ thông tin → trả lời: \""

  const RulesClosing: seq<string> := [
    "3. Giữ câu trả lời ngắn gọn (2-4 câu). Dài hơn nếu cần giải thích chi tiết",
    "4. Có thể trích dẫn nguồn: \"Theo tài liệu [tên tài liệu]...\"",
    "5. KHÔNG đề cập đến \"Context\", \"tài liệu tham khảo\", \"hệ thống\" — nói như bạn TỰ BIẾT",
    "6. Nếu khách hỏi ngoài phạm vi (chính trị, tôn giáo, 18+) → từ chối lịch sự",
    "7. Khi trả lời danh sách, dùng bullet points cho dễ đọc"
  ]

  /**
   * The system prompt line by line: the assistant introduced by its display
   * name, its role and chosen style, Vietnamese as the language whatever
   * the configured language is, and the fixed rules, the second of which
   * quotes the fallback reply.
   */
  function SystemPromptLines(config: GenerateConfig): (r: seq<string>)
    ensures |r| == 15
    ensures r[0] == PromptIntro(config) + IntroTail
    ensures r[4] == StylePrefix + StyleText(config.responseStyle)
    ensures r[9] == FallbackRulePrefix + FallbackReply + "\""
  {
    [PromptIntro(config) + IntroTail] + RoleLines + [StylePrefix + StyleText(config.responseStyle)]
      + RulesOpening + [FallbackRulePrefix + FallbackReply + "\""] + RulesClosing
  }

  /** The system prompt: its fifteen lines joined by line breaks. */
  function SystemPrompt(config: GenerateConfig): string {
    Join(SystemPromptLines(config), "\n")
  }

  /** The system prompt opens with the quoted display name and carries the style and the fallback reply. */
  lemma SystemPromptCarries(config: GenerateConfig)
    ensures StartsWith(SystemPrompt(config), PromptIntro(config))
    ensures Contains(SystemPrompt(config), StyleText(config.responseStyle))
    ensures Contains(SystemPrompt(config), FallbackReply)
  {
    var lines := SystemPromptLines(config);
    var r := Join(lines, "\n");
    JoinStartsWithFirst(lines, "\n");
    assert StartsWith(lines[0], PromptIntro(config)) by {
      assert lines[0][..|PromptIntro(config)|] == PromptIntro(config);
    }
    StartsWithTrans(r, lines[0], PromptIntro(config));
    JoinContainsPart(lines, "\n", 4);
    ContainsInfix(StylePrefix, StyleText(config.responseStyle), []);
    assert StylePrefix + StyleText(config.responseStyle) + [] == lines[4];
    ContainsTrans(r, lines[4], StyleText(config.responseStyle));
    JoinContainsPart(lines, "\n", 9);
    ContainsInfix(FallbackRulePrefix, FallbackReply, "\"");
    ContainsTrans(r, lines[9], FallbackReply);
  }

  /** What the question is told when nothing relevant was found. */
  const NoContextNote: string := "\n\n(Không tìm thấy tài liệu liên quan — hãy cho khách biết và đề nghị kết nối nhân viên)"

  const SourceLabel: string := "] (Nguồn: "
  const RelevanceLabel: string := ", Relevance: "

  /** The heading of a context entry: its 1-based number, the document title (or `N/A`) and the relevance as a whole percentage. */
  function EntryHeading(c: SearchResult, i: nat): (r: string)
    ensures StartsWith(r, "[" + NatToString(i + 1))
  {
    var number := "[" + NatToString(i + 1);
    var rest := SourceLabel + StringFieldOr(c.metadata, "documentTitle", "N/A") + RelevanceLabel + ToFixed0(c.score * 100.0) + "%)";
    assert (number + rest)[..|number|] == number;
    number + rest
  }

  /** One context entry: the heading and, on the next line, the chunk's text. */
  function ContextEntry(c: SearchResult, i: nat): (r: string)
    ensures Contains(r, c.content)
    ensures StartsWith(r, EntryHeading(c, i))
  {
    var heading := EntryHeading(c, i);
    var r := heading + "\n" + c.content;
    assert r == heading + ("\n" + c.content);
    assert r[..|heading|] == heading;
    ContainsInfix(heading + "\n", c.content, []);
    assert heading + "\n" + c.content + [] == r;
    r
  }

  function ContextEntries(context: seq<SearchResult>): (r: seq<string>)
    ensures |r| == |context|
    ensures forall i :: 0 <= i < |context| ==> r[i] == ContextEntry(context[i], i)
  {
    seq(|context|, i requires 0 <= i < |context| => ContextEntry(context[i], i))
  }

  const ContextLabel: string := "Context:\n"
  const QuestionLabel: string := "Câu hỏi: "

  /** The user prompt: the numbered context entries and then the question, or the question with a no-context note. */
  function UserPrompt(query: string, context: seq<SearchResult>): string {
    if |context| == 0 then QuestionLabel + query + NoContextNote
    else ContextLabel + Join(ContextEntries(context), "\n\n") + "\n\n" + QuestionLabel + query
  }

  /** The prompt opens with a context block exactly when something was retrieved. */
  lemma UserPromptMarksContext(query: string, context: seq<SearchResult>)
    ensures StartsWith(UserPrompt(query, context), ContextLabel) <==> |context| > 0
  {
    var p := UserPrompt(query, context);
    if |context| == 0 {
      assert p[1] == QuestionLabel[1];
    } else {
      var head := ContextLabel + Join(ContextEntries(context), "\n\n");
      StartsWithAppend(ContextLabel, ContextLabel, Join(ContextEntries(context), "\n\n"));
      StartsWithAppend(head, ContextLabel, "\n\n");
      StartsWithAppend(head + "\n\n", ContextLabel, QuestionLabel);
      StartsWithAppend(head + "\n\n" + QuestionLabel, ContextLabel, query);
    }
  }

  /** The prompt always carries the question. */
  lemma UserPromptHoldsQuery(query: string, context: seq<SearchResult>)
    ensures Contains(UserPrompt(query, context), query)
  {
    if |context| == 0 {
      ContainsInfix(QuestionLabel, query, NoContextNote);
    } else {
      var head := ContextLabel + Join(ContextEntries(context), "\n\n") + "\n\n" + QuestionLabel;
      ContainsInfix(head, query, []);
      assert head + query + [] == UserPrompt(query, context);
    }
  }

  /** A prompt with context carries the joined context entries. */
  lemma UserPromptHoldsEntries(query: string, context: seq<SearchResult>)
    requires |context| > 0
    ensures Contains(UserPrompt(query, context), Join(ContextEntries(context), "\n\n"))
  {
    var joined := Join(ContextEntries(context), "\n\n");
    var around := ContextLabel + joined + "\n\n";
    ContainsInfix(ContextLabel, joined, "\n\n");
    ContainsFront(around, QuestionLabel);
    ContainsTrans(around + QuestionLabel, around, joined);
    ContainsFront(around + QuestionLabel, query);
    ContainsTrans(UserPrompt(query, context), around + QuestionLabel, joined);
  }

  /** The prompt carries the text of every retrieved chunk. */
  lemma UserPromptHoldsChunk(query: string, context: seq<SearchResult>, i: nat)
    requires i < |context|
    ensures Contains(UserPrompt(query, context), context[i].content)
  {
    var entries := ContextEntries(context);
    var joined := Join(entries, "\n\n");
    JoinContainsPart(entries, "\n\n", i);
    ContainsTrans(joined, entries[i], context[i].content);
    UserPromptHoldsEntries(query, context);
    ContainsTrans(UserPrompt(query, context), joined, context[i].content);
  }

  // --------------------------------------------------------------- confidence

  /** The reply sounds unsure: its lower-cased text holds an uncertainty phrase. */
  predicate Uncertain(response: string) {
    MatchesAny(Lower(response), UncertaintyPhrases)
  }

  /** The sum of the first `k` scores. */
  function TopSum(context: seq<SearchResult>, k: nat): real
    requires k <= |context|
  {
    if k == 0 then 0.0 else TopSum(context, k - 1) + context[k - 1].score
  }

  /** How many top scores the average takes: up to three. */
  function TopCount(context: seq<SearchResult>): nat {
    if |context| < 3 then |context| else 3
  }

  /** The average of the top (up to three) scores. */
  function TopAverage(context: seq<SearchResult>): real
    requires |context| > 0
  {
    TopSum(context, TopCount(context)) / (TopCount(context) as real)
  }

  /** `Math.round(x * 100) / 100`: `x` to two decimals. */
  function Round2(x: real): (r: real)
    ensures x - 0.005 < r <= x + 0.005
    ensures OnHundredths(r)
  {
    JsRound(x * 100.0) as real / 100.0
  }

  /** A whole number of hundredths. */
  predicate OnHundredths(r: real) {
    (r * 100.0).Floor as real == r * 100.0
  }

  /** Within the band, only one value is a whole number of hundredths: the rounding is determined. */
  lemma Round2Unique(x: real, y: real)
    requires x - 0.005 < y <= x + 0.005 && OnHundredths(y)
    ensures y == Round2(x)
  {
    var a := (y * 100.0).Floor;
    var b := (Round2(x) * 100.0).Floor;
    assert a as real - 1.0 < b as real < a as real + 1.0;
    assert a == b;
  }

  /** Every score lies between 0 and 1, as cosine scores of the store do for these vectors. */
  predicate ScoresInUnit(context: seq<SearchResult>) {
    forall i :: 0 <= i < |context| ==> 0.0 <= context[i].score <= 1.0
  }

  lemma {:induction false} TopSumInUnit(context: seq<SearchResult>, k: nat)
    requires k <= |context| && ScoresInUnit(context)
    ensures 0.0 <= TopSum(context, k) <= k as real
  {
    if k > 0 {
      TopSumInUnit(context, k - 1);
    }
  }

  /** Rounding to two decimals keeps a value in [0, 0.4] or [0, 1] there. */
  lemma Round2Bounds(x: real)
    ensures 0.0 <= x ==> 0.0 <= Round2(x)
    ensures x <= 0.4 ==> Round2(x) <= 0.4
    ensures x <= 1.0 ==> Round2(x) <= 1.0
  {
    var k := JsRound(x * 100.0);
    assert k as real <= x * 100.0 + 0.5;
  }

  /** With every score in [0, 1], so is the average of the top scores. */
  lemma TopAverageInUnit(context: seq<SearchResult>)
    requires |context| > 0 && ScoresInUnit(context)
    ensures 0.0 <= TopAverage(context) <= 1.0
  {
    TopSumInUnit(context, TopCount(context));
  }

  /** An unsure reply halves the average and caps it at 0.4; a sure one keeps it. */
  function Adjusted(avg: real, unsure: bool): (c: real)
    ensures unsure ==> c <= 0.4 && c <= avg * 0.5 && (c == 0.4 || c == avg * 0.5)
    ensures !unsure ==> c == avg
  {
    if !unsure then avg else if avg * 0.5 <= 0.4 then avg * 0.5 else 0.4
  }

  /**
   * `calculateConfidence`: 0.1 without context; otherwise the average of
   * the top three scores, halved and capped at 0.4 when the reply sounds
   * unsure, rounded to two decimals.
   */
  function Confidence(context: seq<SearchResult>, response: string): (r: real)
    ensures |context| == 0 ==> r == 0.1
    ensures |context| > 0 && Uncertain(response) ==> r <= 0.4
    ensures |context| > 0 ==>
      Adjusted(TopAverage(context), Uncertain(response)) - 0.005 < r <= Adjusted(TopAverage(context), Uncertain(response)) + 0.005
    ensures |context| > 0 && !Uncertain(response) ==> TopAverage(context) - 0.005 < r <= TopAverage(context) + 0.005
    ensures ScoresInUnit(context) ==> 0.0 <= r <= 1.0
    ensures OnHundredths(r)
  {
    if |context| == 0 then 0.1
    else
      var c := Adjusted(TopAverage(context), Uncertain(response));
      Round2Bounds(c);
      assert ScoresInUnit(context) ==> 0.0 <= c <= 1.0 by {
        if ScoresInUnit(context) {
          TopAverageInUnit(context);
        }
      }
      Round2(c)
  }

  /** The confidence computed with one pass over the top scores. */
  method CalculateConfidence(context: seq<SearchResult>, response: string) returns (confidence: real)
    ensures confidence == Confidence(context, response)
  {
    if |context| == 0 {
      return 0.1;
    }
    var topK := if |context| < 3 then |context| else 3;
    var total := 0.0;
    var i := 0;
    while i < topK
      invariant 0 <= i <= topK
      invariant total == TopSum(context, i)
    {
      total := total + context[i].score;
      i := i + 1;
    }
    var avg := total / (topK as real);
    confidence := Round2(Adjusted(avg, Uncertain(response)));
  }

  lemma {:induction false} TopSumPrefix(a: seq<SearchResult>, b: seq<SearchResult>, k: nat)
    requires k <= |a| && k <= |b|
    requires forall i :: 0 <= i < k ==> a[i].score == b[i].score
    ensures TopSum(a, k) == TopSum(b, k)
  {
    if k > 0 {
      TopSumPrefix(a, b, k - 1);
    }
  }

  /** Only the top three scores count: contexts agreeing on them get the same confidence. */
  lemma OnlyTopThreeCount(a: seq<SearchResult>, b: seq<SearchResult>, response: string)
    requires |a| >= 3 && |b| >= 3
    requires forall i :: 0 <= i < 3 ==> a[i].score == b[i].score
    ensures Confidence(a, response) == Confidence(b, response)
  {
    TopSumPrefix(a, b, 3);
  }

  /** The phrase `kết nối bạn với` is already lower case. */
  lemma ConnectPhraseIsLower()
    ensures Lower(UncertaintyPhrases[4]) == UncertaintyPhrases[4]
  {
    var p := UncertaintyPhrases[4];
    forall k | 0 <= k < |p|
      ensures LowerChar(p[k]) == p[k]
    {
    }
  }

  /** The fallback reply the prompt asks for is itself recognised as unsure. */
  lemma FallbackReplyIsUncertain()
    ensures Uncertain(FallbackReply)
  {
    var phrase := UncertaintyPhrases[4];
    forall k | 0 <= k < |phrase|
      ensures FallbackReply[47 + k] == phrase[k]
    {
    }
    assert FallbackReply[47..47 + |phrase|] == phrase;
    assert OccursAt(FallbackReply, phrase, 47);
    ConnectPhraseIsLower();
    LowerKeepsLowerPattern(FallbackReply, phrase);
  }

  /** Answering with the fallback reply caps the confidence at 0.4, however good the context. */
  lemma FallbackCapsConfidence(context: seq<SearchResult>)
    requires |context| > 0
    ensures Confidence(context, FallbackReply) <= 0.4
  {
    FallbackReplyIsUncertain();
  }

  /** Three strong hits and a sure reply: the confidence is their average, 0.8. */
  lemma StrongContextConfidence(context: seq<SearchResult>, response: string)
    requires |context| == 3 && context[0].score == 0.9 && context[1].score == 0.8 && context[2].score == 0.7
    requires !Uncertain(response)
    ensures Confidence(context, response) == 0.8
  {
    assert TopSum(context, 1) == 0.9;
    assert TopSum(context, 2) == 1.7;
    assert TopSum(context, 3) == 2.4;
    assert JsRound(0.8 * 100.0) == 80;
  }

  // --------------------------------------------------------------- generation

  datatype GenerateParams = GenerateParams(
    query: string,
    context: seq<SearchResult>,
    history: seq<ConversationMessage>,
    config: GenerateConfig)

  datatype Generation = Generation(response: string, confidence: real, tokenUsage: int)

  /**
   * The messages of one chat: the latest ten turns with their roles
   * renamed, then the user prompt as the user's message.
   */
  function ChatMessages(history: seq<ConversationMessage>, userPrompt: string): (r: seq<Llm.Message>)
    ensures var recent := RecentHistory(history);
      && |r| == |recent| + 1
      && (forall i :: 0 <= i < |recent| ==> r[i] == Llm.Message(UserRole(recent[i].role), recent[i].content))
      && r[|recent|] == Llm.Message("user", userPrompt)
  {
    var recent := RecentHistory(history);
    seq(|recent|, i requires 0 <= i < |recent| => Llm.Message(UserRole(recent[i].role), recent[i].content))
      + [Llm.Message("user", userPrompt)]
  }

  /** The chat handed to the model client: both prompts and the history, at temperature 0.3 within the answer budget. */
  function ChatParamsFor(params: GenerateParams): Llm.ChatParams {
    Llm.ChatParams(
      SystemPrompt(params.config),
      ChatMessages(params.history, UserPrompt(params.query, params.context)),
      Some(0.3),
      Some(MaxTokens(params.config.maxResponseLength)))
  }

  /**
   * `generate`: one chat with the model (with its rate-limit retries); the
   * reply's text and token count, and the confidence of the reply against
   * the context. A failed chat is passed on.
   */
  function Generate(params: GenerateParams, provider: Llm.ChatSession -> nat -> Llm.Outcome<Llm.ProviderReply>): (r: Result<Generation, Error>)
    ensures var reply := Llm.Chat(ChatParamsFor(params), provider);
      && (reply.Failure? ==> r == Failure(reply.error))
      && (reply.Success? ==>
            && r.Success?
            && r.value.response == reply.value.text
            && r.value.tokenUsage == reply.value.tokenUsage
            && r.value.confidence == Confidence(params.context, reply.value.text))
  {
    var reply :- Llm.Chat(ChatParamsFor(params), provider);
    Success(Generation(reply.text, Confidence(params.context, reply.text), reply.tokenUsage))
  }

  /**
   * What reaches the model: the user prompt is the message sent, under the
   * system prompt, at temperature 0.3 within the answer budget.
   */
  lemma GenerateSendsPrompt(params: GenerateParams)
    ensures Llm.StartChat(ChatParamsFor(params)).Success?
    ensures var s := Llm.StartChat(ChatParamsFor(params)).value;
      && s.sent == UserPrompt(params.query, params.context)
      && s.systemInstruction == SystemPrompt(params.config)
      && s.config == Llm.GenerationConfig(0.3, MaxTokens(params.config.maxResponseLength))
  {
    var recent := RecentHistory(params.history);
    assert |ChatParamsFor(params).messages| == |recent| + 1;
  }

  /** The history the model sees: the latest ten turns, a visitor's as the user's and every other as the model's. */
  lemma GenerateSendsHistory(params: GenerateParams)
    ensures Llm.StartChat(ChatParamsFor(params)).Success?
    ensures var s := Llm.StartChat(ChatParamsFor(params)).value;
      var recent := RecentHistory(params.history);
      && |s.history| == |recent|
      && (forall i :: 0 <= i < |recent| ==>
            s.history[i] == Llm.Turn(if recent[i].role == "visitor" then "user" else "model", recent[i].content))
  {
    var cp := ChatParamsFor(params);
    var recent := RecentHistory(params.history);
    var m := cp.messages;
    assert |m| == |recent| + 1;
    var s := Llm.StartChat(cp).value;
    forall i | 0 <= i < |recent|
      ensures s.history[i] == Llm.Turn(if recent[i].role == "visitor" then "user" else "model", recent[i].content)
    {
      assert m[i] == Llm.Message(UserRole(recent[i].role), recent[i].content);
      assert s.history[i] == Llm.Turn(Llm.ProviderRole(m[i].role), m[i].content);
    }
  }
}
