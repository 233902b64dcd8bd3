/**
 * The keyword intent classifier: a message is lower-cased and trimmed, then
 * matched against three keyword sets in a fixed priority order, escalation
 * first, then pricing, then technical, with `general` as the fallback.
 * Matching is plain substring containment, not whole-word.
 */
module Intent {
  import opened Text

  datatype Category = Pricing | Technical | General | Escalation

  /** The category's name in the classifier's result. */
  function CategoryName(c: Category): string {
    match c
    case Pricing => "pricing"
    case Technical => "technical"
    case General => "general"
    case Escalation => "escalation"
  }

  datatype IntentResult = IntentResult(isEscalationRequest: bool, category: Category, confidence: real)

  const EscalationKeywords: seq<string> := [
    "người", "nhân viên", "hỗ trợ", "human", "agent",
    "tư vấn viên", "chuyên viên", "nói chuyện với người",
    "gặp nhân viên", "kết nối nhân viên", "chuyển cho"]

  const PricingKeywords: seq<string> := [
    "giá", "bao nhiêu", "price", "cost", "phí",
    "gói", "package", "thanh toán", "payment", "chi phí",
    "báo giá", "bảng giá", "khuyến mãi", "giảm giá"]

  const TechnicalKeywords: seq<string> := [
    "lỗi", "bug", "error", "không hoạt động", "hỏng",
    "cài đặt", "setup", "cấu hình", "config", "kết nối",
    "không được", "bị lỗi", "trục trặc", "sự cố",
    "hướng dẫn", "cách dùng", "cách sử dụng"]

  /** The priority classifier on an already normalised text. */
  function Classify(text: string): (r: IntentResult)
    ensures r.isEscalationRequest <==> r.category == Escalation
    ensures r.category == Escalation <==> MatchesAny(text, EscalationKeywords)
    ensures r.category == Pricing <==>
      !MatchesAny(text, EscalationKeywords) && MatchesAny(text, PricingKeywords)
    ensures r.category == Technical <==>
      !MatchesAny(text, EscalationKeywords) && !MatchesAny(text, PricingKeywords)
      && MatchesAny(text, TechnicalKeywords)
    ensures r.confidence == (match r.category
      case Escalation => 0.9
      case Pricing => 0.8
      case Technical => 0.8
      case General => 0.5)
  {
    if MatchesAny(text, EscalationKeywords) then IntentResult(true, Escalation, 0.9)
    else if MatchesAny(text, PricingKeywords) then IntentResult(false, Pricing, 0.8)
    else if MatchesAny(text, TechnicalKeywords) then IntentResult(false, Technical, 0.8)
    else IntentResult(false, General, 0.5)
  }

  /** `detectIntent`: classify the lower-cased, trimmed message. */
  function DetectIntent(message: string): (r: IntentResult)
    ensures r.isEscalationRequest <==> r.category == Escalation
  {
    Classify(Trim(Lower(message)))
  }

  /** A message is `general` exactly when it holds none of the keywords of the three sets. */
  lemma DetectIntentGeneral(message: string)
    ensures DetectIntent(message).category == General <==>
      forall i :: 0 <= i < |EscalationKeywords + PricingKeywords + TechnicalKeywords| ==>
        !Contains(Trim(Lower(message)), (EscalationKeywords + PricingKeywords + TechnicalKeywords)[i])
  {
    AllKeywordsSplit(Trim(Lower(message)));
    MatchesAnyMeans(Trim(Lower(message)), EscalationKeywords + PricingKeywords + TechnicalKeywords);
  }

  /** Missing every keyword of the three sets is missing each set's keywords. */
  lemma AllKeywordsSplit(text: string)
    ensures MatchesAny(text, EscalationKeywords + PricingKeywords + TechnicalKeywords) <==>
      MatchesAny(text, EscalationKeywords) || MatchesAny(text, PricingKeywords) || MatchesAny(text, TechnicalKeywords)
  {
    MatchesAnyAppend(text, EscalationKeywords, PricingKeywords);
    MatchesAnyAppend(text, EscalationKeywords + PricingKeywords, TechnicalKeywords);
  }

  /** A letter of the keyword alphabet: ASCII lower case or a Latin or Vietnamese letter. */
  predicate IsLetter(c: char) {
    ('a' <= c <= 'z') || ('\U{00C0}' <= c <= '\U{024F}') || ('\U{1E00}' <= c <= '\U{1EFF}')
  }

  lemma LetterIsNotSpace(c: char)
    requires IsLetter(c)
    ensures !IsJsSpace(c)
  {
  }

  /** A keyword that the classifier can find: non-empty, starting and ending with a letter. */
  predicate Keyword(k: string) {
    k != [] && IsLetter(k[0]) && IsLetter(k[|k| - 1])
  }

  predicate KeywordsWellFormed(keywords: seq<string>) {
    forall i :: 0 <= i < |keywords| ==> Keyword(keywords[i])
  }

  lemma EscalationKeywordsWellFormed()
    ensures KeywordsWellFormed(EscalationKeywords)
  {
  }

  lemma PricingKeywordsWellFormed()
    ensures KeywordsWellFormed(PricingKeywords)
  {
  }

  lemma TechnicalKeywordsWellFormed()
    ensures KeywordsWellFormed(TechnicalKeywords)
  {
  }

  /** An occurrence inside the trimmed text is an occurrence in the text. */
  lemma OccursOutsideTrim(s: string, r: string, a: int, k: string, i: int)
    requires TrimmedAt(s, r, a) && OccursAt(r, k, i)
    ensures OccursAt(s, k, a + i)
  {
    TrimmedAtIndex(s, r, a);
    assert s[a + i..a + i + |k|] == r[i..i + |k|];
  }

  lemma TrimmedAtIndex(s: string, r: string, a: int)
    requires TrimmedAt(s, r, a)
    ensures forall x :: 0 <= x < |r| ==> s[a + x] == r[x]
  {
    forall x | 0 <= x < |r|
      ensures s[a + x] == r[x]
    {
      assert s[a..a + |r|][x] == r[x];
    }
  }

  /** An occurrence of a keyword in the text lies inside the trimmed text. */
  lemma OccursInsideTrim(s: string, r: string, a: int, k: string, i: int)
    requires TrimmedAt(s, r, a) && Keyword(k) && OccursAt(s, k, i)
    ensures OccursAt(r, k, i - a)
  {
    assert s[i] == k[0];
    assert s[i + |k| - 1] == k[|k| - 1];
    LetterIsNotSpace(k[0]);
    LetterIsNotSpace(k[|k| - 1]);
    assert a <= i;
    assert i + |k| <= a + |r|;
    TrimmedAtIndex(s, r, a);
    assert r[i - a..i - a + |k|] == s[i..i + |k|];
  }

  /**
   * Trimming never changes whether a keyword occurs: a keyword starts and ends
   * with a letter, so any occurrence lies inside the trimmed text.
   */
  lemma ContainsTrim(s: string, k: string)
    requires Keyword(k)
    ensures Contains(Trim(s), k) <==> Contains(s, k)
  {
    var r := Trim(s);
    var a :| TrimmedAt(s, r, a);
    if Contains(r, k) {
      var i :| OccursAt(r, k, i);
      OccursOutsideTrim(s, r, a, k, i);
    }
    if Contains(s, k) {
      var i :| OccursAt(s, k, i);
      OccursInsideTrim(s, r, a, k, i);
    }
  }

  lemma MatchesAnyTrim(s: string, keywords: seq<string>)
    requires KeywordsWellFormed(keywords)
    ensures MatchesAny(Trim(s), keywords) <==> MatchesAny(s, keywords)
  {
    MatchesAnyMeans(Trim(s), keywords);
    MatchesAnyMeans(s, keywords);
    forall i | 0 <= i < |keywords|
      ensures Contains(Trim(s), keywords[i]) <==> Contains(s, keywords[i])
    {
      ContainsTrim(s, keywords[i]);
    }
  }

  /** The trim step is immaterial: the classifier sees the same keywords without it. */
  lemma DetectIntentIgnoresTrim(message: string)
    ensures DetectIntent(message) == Classify(Lower(message))
  {
    EscalationKeywordsWellFormed();
    PricingKeywordsWellFormed();
    TechnicalKeywordsWellFormed();
    MatchesAnyTrim(Lower(message), EscalationKeywords);
    MatchesAnyTrim(Lower(message), PricingKeywords);
    MatchesAnyTrim(Lower(message), TechnicalKeywords);
  }

  /** Lower-casing is idempotent on every character the model lower-cases. */
  lemma LowerCharIdempotent(c: char)
    ensures LowerChar(LowerChar(c)) == LowerChar(c)
  {
  }

  /** The classifier ignores letter case. */
  lemma DetectIntentCaseInsensitive(message: string)
    ensures DetectIntent(Lower(message)) == DetectIntent(message)
  {
    forall i | 0 <= i < |message|
      ensures Lower(Lower(message))[i] == Lower(message)[i]
    {
      LowerCharIdempotent(message[i]);
    }
    assert Lower(Lower(message)) == Lower(message);
  }

  /**
   * An escalation keyword anywhere in the message wins over every other
   * keyword, whatever else the message says.
   */
  lemma EscalationKeywordWins(message: string, i: nat)
    requires i < |EscalationKeywords|
    requires Contains(Lower(message), EscalationKeywords[i])
    ensures DetectIntent(message) == IntentResult(true, Escalation, 0.9)
  {
    DetectIntentIgnoresTrim(message);
    MatchesAnyMeans(Lower(message), EscalationKeywords);
  }

  /** Substring matching: a request for help with a setup counts as an escalation. */
  lemma SetupHelpEscalates()
    ensures DetectIntent("Cần hỗ trợ cài đặt").category == Escalation
  {
    var m := "Cần hỗ trợ cài đặt";
    assert Lower(m) == "cần hỗ trợ cài đặt";
    assert OccursAt(Lower(m), EscalationKeywords[2], 4);
    EscalationKeywordWins(m, 2);
  }
}
