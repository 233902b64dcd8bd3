/**
 * The chat endpoint's request and response shapes, and the validation the
 * global pipe applies to a request body: only declared properties are
 * allowed, required strings must be strings, and optional properties may be
 * absent or null but otherwise must have their declared type.
 */
module ChatDto {
  import opened Wrappers
  import opened Json
  import Schemas

  /** One earlier turn; the role is any string (`visitor` and `assistant` are the expected ones). */
  datatype ConversationMessage = ConversationMessage(role: string, content: string)

  /** Per-tenant chat settings; every field may be absent. */
  datatype ChatConfig = ChatConfig(
    responseStyle: Option<string>,
    maxResponseLength: Option<real>,
    language: Option<string>,
    confidenceThreshold: Option<real>,
    enabledCategories: Option<seq<Json>>,
    aiDisplayName: Option<string>)

  datatype ChatRequest = ChatRequest(
    message: string,
    conversationHistory: Option<seq<ConversationMessage>>,
    tenantSlug: string,
    config: Option<ChatConfig>)

  datatype RetrievedChunkSummary = RetrievedChunkSummary(
    chunkId: Schemas.PointId,
    score: real,
    content: string,
    documentTitle: string)

  datatype ChatResponse = ChatResponse(
    response: string,
    confidence: real,
    intent: string,
    shouldEscalate: bool,
    escalationReason: Option<string>,
    retrievedChunks: seq<RetrievedChunkSummary>,
    tokenUsage: int,
    processingTime: int)

  const RequestKeys: set<string> := {"message", "conversationHistory", "tenantSlug", "config"}
  const MessageKeys: set<string> := {"role", "content"}
  const ConfigKeys: set<string> :=
    {"responseStyle", "maxResponseLength", "language", "confidenceThreshold", "enabledCategories", "aiDisplayName"}

  /** `@IsOptional()`: a missing or null property counts as absent. */
  function Given(fields: map<string, Json>, key: string): (v: Option<Json>)
    ensures v.Some? <==> key in fields && fields[key] != JNull
    ensures v.Some? ==> v.value == fields[key]
  {
    if key in fields && fields[key] != JNull then Some(fields[key]) else None
  }

  /** `@IsString()` on a required property. */
  function RequiredString(fields: map<string, Json>, key: string): (r: Result<string, string>)
    ensures r.Success? <==> key in fields && fields[key].JStr?
    ensures r.Success? ==> r.value == fields[key].s
  {
    if key in fields && fields[key].JStr? then Success(fields[key].s)
    else Failure(key + " must be a string")
  }

  /** `@IsOptional() @IsString()`. */
  function OptionalString(fields: map<string, Json>, key: string): (r: Result<Option<string>, string>)
    ensures r.Success? <==> Given(fields, key).None? || fields[key].JStr?
    ensures r.Success? ==> (r.value.Some? <==> Given(fields, key).Some?)
    ensures r.Success? && r.value.Some? ==> r.value.value == fields[key].s
  {
    match Given(fields, key)
    case None => Success(None)
    case Some(v) => if v.JStr? then Success(Some(v.s)) else Failure(key + " must be a string")
  }

  /** `@IsOptional() @IsNumber()`. */
  function OptionalNumber(fields: map<string, Json>, key: string): (r: Result<Option<real>, string>)
    ensures r.Success? <==> Given(fields, key).None? || fields[key].JNum?
    ensures r.Success? ==> (r.value.Some? <==> Given(fields, key).Some?)
    ensures r.Success? && r.value.Some? ==> r.value.value == fields[key].n
  {
    match Given(fields, key)
    case None => Success(None)
    case Some(v) => if v.JNum? then Success(Some(v.n)) else Failure(key + " must be a number conforming to the specified constraints")
  }

  /** `@IsOptional() @IsArray()`: the elements are not checked. */
  function OptionalArray(fields: map<string, Json>, key: string): (r: Result<Option<seq<Json>>, string>)
    ensures r.Success? <==> Given(fields, key).None? || fields[key].JArr?
    ensures r.Success? ==> (r.value.Some? <==> Given(fields, key).Some?)
    ensures r.Success? && r.value.Some? ==> r.value.value == fields[key].items
  {
    match Given(fields, key)
    case None => Success(None)
    case Some(v) => if v.JArr? then Success(Some(v.items)) else Failure(key + " must be an array")
  }

  /** One history entry: an object with string `role` and `content` and nothing else. */
  function ParseMessage(j: Json): (r: Result<ConversationMessage, string>)
    ensures r.Success? <==>
      && j.JObj? && j.fields.Keys <= MessageKeys
      && "role" in j.fields && j.fields["role"].JStr?
      && "content" in j.fields && j.fields["content"].JStr?
    ensures r.Success? ==> r.value == ConversationMessage(j.fields["role"].s, j.fields["content"].s)
  {
    if j.JArr? then Failure("a nested array of messages is not accepted")
    else if !j.JObj? then Failure("each value in nested property conversationHistory must be either object or array")
    else
      if !(j.fields.Keys <= MessageKeys) then Failure("property should not exist")
      else
        var role :- RequiredString(j.fields, "role");
        var content :- RequiredString(j.fields, "content");
        Success(ConversationMessage(role, content))
  }

  /** Every history entry, in order; the first bad entry rejects the whole list. */
  function ParseHistory(items: seq<Json>): (r: Result<seq<ConversationMessage>, string>)
    ensures r.Success? <==> forall i :: 0 <= i < |items| ==> ParseMessage(items[i]).Success?
    ensures r.Success? ==> |r.value| == |items|
    ensures r.Success? ==> forall i :: 0 <= i < |items| ==> r.value[i] == ParseMessage(items[i]).value
  {
    if |items| == 0 then Success([])
    else
      var m :- ParseMessage(items[0]);
      var rest :- ParseHistory(items[1..]);
      assert forall i :: 1 <= i < |items| ==> items[i] == items[1..][i - 1];
      Success([m] + rest)
  }

  /** Settings that give nothing: every field absent. */
  const NoSettings := ChatConfig(None, None, None, None, None, None)

  /** An optional property holding a string, if anything. */
  predicate StringOrAbsent(fields: map<string, Json>, key: string) {
    Given(fields, key).None? || fields[key].JStr?
  }

  /** An optional property holding a number, if anything. */
  predicate NumberOrAbsent(fields: map<string, Json>, key: string) {
    Given(fields, key).None? || fields[key].JNum?
  }

  /** The properties of a settings object: only the declared keys, each of its declared type. */
  predicate ConfigFieldsValid(fields: map<string, Json>) {
    && fields.Keys <= ConfigKeys
    && StringOrAbsent(fields, "responseStyle")
    && NumberOrAbsent(fields, "maxResponseLength")
    && StringOrAbsent(fields, "language")
    && NumberOrAbsent(fields, "confidenceThreshold")
    && (Given(fields, "enabledCategories").None? || fields["enabledCategories"].JArr?)
    && StringOrAbsent(fields, "aiDisplayName")
  }

  /**
   * `@ValidateNested()` without `@IsObject()`: an object is checked as a
   * settings object, an array element by element (arrays nest), and
   * anything else is refused.
   */
  predicate ConfigValid(j: Json)
    decreases j
  {
    match j
    case JObj(fields) => ConfigFieldsValid(fields)
    case JArr(items) => forall i :: 0 <= i < |items| ==> ConfigValid(items[i])
    case _ => false
  }

  /** A settings object: each setting is present iff it was given, and refused iff mistyped. */
  function ParseConfigFields(fields: map<string, Json>): (r: Result<ChatConfig, string>)
    ensures r.Success? <==> ConfigFieldsValid(fields)
    ensures r.Success? ==>
      && (r.value.responseStyle.Some? <==> Given(fields, "responseStyle").Some?)
      && (r.value.maxResponseLength.Some? <==> Given(fields, "maxResponseLength").Some?)
      && (r.value.language.Some? <==> Given(fields, "language").Some?)
      && (r.value.confidenceThreshold.Some? <==> Given(fields, "confidenceThreshold").Some?)
      && (r.value.enabledCategories.Some? <==> Given(fields, "enabledCategories").Some?)
      && (r.value.aiDisplayName.Some? <==> Given(fields, "aiDisplayName").Some?)
  {
    if !(fields.Keys <= ConfigKeys) then Failure("property should not exist")
    else
      var style :- OptionalString(fields, "responseStyle");
      var maxLen :- OptionalNumber(fields, "maxResponseLength");
      var lang :- OptionalString(fields, "language");
      var threshold :- OptionalNumber(fields, "confidenceThreshold");
      var categories :- OptionalArray(fields, "enabledCategories");
      var name :- OptionalString(fields, "aiDisplayName");
      Success(ChatConfig(style, maxLen, lang, threshold, categories, name))
  }

  /**
   * The nested settings. An accepted array has none of the settings'
   * properties, so every setting reads as absent.
   */
  function ParseConfig(j: Json): (r: Result<ChatConfig, string>)
    ensures r.Success? <==> ConfigValid(j)
    ensures r.Success? && j.JArr? ==> r.value == NoSettings
    ensures j.JObj? ==> r == ParseConfigFields(j.fields)
  {
    match j
    case JArr(items) =>
      if forall i :: 0 <= i < |items| ==> ConfigValid(items[i]) then Success(NoSettings)
      else Failure("each value in nested property config must be either object or array")
    case JObj(fields) => ParseConfigFields(fields)
    case _ => Failure("nested property config must be either object or array")
  }

  /**
   * The validation pipe on a chat request body: an object with only the
   * declared properties, string `message` and `tenantSlug`, and, when given
   * and not null, a valid history array and a valid settings object.
   */
  function ValidateChatRequest(body: Json): (r: Result<ChatRequest, string>)
    ensures r.Success? ==> body.JObj? && body.fields.Keys <= RequestKeys
    ensures r.Success? ==> "message" in body.fields && body.fields["message"] == JStr(r.value.message)
    ensures r.Success? ==> "tenantSlug" in body.fields && body.fields["tenantSlug"] == JStr(r.value.tenantSlug)
    ensures body.JObj? && !(body.fields.Keys <= RequestKeys) ==> r.Failure?
    ensures body.JObj? && !("message" in body.fields && body.fields["message"].JStr?) ==> r.Failure?
    ensures body.JObj? && !("tenantSlug" in body.fields && body.fields["tenantSlug"].JStr?) ==> r.Failure?
    ensures r.Success? ==> (r.value.conversationHistory.Some? <==> Given(body.fields, "conversationHistory").Some?)
    ensures r.Success? ==> (r.value.config.Some? <==> Given(body.fields, "config").Some?)
    ensures r.Success? && r.value.config.Some? ==> ConfigValid(body.fields["config"])
    ensures r.Success? && r.value.config.Some? && body.fields["config"].JArr? ==> r.value.config == Some(NoSettings)
    ensures body.JObj? && Given(body.fields, "config").Some? && !ConfigValid(body.fields["config"]) ==> r.Failure?
  {
    if !body.JObj? then Failure("request body must be an object")
    else
      var fields := body.fields;
      if !(fields.Keys <= RequestKeys) then Failure("property should not exist")
      else
        var message :- RequiredString(fields, "message");
        var history :- (match Given(fields, "conversationHistory")
                        case None => Success(None)
                        case Some(v) =>
                          if !v.JArr? then Failure("conversationHistory must be an array")
                          else match ParseHistory(v.items)
                            case Success(h) => Success(Some(h))
                            case Failure(e) => Failure(e));
        var tenantSlug :- RequiredString(fields, "tenantSlug");
        var config :- (match Given(fields, "config")
                       case None => Success(None)
                       case Some(v) =>
                         match ParseConfig(v)
                         case Success(c) => Success(Some(c))
                         case Failure(e) => Failure(e));
        Success(ChatRequest(message, history, tenantSlug, config))
  }

  // ---------------------------------------------------------------------------
  // The body a client sends for a request: the partner of validation.

  function MessageJson(m: ConversationMessage): Json {
    JObj(map["role" := JStr(m.role), "content" := JStr(m.content)])
  }

  /** What a client sends under each settings key, if anything. */
  function ConfigEntry(c: ChatConfig, key: string): Option<Json> {
    if key == "responseStyle" then (if c.responseStyle.Some? then Some(JStr(c.responseStyle.value)) else None)
    else if key == "maxResponseLength" then (if c.maxResponseLength.Some? then Some(JNum(c.maxResponseLength.value)) else None)
    else if key == "language" then (if c.language.Some? then Some(JStr(c.language.value)) else None)
    else if key == "confidenceThreshold" then (if c.confidenceThreshold.Some? then Some(JNum(c.confidenceThreshold.value)) else None)
    else if key == "enabledCategories" then (if c.enabledCategories.Some? then Some(JArr(c.enabledCategories.value)) else None)
    else if key == "aiDisplayName" then (if c.aiDisplayName.Some? then Some(JStr(c.aiDisplayName.value)) else None)
    else None
  }

  function ConfigJson(c: ChatConfig): Json {
    JObj(map k | k in ConfigKeys && ConfigEntry(c, k).Some? :: ConfigEntry(c, k).value)
  }

  function HistoryJson(h: seq<ConversationMessage>): Json {
    JArr(seq(|h|, i requires 0 <= i < |h| => MessageJson(h[i])))
  }

  /** What a client sends under each request key, if anything. */
  function RequestEntry(req: ChatRequest, key: string): Option<Json> {
    if key == "message" then Some(JStr(req.message))
    else if key == "tenantSlug" then Some(JStr(req.tenantSlug))
    else if key == "conversationHistory" then (if req.conversationHistory.Some? then Some(HistoryJson(req.conversationHistory.value)) else None)
    else if key == "config" then (if req.config.Some? then Some(ConfigJson(req.config.value)) else None)
    else None
  }

  /** The body a client sends for a request: given properties only. */
  function RequestJson(req: ChatRequest): Json {
    JObj(map k | k in RequestKeys && RequestEntry(req, k).Some? :: RequestEntry(req, k).value)
  }

  lemma ParseMessageJson(m: ConversationMessage)
    ensures ParseMessage(MessageJson(m)) == Success(m)
  {
    assert MessageJson(m).fields.Keys == MessageKeys;
  }

  /** A settings key carries what the settings give for it, and nothing when they give nothing. */
  lemma ConfigJsonField(c: ChatConfig, key: string)
    requires key in ConfigKeys
    ensures Given(ConfigJson(c).fields, key) == ConfigEntry(c, key)
  {
  }

  lemma ParseConfigJson(c: ChatConfig)
    ensures ParseConfig(ConfigJson(c)) == Success(c)
  {
    var f := ConfigJson(c).fields;
    assert ParseConfig(ConfigJson(c)) == ParseConfigFields(f);
    assert f.Keys <= ConfigKeys;
    ConfigJsonField(c, "responseStyle");
    ConfigJsonField(c, "maxResponseLength");
    ConfigJsonField(c, "language");
    ConfigJsonField(c, "confidenceThreshold");
    ConfigJsonField(c, "enabledCategories");
    ConfigJsonField(c, "aiDisplayName");
  }

  /** A request key carries what the request gives for it, and nothing when it gives nothing. */
  lemma RequestJsonField(req: ChatRequest, key: string)
    requires key in RequestKeys
    ensures Given(RequestJson(req).fields, key) == RequestEntry(req, key)
  {
  }

  /** A sent history is read back message for message. */
  lemma ParseHistoryJson(h: seq<ConversationMessage>)
    ensures ParseHistory(HistoryJson(h).items) == Success(h)
  {
    var items := HistoryJson(h).items;
    forall i | 0 <= i < |items|
      ensures ParseMessage(items[i]) == Success(h[i])
    {
      ParseMessageJson(h[i]);
    }
    assert ParseHistory(items).Success?;
    assert ParseHistory(items).value == h;
  }

  /** Every request survives being sent as a body and validated: validation loses nothing. */
  lemma ValidateRequestJson(req: ChatRequest)
    ensures ValidateChatRequest(RequestJson(req)) == Success(req)
  {
    var f := RequestJson(req).fields;
    assert f.Keys <= RequestKeys;
    RequestJsonField(req, "message");
    RequestJsonField(req, "tenantSlug");
    RequestJsonField(req, "conversationHistory");
    RequestJsonField(req, "config");
    if req.conversationHistory.Some? {
      ParseHistoryJson(req.conversationHistory.value);
    }
    if req.config.Some? {
      ParseConfigJson(req.config.value);
    }
  }

  /**
   * A settings array is accepted when its elements are valid settings, and
   * then gives no settings at all; the empty array always is.
   */
  lemma ArrayConfigAccepted(message: string, tenantSlug: string, items: seq<Json>)
    requires forall i :: 0 <= i < |items| ==> ConfigValid(items[i])
    ensures var body := JObj(map["message" := JStr(message), "tenantSlug" := JStr(tenantSlug), "config" := JArr(items)]);
      ValidateChatRequest(body) == Success(ChatRequest(message, None, tenantSlug, Some(NoSettings)))
  {
    var body := JObj(map["message" := JStr(message), "tenantSlug" := JStr(tenantSlug), "config" := JArr(items)]);
    assert body.fields.Keys == {"message", "tenantSlug", "config"};
    assert Given(body.fields, "conversationHistory").None?;
    assert ConfigValid(JArr(items));
  }
}
