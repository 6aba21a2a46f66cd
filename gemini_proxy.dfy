/**
 * The serverless proxy in front of the language model
 * (netlify/functions/gemini-proxy.ts): which status code and body each request
 * gets, which model is asked, and how a thrown error is classified.
 *
 * The environment, the parse of the request body, the model call and the
 * repair of its JSON answer are inputs: each is given as its outcome. The
 * prompt text and the `X-Processing-Time` header (a clock reading) are not
 * modelled.
 */
module GeminiProxy {
  import opened Wrappers
  import opened Strings

  const DefaultModel := "gemini-3-flash-preview"

  /**
   * The `error` texts the handler can answer with. Each is rendered to its
   * exact wording by `MessageText`; the handler and its lemmas work with the
   * kind of message.
   */
  datatype Message =
    | MethodNotAllowed
    | ConfigError
    | MissingStats
    | NullTrace
    | MalformedJson(parseErrorMessage: string)
    | AuthInvalid
    | RateLimit
    | SafetyBlock
    | Timeout
    | TokenLimit
    | Internal(errorMessage: string)

  /** A response body: `''`, a JSON text passed through, or `JSON.stringify({ error })`. */
  datatype Body = Empty | Text(text: string) | ErrorJson(error: Message)

  datatype ProxyResponse = ProxyResponse(statusCode: int, headers: map<string, string>, body: Body)

  /** A thrown error: its `name` and `message`, either possibly missing. */
  datatype Thrown = Thrown(name: Option<string>, message: Option<string>)

  /**
   * Whether the prompt template could be evaluated. It calls `map` on
   * `stats.topLanguages` and `stats.recentRepos`; when either is not an
   * array the template throws a TypeError, which is `TemplateThrew`.
   */
  datatype PromptBuild = Built | TemplateThrew(err: Thrown)

  /** What the handler itself reads of `stats`: `analysisYear`, and whether the prompt could be built from it. */
  datatype StatsPayload = StatsPayload(analysisYear: Option<int>, prompt: PromptBuild)

  /** The parsed request body; a missing or falsy `stats` is None. */
  datatype RequestData = RequestData(stats: Option<StatsPayload>, modelName: Option<string>)


  /** `JSON.parse(event.body || '{}')`: the data, or the error it throws. */
  datatype BodyParse = Parsed(data: RequestData) | ParseFailed(err: Thrown)

  /**
   * What became of the model's answer text: it parsed, it parsed after the
   * repair pass, or it did not (with the message of the first parse error).
   */
  datatype JsonCheck = ValidJson(sanitized: string) | RepairedJson(repaired: string) | Malformed(parseErrorMessage: string)

  /** The model call: its answer text (possibly empty or missing) and what parsing made of it, or the error it threw. */
  datatype Generation = Returned(text: Option<string>, json: JsonCheck) | GenerationFailed(err: Thrown)

  /** The incoming request and the `GEMINI_API_KEY` environment variable. */
  datatype Request = Request(httpMethod: string, apiKey: Option<string>)

  /** What the model is called with: the model, the analysed year, and the prompt's phrase for that year. */
  datatype GenCall = GenCall(model: string, analysisYear: int, yearContext: string)

  /** The response, and the model call made on the way to it, if any. */
  datatype Outcome = Outcome(response: ProxyResponse, call: Option<GenCall>)

  // ---------------------------------------------------------------------------
  // Defaults
  // ---------------------------------------------------------------------------

  /** `modelName || 'gemini-3-flash-preview'`. */
  function ModelName(modelName: Option<string>): (model: string)
    ensures Truthy(modelName) ==> model == modelName.value
    ensures !Truthy(modelName) ==> model == DefaultModel
    ensures model != ""
  {
    OrDefault(modelName, DefaultModel)
  }

  /** `stats.analysisYear || currentYear`. */
  function AnalysisYear(stats: StatsPayload, currentYear: int): (year: int)
    ensures stats.analysisYear.Some? && stats.analysisYear.value != 0 ==> year == stats.analysisYear.value
    ensures stats.analysisYear.None? || stats.analysisYear.value == 0 ==> year == currentYear
  {
    match stats.analysisYear
    case Some(y) => if y != 0 then y else currentYear
    case None => currentYear
  }

  const PartialYearPrefix := "current "

  /** The phrase the prompt uses for the analysed year. */
  function YearContext(analysisYear: int, currentYear: int): (context: string)
    ensures |context| >= |PartialYearPrefix|
    ensures context[..|PartialYearPrefix|] == PartialYearPrefix <==> analysisYear == currentYear
  {
    if analysisYear == currentYear then
      var context := PartialYearPrefix + IntToString(analysisYear) + " activity (partial year data)";
      assert context[..|PartialYearPrefix|] == PartialYearPrefix;
      context
    else
      var context := "complete " + IntToString(analysisYear) + " development year";
      assert context[2] != PartialYearPrefix[2];
      context
  }

  // ---------------------------------------------------------------------------
  // Error classification
  // ---------------------------------------------------------------------------

  datatype ErrorClass = ErrorClass(statusCode: int, errorResponse: Message)

  const AuthInvalidText := "GEMINI_AUTH_INVALID: The API Key is unauthorized. Please check Netlify environment variables."
  const RateLimitText := "GEMINI_RATE_LIMIT: Model quota exceeded. Please wait a few seconds before retrying."
  const SafetyBlockText := "GEMINI_SAFETY_BLOCK: The intelligence core filtered this user's profile content for safety."
  const TimeoutText := "GEMINI_TIMEOUT: AI analysis timed out. Please try again with a simpler request."
  const TokenLimitText := "GEMINI_TOKEN_LIMIT: Request too large. Please try with fewer repositories or simpler data."
  const ConfigErrorText := "GEMINI_CONFIG_ERROR: GEMINI_API_KEY is not configured in Netlify environment variables."
  const NullTraceText := "GEMINI_NULL_TRACE: The intelligence core returned an empty narrative."

  const InternalErrorPrefix := "GEMINI_INTERNAL_ERROR: "
  const SessionFallbackText := "Session failed to initialize."

  /** `GEMINI_INTERNAL_ERROR: ${errorMessage || 'Session failed to initialize.'}`. */
  function InternalErrorText(errorMessage: string): string
  {
    InternalErrorPrefix + (if errorMessage != "" then errorMessage else SessionFallbackText)
  }

  function MalformedText(parseErrorMessage: string): string
  {
    "GEMINI_JSON_MALFORMED: " + parseErrorMessage + ". The AI response contained invalid JSON structure."
  }

  /** The wording of each message. */
  function MessageText(m: Message): string
  {
    match m
    case MethodNotAllowed => "Method not allowed"
    case ConfigError => ConfigErrorText
    case MissingStats => "Missing stats data"
    case NullTrace => NullTraceText
    case MalformedJson(parseErrorMessage) => MalformedText(parseErrorMessage)
    case AuthInvalid => AuthInvalidText
    case RateLimit => RateLimitText
    case SafetyBlock => SafetyBlockText
    case Timeout => TimeoutText
    case TokenLimit => TokenLimitText
    case Internal(errorMessage) => InternalErrorText(errorMessage)
  }

  predicate AuthMatch(m: string) { Contains(m, "API_KEY_INVALID") || Contains(m, "key") || Contains(m, "401") }
  predicate RateMatch(m: string) { Contains(m, "429") || Contains(m, "QUOTA") || Contains(m, "rate limit") }
  predicate SafetyMatch(m: string) { Contains(m, "SAFETY") || Contains(m, "blocked") }
  predicate TimeoutMatch(m: string) { Contains(m, "timeout") || Contains(m, "TIMEOUT") }
  predicate TokenMatch(m: string) { Contains(m, "token") || Contains(m, "length") }

  /**
   * The if-chain of the catch block: the first group of substrings found in
   * the message decides the status; with none found it stays 500.
   */
  function ClassifyError(errorMessage: string): (c: ErrorClass)
    ensures AuthMatch(errorMessage) ==> c == ErrorClass(401, AuthInvalid)
    ensures !AuthMatch(errorMessage) && RateMatch(errorMessage) ==> c == ErrorClass(429, RateLimit)
    ensures !AuthMatch(errorMessage) && !RateMatch(errorMessage) && SafetyMatch(errorMessage) ==>
      c == ErrorClass(400, SafetyBlock)
    ensures !AuthMatch(errorMessage) && !RateMatch(errorMessage) && !SafetyMatch(errorMessage) && TimeoutMatch(errorMessage) ==>
      c == ErrorClass(408, Timeout)
    ensures (!AuthMatch(errorMessage) && !RateMatch(errorMessage) && !SafetyMatch(errorMessage) && !TimeoutMatch(errorMessage)
      && TokenMatch(errorMessage)) ==> c == ErrorClass(413, TokenLimit)
    ensures c.statusCode == 500 <==>
      !AuthMatch(errorMessage) && !RateMatch(errorMessage) && !SafetyMatch(errorMessage)
      && !TimeoutMatch(errorMessage) && !TokenMatch(errorMessage)
    ensures c.statusCode == 500 ==> c.errorResponse == Internal(errorMessage)
  {
    if AuthMatch(errorMessage) then ErrorClass(401, AuthInvalid)
    else if RateMatch(errorMessage) then ErrorClass(429, RateLimit)
    else if SafetyMatch(errorMessage) then ErrorClass(400, SafetyBlock)
    else if TimeoutMatch(errorMessage) then ErrorClass(408, Timeout)
    else if TokenMatch(errorMessage) then ErrorClass(413, TokenLimit)
    else ErrorClass(500, Internal(errorMessage))
  }

  /**
   * The order of the chain matters: a message that mentions both an API key
   * and HTTP 429 is reported as an authentication failure, not a rate limit.
   */
  lemma KeyBeatsRateLimit(m: string, i: nat, j: nat)
    requires OccursAt(m, "key", i) && OccursAt(m, "429", j)
    ensures RateMatch(m)
    ensures ClassifyError(m) == ErrorClass(401, AuthInvalid)
  {
    ContainsWitness(m, "key", i);
    ContainsWitness(m, "429", j);
  }

  /** An error without a message is an internal error with the fallback text. */
  lemma EmptyMessageIsInternal()
    ensures ClassifyError("") == ErrorClass(500, Internal(""))
    ensures MessageText(Internal("")) == InternalErrorPrefix + SessionFallbackText
  {
    assert !AuthMatch("") && !RateMatch("") && !SafetyMatch("");
    assert !TimeoutMatch("") && !TokenMatch("");
  }

  // ---------------------------------------------------------------------------
  // The handler
  // ---------------------------------------------------------------------------

  function PreflightHeaders(): map<string, string>
  {
    map["Access-Control-Allow-Origin" := "*",
        "Access-Control-Allow-Methods" := "GET, POST, OPTIONS",
        "Access-Control-Allow-Headers" := "Content-Type, Authorization"]
  }

  function AllowOrigin(): map<string, string>
  {
    map["Access-Control-Allow-Origin" := "*"]
  }

  function JsonHeaders(model: string): map<string, string>
  {
    map["Content-Type" := "application/json", "Access-Control-Allow-Origin" := "*", "X-AI-Model" := model]
  }

  /** The catch block's response for a thrown error; `modelName` is whatever was read before the throw. */
  function CatchResponse(err: Thrown, modelName: Option<string>): (response: ProxyResponse)
    ensures response.statusCode == ClassifyError(OrDefault(err.message, "")).statusCode
    ensures response.body == ErrorJson(ClassifyError(OrDefault(err.message, "")).errorResponse)
    ensures "X-Error-Type" in response.headers && response.headers["X-Error-Type"] == OrDefault(err.name, "Unknown")
    ensures "X-AI-Model" in response.headers && response.headers["X-AI-Model"] == ModelName(modelName)
  {
    var errorMessage := OrDefault(err.message, "");
    var c := ClassifyError(errorMessage);
    ProxyResponse(c.statusCode, JsonHeaders(ModelName(modelName))["X-Error-Type" := OrDefault(err.name, "Unknown")],
                  ErrorJson(c.errorResponse))
  }

  /** The headers of a 200 answer. */
  function SuccessHeaders(model: string): map<string, string>
  {
    JsonHeaders(model)["Access-Control-Allow-Headers" := "Content-Type"]
  }

  /** The response to the model's answer, once the model was called. */
  function AnswerResponse(model: string, modelName: Option<string>, gen: Generation): ProxyResponse
  {
    match gen
    case GenerationFailed(err) => CatchResponse(err, modelName)
    case Returned(text, json) =>
      if !Truthy(text) then ProxyResponse(500, map[], ErrorJson(NullTrace))
      else
        match json
        case ValidJson(sanitized) => ProxyResponse(200, SuccessHeaders(model), Text(sanitized))
        case RepairedJson(repaired) => ProxyResponse(200, SuccessHeaders(model), Text(repaired))
        case Malformed(message) => ProxyResponse(500, JsonHeaders(model), ErrorJson(MalformedJson(message)))
  }

  /** The request reaches the model: a POST, with a key, whose body parses with stats the prompt can be built from. */
  predicate ReachesModel(req: Request, parse: BodyParse)
  {
    && req.httpMethod == "POST" && Truthy(req.apiKey) && parse.Parsed? && parse.data.stats.Some?
    && parse.data.stats.value.prompt.Built?
  }

  /** `handler`, for the outcomes of the body parse, the prompt template and the model call. */
  function Handle(req: Request, parse: BodyParse, currentYear: int, gen: Generation): (out: Outcome)
    ensures req.httpMethod == "OPTIONS" ==> out == Outcome(ProxyResponse(200, PreflightHeaders(), Empty), None)
    ensures req.httpMethod != "OPTIONS" && req.httpMethod != "POST" ==>
      out == Outcome(ProxyResponse(405, AllowOrigin(), ErrorJson(MethodNotAllowed)), None)
    ensures req.httpMethod == "POST" && !Truthy(req.apiKey) ==>
      out == Outcome(ProxyResponse(500, AllowOrigin(), ErrorJson(ConfigError)), None)
    ensures req.httpMethod == "POST" && Truthy(req.apiKey) && parse.ParseFailed? ==>
      out == Outcome(CatchResponse(parse.err, None), None)
    ensures req.httpMethod == "POST" && Truthy(req.apiKey) && parse.Parsed? && parse.data.stats.None? ==>
      out == Outcome(ProxyResponse(400, map[], ErrorJson(MissingStats)), None)
    ensures (&& req.httpMethod == "POST" && Truthy(req.apiKey) && parse.Parsed? && parse.data.stats.Some?
             && parse.data.stats.value.prompt.TemplateThrew?) ==>
      out == Outcome(CatchResponse(parse.data.stats.value.prompt.err, parse.data.modelName), None)
    ensures out.call.Some? <==> ReachesModel(req, parse)
    ensures out.call.Some? ==>
      && out.call.value.model == ModelName(parse.data.modelName)
      && out.call.value.analysisYear == AnalysisYear(parse.data.stats.value, currentYear)
      && out.call.value.yearContext == YearContext(out.call.value.analysisYear, currentYear)
      && (out.call.value.yearContext[..|PartialYearPrefix|] == PartialYearPrefix <==> out.call.value.analysisYear == currentYear)
    ensures out.call.Some? && gen.GenerationFailed? ==> out.response == CatchResponse(gen.err, parse.data.modelName)
    ensures out.call.Some? && gen.Returned? && !Truthy(gen.text) ==>
      out.response == ProxyResponse(500, map[], ErrorJson(NullTrace))
    ensures out.call.Some? && gen.Returned? && Truthy(gen.text) && gen.json.ValidJson? ==>
      out.response == ProxyResponse(200, SuccessHeaders(out.call.value.model), Text(gen.json.sanitized))
    ensures out.call.Some? && gen.Returned? && Truthy(gen.text) && gen.json.RepairedJson? ==>
      out.response == ProxyResponse(200, SuccessHeaders(out.call.value.model), Text(gen.json.repaired))
    ensures out.call.Some? && gen.Returned? && Truthy(gen.text) && gen.json.Malformed? ==>
      out.response ==
        ProxyResponse(500, JsonHeaders(out.call.value.model), ErrorJson(MalformedJson(gen.json.parseErrorMessage)))
    ensures out.response.statusCode == 200 <==>
      req.httpMethod == "OPTIONS" || (out.call.Some? && gen.Returned? && Truthy(gen.text) && !gen.json.Malformed?)
  {
    if req.httpMethod == "OPTIONS" then
      Outcome(ProxyResponse(200, PreflightHeaders(), Empty), None)
    else if req.httpMethod != "POST" then
      Outcome(ProxyResponse(405, AllowOrigin(), ErrorJson(MethodNotAllowed)), None)
    else if !Truthy(req.apiKey) then
      Outcome(ProxyResponse(500, AllowOrigin(), ErrorJson(ConfigError)), None)
    else
      match parse
      case ParseFailed(err) => Outcome(CatchResponse(err, None), None)
      case Parsed(data) =>
        match data.stats
        case None => Outcome(ProxyResponse(400, map[], ErrorJson(MissingStats)), None)
        case Some(stats) =>
          match stats.prompt
          case TemplateThrew(err) => Outcome(CatchResponse(err, data.modelName), None)
          case Built =>
            var model := ModelName(data.modelName);
            var analysisYear := AnalysisYear(stats, currentYear);
            var call := GenCall(model, analysisYear, YearContext(analysisYear, currentYear));
            Outcome(AnswerResponse(model, data.modelName, gen), Some(call))
  }

  /**
   * Without an API key every POST gets the same configuration error, whatever
   * its body and whatever the model would have answered: the key is checked
   * before the body is read.
   */
  lemma ConfigCheckedFirst(req: Request, p1: BodyParse, p2: BodyParse, y1: int, y2: int, g1: Generation, g2: Generation)
    requires req.httpMethod == "POST" && !Truthy(req.apiKey)
    ensures Handle(req, p1, y1, g1) == Handle(req, p2, y2, g2)
    ensures Handle(req, p1, y1, g1).response.statusCode == 500
  {
  }

  /**
   * A body that does not parse goes through the classifier like any other
   * thrown error; a parser message that mentions "token" (as in
   * "Unexpected token") is therefore answered 413 "Request too large".
   */
  lemma UnparsableBodyClassified(req: Request, err: Thrown, currentYear: int, gen: Generation, i: nat)
    requires req.httpMethod == "POST" && Truthy(req.apiKey)
    requires err.message.Some? && OccursAt(err.message.value, "token", i)
    requires !AuthMatch(err.message.value) && !RateMatch(err.message.value)
    requires !SafetyMatch(err.message.value) && !TimeoutMatch(err.message.value)
    ensures Handle(req, ParseFailed(err), currentYear, gen).response ==
      ProxyResponse(413, JsonHeaders(DefaultModel)["X-Error-Type" := OrDefault(err.name, "Unknown")], ErrorJson(TokenLimit))
  {
    ContainsWitness(err.message.value, "token", i);
  }

  /**
   * An error thrown by the model call goes through the same classifier: a
   * message that mentions HTTP 429, and no API key, is answered 429 with the
   * rate-limit text, naming the model that was called.
   */
  lemma ModelRateLimitClassified(req: Request, parse: BodyParse, currentYear: int, err: Thrown, i: nat)
    requires ReachesModel(req, parse)
    requires err.message.Some? && OccursAt(err.message.value, "429", i) && !AuthMatch(err.message.value)
    ensures var out := Handle(req, parse, currentYear, GenerationFailed(err));
      && out.call.Some?
      && out.response.statusCode == 429
      && out.response.body == ErrorJson(RateLimit)
      && "X-AI-Model" in out.response.headers && out.response.headers["X-AI-Model"] == out.call.value.model
  {
    ContainsWitness(err.message.value, "429", i);
  }

  /**
   * Every answer that carries `X-AI-Model` names the model that was (or would
   * have been) called, and every answer that allows any origin does so with '*'.
   */
  lemma ModelHeaderNamesModel(req: Request, parse: BodyParse, currentYear: int, gen: Generation)
    ensures var out := Handle(req, parse, currentYear, gen);
      && ("X-AI-Model" in out.response.headers && out.call.Some? ==>
            out.response.headers["X-AI-Model"] == out.call.value.model)
      && ("X-AI-Model" in out.response.headers ==> out.response.headers["X-AI-Model"] != "")
      && ("Access-Control-Allow-Origin" in out.response.headers ==>
            out.response.headers["Access-Control-Allow-Origin"] == "*")
  {
    HeaderNamesDiffer();
  }

  /** The header names the handler uses are pairwise different. */
  lemma HeaderNamesDiffer()
    ensures "X-AI-Model" != "Access-Control-Allow-Origin" && "X-AI-Model" != "Access-Control-Allow-Methods"
    ensures "X-AI-Model" != "Access-Control-Allow-Headers" && "X-AI-Model" != "Content-Type"
    ensures "X-AI-Model" != "X-Error-Type" && "X-Error-Type" != "Access-Control-Allow-Origin"
    ensures "Access-Control-Allow-Headers" != "Access-Control-Allow-Origin"
    ensures "Access-Control-Allow-Methods" != "Access-Control-Allow-Origin"
    ensures "Content-Type" != "Access-Control-Allow-Origin"
  {
    assert "X-AI-Model"[2] != "Access-Control-Allow-Origin"[2];
  }
}
