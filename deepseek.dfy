/** The analysis call `call_deepseek_api` with the network taken out: the
    api-key check, the intent sentence added to the prompt, the handling of
    the model's reply text, and the classifier that rewrites every failure
    into one fixed user message. */
module DeepSeek {
  import opened Wrappers
  import opened Strings
  import opened Schemas
  import opened JsonText
  import FileService

  // ---------------------------------------------------------------------
  // Messages (long ones are written as concatenations of short pieces)
  // ---------------------------------------------------------------------

  /** Raised for a missing or blank key, before the classifier sees it. */
  const KeyRequired := "DeepSeek " + "API key" + " is required"

  const InvalidApiKey := "Invalid " + "API key" + ". Please check your DeepSeek API key."
  const TooManyRequests := "Too many requests" + ". Please wait a moment and try again."
  const TokenLimitMessage :=
    "The dataset is too large for the " + "DeepSeek API token limits. " +
    "Please try one of the following:\n" +
    "1. Use a more specific query that " + "focuses on fewer columns\n" +
    "2. Reduce your dataset size " + "before uploading\n" +
    "3. Try analyzing a subset of your data"
  const TimedOutMessage :=
    "The request timed out. " + "Please try again with a smaller " + "dataset or a simpler query."
  const ServerErrorMessage :=
    "The DeepSeek API server " + "encountered an error. " + "Please try again later."
  const NetworkErrorMessage :=
    "Network error while connecting " + "to the DeepSeek API. " + "Please check your internet connection."
  const ErrorPrefix := "Error calling DeepSeek API: "

  /** Put in place of a missing or empty answer. */
  const DefaultAnswer := "The analysis was completed, " + "but no specific answer was provided."

  // ---------------------------------------------------------------------
  // The error classifier
  // ---------------------------------------------------------------------

  // The keyword groups the classifier tests, on the lowercased message.
  predicate MentionsAuth(e: string) {
    Contains(e, "api key") || Contains(e, "authentication") || Contains(e, "auth")
  }

  predicate MentionsRateLimit(e: string) {
    Contains(e, "rate limit") || Contains(e, "too many requests")
  }

  predicate MentionsTokenLimit(e: string) {
    Contains(e, "maximum context length") || Contains(e, "token limit")
  }

  predicate MentionsTimeout(e: string) {
    Contains(e, "timeout") || Contains(e, "timed out")
  }

  predicate MentionsServer(e: string) {
    Contains(e, "server") || Contains(e, "5xx")
  }

  predicate MentionsNetwork(e: string) {
    Contains(e, "network") || Contains(e, "connection")
  }

  /** The messages a caller of `call_deepseek_api` can see in its `ValueError`. */
  predicate IsUserMessage(s: string) {
    || s == InvalidApiKey || s == TooManyRequests || s == TokenLimitMessage
    || s == TimedOutMessage || s == ServerErrorMessage || s == NetworkErrorMessage
    || StartsWith(s, ErrorPrefix)
  }

  /** The message of the `ValueError` that `call_deepseek_api` raises for
      an exception whose `str()` is `message`: the first keyword group the
      lowercased message mentions picks a fixed message, and a message
      mentioning none is passed on behind a prefix. */
  function ClassifyError(message: string): (r: string)
    ensures IsUserMessage(r)
  {
    var e := Lower(message);
    var fallback := ErrorPrefix + message;
    assert fallback[..|ErrorPrefix|] == ErrorPrefix;
    if MentionsAuth(e) then InvalidApiKey
    else if MentionsRateLimit(e) then TooManyRequests
    else if MentionsTokenLimit(e) then TokenLimitMessage
    else if MentionsTimeout(e) then TimedOutMessage
    else if MentionsServer(e) then ServerErrorMessage
    else if MentionsNetwork(e) then NetworkErrorMessage
    else fallback
  }

  /** Each message is chosen exactly when the earlier keyword groups are
      absent from the lowercased text and its own group is present; the
      prefixed message exactly when no group is present. */
  lemma ClassifyErrorCases(message: string)
    ensures var r, e := ClassifyError(message), Lower(message);
      && (r == InvalidApiKey <==> MentionsAuth(e))
      && (r == TooManyRequests <==> !MentionsAuth(e) && MentionsRateLimit(e))
      && (r == TokenLimitMessage <==>
            !MentionsAuth(e) && !MentionsRateLimit(e) && MentionsTokenLimit(e))
      && (r == TimedOutMessage <==>
            !MentionsAuth(e) && !MentionsRateLimit(e) && !MentionsTokenLimit(e) && MentionsTimeout(e))
      && (r == ServerErrorMessage <==>
            !MentionsAuth(e) && !MentionsRateLimit(e) && !MentionsTokenLimit(e) && !MentionsTimeout(e)
            && MentionsServer(e))
      && (r == NetworkErrorMessage <==>
            !MentionsAuth(e) && !MentionsRateLimit(e) && !MentionsTokenLimit(e) && !MentionsTimeout(e)
            && !MentionsServer(e) && MentionsNetwork(e))
      && (r == ErrorPrefix + message <==>
            !MentionsAuth(e) && !MentionsRateLimit(e) && !MentionsTokenLimit(e) && !MentionsTimeout(e)
            && !MentionsServer(e) && !MentionsNetwork(e))
  {
    MessagesDiffer(message);
  }

  /** The fixed messages differ from each other in length, and from every
      prefixed message in their first character. */
  lemma MessagesDiffer(message: string)
    ensures |InvalidApiKey| == 52 && |TooManyRequests| == 54 && |TokenLimitMessage| == 235
    ensures |TimedOutMessage| == 82 && |ServerErrorMessage| == 69 && |NetworkErrorMessage| == 90
    ensures InvalidApiKey[0] == 'I' && TooManyRequests[0] == 'T' && TokenLimitMessage[0] == 'T'
    ensures TimedOutMessage[0] == 'T' && ServerErrorMessage[0] == 'T' && NetworkErrorMessage[0] == 'N'
    ensures (ErrorPrefix + message)[0] == 'E'
  {
  }

  lemma LowerApiKey()
    ensures Lower("API key") == "api key"
  {
  }

  /** Any text with "API key" inside it mentions authentication. */
  lemma NamesApiKey(before: string, after: string)
    ensures MentionsAuth(Lower(before + "API key" + after))
  {
    LowerWithin(before, "API key", after);
    LowerApiKey();
  }

  /** The missing-key error is itself rewritten to the invalid-key message. */
  lemma KeyRequiredIsInvalidKey()
    ensures ClassifyError(KeyRequired) == InvalidApiKey
  {
    NamesApiKey("DeepSeek ", " is required");
  }

  // ---------------------------------------------------------------------
  // The intent sentence
  // ---------------------------------------------------------------------

  /** `query_intent.get('analysisType', 'descriptive')`, as interpolated. */
  function AnalysisName(intent: Intent): string {
    if "analysisType" in intent then Render(intent["analysisType"]) else "descriptive"
  }

  /** `query_intent.get(key) and query_intent.get(key) != 'none'`. */
  predicate Shown(intent: Intent, key: string) {
    key in intent && Truthy(intent[key]) && intent[key] != SString("none")
  }

  function Opening(intent: Intent): string {
    "\nThis is a " + AnalysisName(intent) + " analysis"
  }

  function VisualizationClause(intent: Intent): string
    requires "visualizationType" in intent
  {
    " that may benefit from a " + Render(intent["visualizationType"]) + " visualization"
  }

  function AggregationClause(intent: Intent): string
    requires "aggregationType" in intent
  {
    " using " + Render(intent["aggregationType"]) + " aggregation"
  }

  /** `intent_info`: empty for an empty intent, otherwise one sentence that
      names the analysis type and, when they are set to something other than
      'none', the visualization and the aggregation. */
  function IntentInfo(intent: Intent): (r: string)
    ensures r == "" <==> |intent| == 0
    ensures |intent| != 0 ==> StartsWith(r, Opening(intent)) && EndsWith(r, ".")
    ensures Shown(intent, "visualizationType") ==> Contains(r, VisualizationClause(intent))
    ensures Shown(intent, "aggregationType") ==> Contains(r, AggregationClause(intent))
    ensures |intent| != 0 && !Shown(intent, "visualizationType") && !Shown(intent, "aggregationType")
            ==> r == Opening(intent) + "."
  {
    if |intent| == 0 then ""
    else
      SentenceParts(Opening(intent), ShownClause(intent, "visualizationType"), ShownClause(intent, "aggregationType"));
      Opening(intent) + Clauses(intent) + "."
  }

  /** The clause for `key` when the intent shows it, otherwise nothing. */
  function ShownClause(intent: Intent, key: string): string {
    if !Shown(intent, key) then ""
    else if key == "visualizationType" then VisualizationClause(intent)
    else if key == "aggregationType" then AggregationClause(intent)
    else ""
  }

  function Clauses(intent: Intent): string {
    ShownClause(intent, "visualizationType") + ShownClause(intent, "aggregationType")
  }

  lemma SentenceParts(opening: string, viz: string, agg: string)
    ensures var s := opening + (viz + agg) + ".";
      StartsWith(s, opening) && EndsWith(s, ".") && Contains(s, viz) && Contains(s, agg)
  {
    var s := opening + (viz + agg) + ".";
    assert s == opening + (viz + agg + ".");
    assert s[..|opening|] == opening;
    Within(opening, viz, agg + ".");
    assert opening + viz + (agg + ".") == s;
    Within(opening + viz, agg, ".");
    assert opening + viz + agg + "." == s;
  }

  lemma VisualizationShownClause(intent: Intent)
    ensures Shown(intent, "visualizationType") ==> ShownClause(intent, "visualizationType") == VisualizationClause(intent)
    ensures !Shown(intent, "visualizationType") ==> ShownClause(intent, "visualizationType") == ""
  {
  }

  lemma AggregationShownClause(intent: Intent)
    ensures Shown(intent, "aggregationType") ==> ShownClause(intent, "aggregationType") == AggregationClause(intent)
    ensures !Shown(intent, "aggregationType") ==> ShownClause(intent, "aggregationType") == ""
  {
    assert "aggregationType" != "visualizationType" by {
      assert |"aggregationType"| != |"visualizationType"|;
    }
  }

  lemma Joined(opening: string, viz: string, agg: string)
    ensures viz == "" ==> opening + (viz + agg) + "." == opening + agg + "."
    ensures agg == "" ==> opening + (viz + agg) + "." == opening + viz + "."
    ensures opening + (viz + agg) + "." == opening + viz + agg + "."
  {
    assert viz == "" ==> viz + agg == agg;
    assert agg == "" ==> viz + agg == viz;
  }

  /** A clause appears only when its value shows: the sentence holds
      exactly the clauses shown, visualization before aggregation. */
  lemma IntentInfoCases(intent: Intent)
    ensures |intent| != 0 && Shown(intent, "visualizationType") && !Shown(intent, "aggregationType") ==>
      IntentInfo(intent) == Opening(intent) + VisualizationClause(intent) + "."
    ensures |intent| != 0 && !Shown(intent, "visualizationType") && Shown(intent, "aggregationType") ==>
      IntentInfo(intent) == Opening(intent) + AggregationClause(intent) + "."
    ensures |intent| != 0 && Shown(intent, "visualizationType") && Shown(intent, "aggregationType") ==>
      IntentInfo(intent) == Opening(intent) + VisualizationClause(intent) + AggregationClause(intent) + "."
  {
    VisualizationShownClause(intent);
    AggregationShownClause(intent);
    Joined(Opening(intent), ShownClause(intent, "visualizationType"), ShownClause(intent, "aggregationType"));
  }

  /** The `+=` steps that build `intent_info`. */
  method BuildIntentInfo(intent: Intent) returns (info: string)
    ensures info == IntentInfo(intent)
  {
    info := "";
    if |intent| != 0 {
      info := Opening(intent);
      var clauses := "";
      if Shown(intent, "visualizationType") {
        clauses := clauses + VisualizationClause(intent);
      }
      assert clauses == ShownClause(intent, "visualizationType");
      if Shown(intent, "aggregationType") {
        clauses := clauses + AggregationClause(intent);
      }
      assert clauses == Clauses(intent);
      info := info + clauses + ".";
    }
  }

  /** The fallback intent names a descriptive analysis and adds no clause. */
  lemma DefaultIntentSentence()
    ensures AnalysisName(DefaultIntent) == "descriptive"
    ensures IntentInfo(DefaultIntent) == Opening(DefaultIntent) + "."
  {
    assert DefaultIntent["analysisType"] == SString("descriptive");
    assert DefaultIntent["visualizationType"] == SString("none");
    assert DefaultIntent["aggregationType"] == SString("none");
  }

  // ---------------------------------------------------------------------
  // The request and the reply
  // ---------------------------------------------------------------------

  const BaseUrl := "https://api.deepseek.com/v1"
  const ModelName := "deepseek-reasoner"
  const MaxTokens := 8000

  /** The fixed instructions that follow the query in the system prompt. */
  const Instructions :=
    "\nThe data is in CSV format with the following structure:\n" +
    "- First row: Column headers\n" +
    "- Subsequent rows: Data values\n\n" +
    "Provide a clear, concise answer. If appropriate, suggest a visualization type (bar, line, or pie) and provide the data for it.\n\n" +
    "Your response should be in JSON format with the following structure:\n" +
    "{\n" +
    "  \"answer\": \"Your detailed answer here\",\n" +
    "  \"visualization\": {\n" +
    "    \"type\": \"bar|line|pie\",\n" +
    "    \"data\": [{\"name\": \"Category1\", \"value\": 123}, ...]\n" +
    "  }\n" +
    "}\n\n" +
    "Only include the visualization if it makes sense for the query. If no visualization is appropriate, omit the visualization field.\n" +
    "Make sure your entire response can be parsed as valid JSON."

  const Preamble :=
    "You are a data analysis assistant. " + "Analyze the following data and " + "answer the user's query: "

  /** The system prompt, given by the two values interpolated into its
      fixed text: the query and the intent sentence. */
  datatype Prompt = Prompt(query: string, intentInfo: string)

  /** The part of the prompt text that depends on the request. */
  function Interpolated(p: Prompt): string {
    "\"" + p.query + "\"." + p.intentInfo
  }

  function PromptText(p: Prompt): string {
    Preamble + Interpolated(p) + Instructions
  }

  /** The prompt opens with the fixed preamble and then quotes the query
      and follows it with the intent sentence. */
  lemma PromptQuotesQuery(p: Prompt)
    ensures StartsWith(PromptText(p), Preamble)
    ensures Contains(PromptText(p), Interpolated(p))
  {
    Within(Preamble, Interpolated(p), Instructions);
    Opens(Preamble, Interpolated(p), Instructions);
  }

  /** What is sent to the chat-completions endpoint: the stripped key, the
      system prompt and the CSV text of the data as the user message. */
  datatype Request = Request(apiKey: string, baseUrl: string, model: string,
                             system: Prompt, user: string, maxTokens: nat)

  /** What `json.loads` and the reads that follow it make of the JSON
      candidate: not JSON at all; an object with its `answer` (None when
      missing or falsy) and `visualization`; or another failure (a value
      that is not an object, an answer or chart that does not validate),
      given by its message. */
  datatype Decoded =
    | NotJson
    | Parsed(answer: Option<string>, visualization: Option<Visualization>)
    | Rejected(message: string)

  /** `answer` when it is a non-empty string, the default sentence otherwise. */
  function AnswerOrDefault(answer: Option<string>): (r: string)
    ensures r != ""
    ensures answer.Some? && answer.value != "" ==> r == answer.value
    ensures answer.None? || answer.value == "" ==> r == DefaultAnswer
  {
    if answer.Some? && answer.value != "" then answer.value else DefaultAnswer
  }

  /** How the `try` block of `call_deepseek_api` ends when the completion
      call ends as `reply` and the JSON candidate decodes as `decode` says:
      with a response, or raising an exception with the given message. */
  function Attempt(apiKey: string, reply: Completion, decode: string -> Decoded): (r: Result<AnalyticsResponse, string>)
    ensures Blank(apiKey) ==> r == Err(KeyRequired)
    ensures !Blank(apiKey) && reply.Raised? ==> r == Err(reply.message)
    ensures r.Ok? ==> r.value.answer != ""
  {
    if Blank(apiKey) then Err(KeyRequired)
    else match reply
      case Raised(m) => Err(m)
      case Completed(c) =>
        var content := OrEmptyObject(c);
        match decode(Strip(ExtractJson(content)))
        case NotJson => Ok(AnalyticsResponse(content, None))
        case Parsed(answer, viz) => Ok(AnalyticsResponse(AnswerOrDefault(answer), viz))
        case Rejected(m) => Err(m)
  }

  /** The outcome of `call_deepseek_api`: the response of the `try` block,
      or a `ValueError` whose message the classifier chose. */
  function Outcome(apiKey: string, reply: Completion, decode: string -> Decoded): (r: Result<AnalyticsResponse, Exc>)
    ensures Blank(apiKey) ==> r == Err(ValueError(InvalidApiKey))
    ensures r.Err? ==> r.error.ValueError? && IsUserMessage(r.error.message)
    ensures Attempt(apiKey, reply, decode).Ok? ==> r == Ok(Attempt(apiKey, reply, decode).value)
    ensures r.Ok? ==> r.value.answer != ""
  {
    match Attempt(apiKey, reply, decode)
    case Ok(response) => Ok(response)
    case Err(m) =>
      KeyRequiredIsInvalidKey();
      Err(ValueError(ClassifyError(m)))
  }

  /** `call_deepseek_api(query, data, api_key, query_intent)`: `reply` is
      how the completion call ended and `decode` stands for `json.loads`
      and the reads of its result. Returns the outcome and the request
      sent, if any. */
  method CallDeepSeekApi(query: string, data: FileData, apiKey: string, intent: Intent,
                         reply: Completion, decode: string -> Decoded)
    returns (r: Result<AnalyticsResponse, Exc>, sent: Option<Request>)
    ensures r == Outcome(apiKey, reply, decode)
    ensures sent.None? <==> Blank(apiKey)
    ensures sent.Some? ==>
      sent.value == Request(Strip(apiKey), BaseUrl, ModelName,
                            Prompt(query, IntentInfo(intent)), FileService.Encode(data), MaxTokens)
  {
    var attempt: Result<AnalyticsResponse, string>;
    if Blank(apiKey) {
      attempt := Err(KeyRequired);
      sent := None;
    } else {
      var csv := FileService.ConvertToCsv(data);
      var info := BuildIntentInfo(intent);
      sent := Some(Request(Strip(apiKey), BaseUrl, ModelName, Prompt(query, info), csv, MaxTokens));
      match reply {
        case Raised(m) =>
          attempt := Err(m);
        case Completed(c) =>
          var content := OrEmptyObject(c);
          match decode(Strip(ExtractJson(content))) {
            case NotJson =>
              attempt := Ok(AnalyticsResponse(content, None));
            case Rejected(m) =>
              attempt := Err(m);
            case Parsed(answer, viz) =>
              var a := answer;
              if a.None? || a.value == "" {
                a := Some(DefaultAnswer);
              }
              attempt := Ok(AnalyticsResponse(a.value, viz));
          }
      }
    }
    assert attempt == Attempt(apiKey, reply, decode);
    match attempt {
      case Ok(response) => r := Ok(response);
      case Err(m) => r := Err(ValueError(ClassifyError(m)));
    }
  }

  // ---------------------------------------------------------------------
  // Properties of the reply handling
  // ---------------------------------------------------------------------

  /** No content and empty content are both read as the empty object. */
  lemma EmptyContentIsEmptyObject(apiKey: string, decode: string -> Decoded)
    ensures Attempt(apiKey, Completed(None), decode) == Attempt(apiKey, Completed(Some("{}")), decode)
    ensures Attempt(apiKey, Completed(Some("")), decode) == Attempt(apiKey, Completed(Some("{}")), decode)
  {
    assert OrEmptyObject(None) == OrEmptyObject(Some("")) == OrEmptyObject(Some("{}"));
  }

  /** When the candidate is not JSON, the answer is the whole raw content,
      prose around the braces included, and there is no chart. */
  lemma NotJsonKeepsRawContent(apiKey: string, content: string, decode: string -> Decoded)
    requires !Blank(apiKey) && content != ""
    requires decode(Strip(ExtractJson(content))) == NotJson
    ensures Attempt(apiKey, Completed(Some(content)), decode) == Ok(AnalyticsResponse(content, None))
  {
  }

  /** A braced object inside prose is what gets decoded: its answer (or the
      default sentence) and its chart are the result. */
  lemma ObjectInProse(apiKey: string, before: string, obj: string, after: string,
                      decode: string -> Decoded)
    requires !Blank(apiKey)
    requires '{' !in before && '}' !in after
    requires |obj| >= 2 && obj[0] == '{' && obj[|obj| - 1] == '}'
    requires decode(Strip(obj)).Parsed?
    ensures var r := Attempt(apiKey, Completed(Some(before + obj + after)), decode);
      r == Ok(AnalyticsResponse(AnswerOrDefault(decode(Strip(obj)).answer), decode(Strip(obj)).visualization))
  {
    ExtractSurrounded(before, obj, after);
    assert before + obj + after != "";
  }
}
