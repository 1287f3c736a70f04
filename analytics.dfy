/** `analyze_data`: the request checks, the two preparation steps, the
    analysis call, and the second classifier that rewrites whatever the
    analysis call raised. */
module Analytics {
  import opened Wrappers
  import opened Strings
  import opened Schemas
  import FileService
  import Preprocessing
  import DeepSeek

  // ---------------------------------------------------------------------
  // Request checks
  // ---------------------------------------------------------------------

  const QueryRequired := "Query is required"
  const ApiKeyRequired := "API key is required"
  const InvalidData := "Invalid or empty data file"

  /** The three checks made before the `try`, in order; their messages
      reach the caller as they are. */
  function CheckRequest(query: string, data: FileData, apiKey: string): (r: Option<string>)
    ensures r == Some(QueryRequired) <==> Blank(query)
    ensures r == Some(ApiKeyRequired) <==> !Blank(query) && Blank(apiKey)
    ensures r == Some(InvalidData) <==>
      !Blank(query) && !Blank(apiKey) && (data.headers == [] || data.rows == [])
    ensures r.None? <==>
      !Blank(query) && !Blank(apiKey) && data.headers != [] && data.rows != []
  {
    if Strip(query) == "" then Some(QueryRequired)
    else if Strip(apiKey) == "" then Some(ApiKeyRequired)
    else if data.headers == [] || data.rows == [] then Some(InvalidData)
    else None
  }

  // ---------------------------------------------------------------------
  // The classifier
  // ---------------------------------------------------------------------

  /** The token-limit message with a fourth suggestion added. */
  const TokenLimitMessage :=
    DeepSeek.TokenLimitMessage + "\n4. Break your analysis " + "into multiple smaller queries"
  const PreprocessingMessage :=
    "Error during data preprocessing. " +
    "Please try one of the following:\n" +
    "1. Simplify your dataset structure\n" +
    "2. Ensure your data is in " + "a standard format\n" +
    "3. Try a more specific query"
  const ErrorPrefix := "Error analyzing data: "

  predicate MentionsPreprocessing(e: string) {
    Contains(e, "preprocessing")
  }

  /** The messages a caller of `analyze_data` can see once the checks pass. */
  predicate IsUserMessage(s: string) {
    || s == DeepSeek.InvalidApiKey || s == DeepSeek.TooManyRequests || s == TokenLimitMessage
    || s == DeepSeek.TimedOutMessage || s == PreprocessingMessage
    || StartsWith(s, ErrorPrefix)
  }

  /** The message of the `ValueError` that `analyze_data` raises for an
      exception from inside its `try` whose `str()` is `message`. */
  function ClassifyError(message: string): (r: string)
    ensures IsUserMessage(r)
  {
    var e := Lower(message);
    var fallback := ErrorPrefix + message;
    assert fallback[..|ErrorPrefix|] == ErrorPrefix;
    if DeepSeek.MentionsAuth(e) then DeepSeek.InvalidApiKey
    else if DeepSeek.MentionsRateLimit(e) then DeepSeek.TooManyRequests
    else if DeepSeek.MentionsTokenLimit(e) then TokenLimitMessage
    else if DeepSeek.MentionsTimeout(e) then DeepSeek.TimedOutMessage
    else if MentionsPreprocessing(e) then PreprocessingMessage
    else fallback
  }

  /** The fixed messages differ from each other in length, and from every
      prefixed message in their first or seventh character. */
  lemma MessagesDiffer(message: string)
    ensures |DeepSeek.InvalidApiKey| == 52 && |DeepSeek.TooManyRequests| == 54
    ensures |TokenLimitMessage| == 288 && |DeepSeek.TimedOutMessage| == 82 && |PreprocessingMessage| == 173
    ensures DeepSeek.InvalidApiKey[0] == 'I' && DeepSeek.TooManyRequests[0] == 'T'
    ensures TokenLimitMessage[0] == 'T' && DeepSeek.TimedOutMessage[0] == 'T'
    ensures PreprocessingMessage[6] == 'd'
    ensures (ErrorPrefix + message)[0] == 'E' && (ErrorPrefix + message)[6] == 'a'
  {
  }

  /** Each message is chosen exactly when the earlier keyword groups are
      absent from the lowercased text and its own group is present; the
      prefixed message exactly when no group is present. */
  lemma ClassifyErrorCases(message: string)
    ensures var r, e := ClassifyError(message), Lower(message);
      && (r == DeepSeek.InvalidApiKey <==> DeepSeek.MentionsAuth(e))
      && (r == DeepSeek.TooManyRequests <==> !DeepSeek.MentionsAuth(e) && DeepSeek.MentionsRateLimit(e))
      && (r == TokenLimitMessage <==>
            !DeepSeek.MentionsAuth(e) && !DeepSeek.MentionsRateLimit(e) && DeepSeek.MentionsTokenLimit(e))
      && (r == DeepSeek.TimedOutMessage <==>
            !DeepSeek.MentionsAuth(e) && !DeepSeek.MentionsRateLimit(e) && !DeepSeek.MentionsTokenLimit(e)
            && DeepSeek.MentionsTimeout(e))
      && (r == PreprocessingMessage <==>
            !DeepSeek.MentionsAuth(e) && !DeepSeek.MentionsRateLimit(e) && !DeepSeek.MentionsTokenLimit(e)
            && !DeepSeek.MentionsTimeout(e) && MentionsPreprocessing(e))
      && (r == ErrorPrefix + message <==>
            !DeepSeek.MentionsAuth(e) && !DeepSeek.MentionsRateLimit(e) && !DeepSeek.MentionsTokenLimit(e)
            && !DeepSeek.MentionsTimeout(e) && !MentionsPreprocessing(e))
  {
    MessagesDiffer(message);
  }

  /** The invalid-key message of the analysis call passes through unchanged. */
  lemma InvalidApiKeyIsFixed()
    ensures ClassifyError(DeepSeek.InvalidApiKey) == DeepSeek.InvalidApiKey
  {
    DeepSeek.NamesApiKey("Invalid ", ". Please check your DeepSeek API key.");
  }

  lemma NoLowerKInTooManyRequests()
    ensures 'k' !in DeepSeek.TooManyRequests
  {
  }

  lemma NoUpperKInTooManyRequests()
    ensures 'K' !in DeepSeek.TooManyRequests
  {
  }

  lemma NoLowerHInTooManyRequests()
    ensures 'h' !in DeepSeek.TooManyRequests
  {
  }

  lemma NoUpperHInTooManyRequests()
    ensures 'H' !in DeepSeek.TooManyRequests
  {
  }

  /** The rate-limit message names no key and no authentication: it has
      no `k` and no `h` in either case. */
  lemma TooManyRequestsNotAuth()
    ensures !DeepSeek.MentionsAuth(Lower(DeepSeek.TooManyRequests))
  {
    var m := DeepSeek.TooManyRequests;
    NoLowerKInTooManyRequests();
    NoUpperKInTooManyRequests();
    NoLowerHInTooManyRequests();
    NoUpperHInTooManyRequests();
    LowerAbsent(m, 'k');
    LowerAbsent(m, 'h');
    AbsentChar(Lower(m), "api key", 4);
    AbsentChar(Lower(m), "authentication", 3);
    AbsentChar(Lower(m), "auth", 3);
  }

  /** Any text opening with "Too many requests" mentions a rate limit. */
  lemma OpensWithTooManyRequests(rest: string)
    ensures DeepSeek.MentionsRateLimit(Lower("Too many requests" + rest))
  {
    LowerOpens("Too many requests", rest);
    LowerTooManyRequests();
  }

  lemma LowerTooManyRequests()
    ensures Lower("Too many requests") == "too many requests"
  {
  }

  /** The rate-limit message of the analysis call passes through unchanged. */
  lemma TooManyRequestsIsFixed()
    ensures ClassifyError(DeepSeek.TooManyRequests) == DeepSeek.TooManyRequests
  {
    TooManyRequestsNotAuth();
    OpensWithTooManyRequests(". Please wait a moment and try again.");
  }

  // ---------------------------------------------------------------------
  // The whole analysis
  // ---------------------------------------------------------------------

  /** How the column-identification call of the first step ends: its
      completion and what `json.loads` makes of the extracted reply. */
  datatype Identification = Identification(reply: Completion, decode: string -> Option<Preprocessing.ColumnsReply>)

  /** The intent and columns `analyze_query_and_identify_columns` chooses. */
  function Chosen(query: string, data: FileData, identification: Identification): (Intent, seq<string>) {
    Preprocessing.IdentifyColumns(query, data, identification.reply, identification.decode)
  }

  /** The intent and the table handed to the analysis call: the chosen
      intent, and the table preprocessed to the chosen columns. */
  function Prepared(query: string, data: FileData, identification: Identification): (Intent, FileData) {
    var chosen := Chosen(query, data, identification);
    (chosen.0, Preprocessing.Preprocessed(data, chosen.1))
  }

  /** The table sent holds the chosen columns (the whole table when they
      name as many columns as there are headers), at most `MaxRows` rows,
      and the first row of the table; when a row is too short for a chosen
      column, it is the original table. */
  lemma PreparedShape(query: string, data: FileData, identification: Identification)
    ensures var columns, p := Chosen(query, data, identification).1, Prepared(query, data, identification).1;
      && (Preprocessing.FilterColumns(data, columns).Err? ==> p == data)
      && (Preprocessing.FilterColumns(data, columns).Ok? ==>
            && (|columns| == |data.headers| ==> p.headers == data.headers)
            && (|columns| != |data.headers| ==> p.headers == columns)
            && |p.rows| == (if |data.rows| <= Preprocessing.MaxRows then |data.rows| else Preprocessing.MaxRows)
            && (data.rows != [] ==> p.rows != []))
  {
    var columns := Chosen(query, data, identification).1;
    Preprocessing.PreprocessedShape(data, columns);
    if !Preprocessing.AllListed(columns, data.headers) {
      Preprocessing.PresentAll(columns, data.headers);
    }
  }

  /** The request the analysis call sends once the checks pass. */
  function RequestFor(query: string, data: FileData, apiKey: string, identification: Identification): DeepSeek.Request
  {
    var p := Prepared(query, data, identification);
    DeepSeek.Request(Strip(apiKey), DeepSeek.BaseUrl, DeepSeek.ModelName,
                     DeepSeek.Prompt(query, DeepSeek.IntentInfo(p.0)), FileService.Encode(p.1),
                     DeepSeek.MaxTokens)
  }

  /** The outcome of `analyze_data`: a failed check as it is, otherwise the
      analysis call's response or its error reclassified. */
  function Analysis(query: string, data: FileData, apiKey: string, reply: Completion,
                    decode: string -> DeepSeek.Decoded): (r: Result<AnalyticsResponse, Exc>)
    ensures CheckRequest(query, data, apiKey).Some? ==>
      r == Err(ValueError(CheckRequest(query, data, apiKey).value))
    ensures r.Err? ==> r.error.ValueError?
    ensures CheckRequest(query, data, apiKey).None? && r.Err? ==> IsUserMessage(r.error.message)
    ensures r.Ok? ==> r.value.answer != ""
  {
    match CheckRequest(query, data, apiKey)
    case Some(m) => Err(ValueError(m))
    case None =>
      match DeepSeek.Outcome(apiKey, reply, decode)
      case Ok(response) => Ok(response)
      case Err(e) => Err(ValueError(ClassifyError(Str(e))))
  }

  /** `analyze_data(query, data, api_key)`: `identification` is how the
      column-identification call ends, `reply` and `decode` how the
      analysis call's completion ends and decodes. Returns the outcome and
      the request the analysis call sent, if any. */
  method AnalyzeData(query: string, data: FileData, apiKey: string, identification: Identification,
                     reply: Completion, decode: string -> DeepSeek.Decoded)
    returns (r: Result<AnalyticsResponse, Exc>, sent: Option<DeepSeek.Request>)
    ensures r == Analysis(query, data, apiKey, reply, decode)
    ensures sent.Some? <==> CheckRequest(query, data, apiKey).None?
    ensures sent.Some? ==> sent.value == RequestFor(query, data, apiKey, identification)
  {
    var check := CheckRequest(query, data, apiKey);
    if check.Some? {
      return Err(ValueError(check.value)), None;
    }
    var (queryIntent, relevantColumns) := Preprocessing.IdentifyColumns(query, data, identification.reply, identification.decode);
    var preprocessed := Preprocessing.PreprocessData(data, relevantColumns);
    var result;
    result, sent := DeepSeek.CallDeepSeekApi(query, preprocessed, apiKey, queryIntent, reply, decode);
    match result {
      case Ok(response) => r := Ok(response);
      case Err(e) => r := Err(ValueError(ClassifyError(Str(e))));
    }
  }

  // ---------------------------------------------------------------------
  // Properties of the whole analysis
  // ---------------------------------------------------------------------

  /** When the column-identification call raises, the analysis call gets
      the table preprocessed to the keyword-ranked columns and a
      descriptive intent with no clauses. */
  lemma FailedIdentificationSendsKeywordColumns(query: string, data: FileData, apiKey: string, message: string,
                                                decode: string -> Option<Preprocessing.ColumnsReply>)
    ensures var q := RequestFor(query, data, apiKey, Identification(Raised(message), decode));
      && q.user == FileService.Encode(Preprocessing.Preprocessed(data, Preprocessing.KeywordColumns(query, data.headers)))
      && q.system.intentInfo == DeepSeek.Opening(DefaultIntent) + "."
      && DeepSeek.AnalysisName(DefaultIntent) == "descriptive"
  {
    DeepSeek.DefaultIntentSentence();
  }

  /** A blank key is reported by the check, so the analysis call's own key
      check is never reached from here. */
  lemma BlankKeyStopsAtCheck(query: string, data: FileData, apiKey: string, reply: Completion,
                             decode: string -> DeepSeek.Decoded)
    requires !Blank(query) && Blank(apiKey)
    ensures Analysis(query, data, apiKey, reply, decode) == Err(ValueError(ApiKeyRequired))
  {
  }

  /** A rate-limit failure of the analysis call reaches the caller with the
      same message. */
  lemma RateLimitPassesThrough(query: string, data: FileData, apiKey: string, reply: Completion,
                               decode: string -> DeepSeek.Decoded)
    requires CheckRequest(query, data, apiKey).None?
    requires DeepSeek.Outcome(apiKey, reply, decode) == Err(ValueError(DeepSeek.TooManyRequests))
    ensures Analysis(query, data, apiKey, reply, decode) == Err(ValueError(DeepSeek.TooManyRequests))
  {
    TooManyRequestsIsFixed();
  }
}
