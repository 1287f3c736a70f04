# Data-Analytics-Aimplify backend core, in Dafny

This project models the deterministic core of the Data-Analytics-Aimplify
FastAPI backend. A user uploads a CSV or Excel file and asks a question about
it. The backend then works in four stages:

1. It reads the upload into a table of headers and rows, sanitising every
   cell (`routes.py`).
2. It checks the request and asks a language model which columns matter. It
   projects the table onto those columns and samples it down to 200 rows, and
   a keyword ranking is the fallback when the model gives no usable answer
   (`preprocessing_service.py`, `analytics_service.py`).
3. It writes the table as CSV text (`file_service.py`) and sends that text to
   the DeepSeek chat API. It cuts the JSON object out of the reply and
   defaults a missing answer (`deepseek_service.py`).
4. Every failure on the way becomes one of a fixed set of user messages, and
   then an HTTP status: 400 for a `ValueError`, 500 for everything else.

Modules, one per file:

- `Wrappers` (`wrappers.dfy`): `Option` and `Result`.
- `Strings` (`strings.dfy`): the Python `str` operations used, namely
  `strip`, `lower`, `in`, `startswith`/`endswith`, `isdigit` and `str(int)`.
- `Schemas` (`schemas.dfy`): `FileData`, the cell values, intents,
  `AnalyticsResponse`, and exceptions with their `str()`.
- `JsonText` (`jsontext.dfy`): `content or '{}'` and the greedy
  `\{.*\}` search.
- `Preprocessing` (`preprocessing.dfy`): column filtering, stratified
  sampling, keyword extraction and ranking, and validation of the model's
  column choice.
- `FileService` (`filesvc.dfy`): the CSV writer as a `TextStream` and a
  `CsvWriter` class, plus a reader that proves the output reads back.
- `DeepSeek` (`deepseek.dfy`): the key check, the intent sentence, reply
  post-processing and the error classifier.
- `Analytics` (`analytics.dfy`): the request checks, the two preparation
  steps, the analysis call and the second error classifier.
- `Routes` (`routes.dfy`): upload dispatch, the sanitising loop and the
  status mapping.

External calls are inputs to the model:

- The language model's completion is a `Completion`: either `Raised(message)`
  or `Completed(content)`.
- `json.loads`, together with the pydantic validation after it, is a decoder
  function parameter.
- The pandas readers are a function from the chosen format to a `Frame` of
  column labels and raw cells, or to an error message.
- The column-identification call is an `Identification` input: its
  `Completion` and its decoder.

Two behaviours of the libraries involved are written into the model:

- `str()` of an `HTTPException` is `"<status>: <detail>"`, which is
  Starlette's format.
- The `csv` module's default dialect quotes a record consisting of one empty
  field as `""`.

## Model

| member | source | states |
|---|---|---|
| Strings.Strip | backend/app/services/deepseek_service.py:32 | `strip()` yields the empty string exactly for all-whitespace input; otherwise the result neither starts nor ends with whitespace |
| Strings.TrimStartShape | backend/app/services/deepseek_service.py:32 | the left strip removes a whitespace-only prefix and stops at a non-space |
| Strings.TrimEndShape | backend/app/services/deepseek_service.py:32 | the right strip removes a whitespace-only suffix and stops at a non-space |
| Strings.LowerIdempotent | backend/app/services/preprocessing_service.py:328 | lowering an already lowered text changes nothing |
| Strings.LowerKeepsLowercase | backend/app/services/preprocessing_service.py:328 | a text without upper-case letters is its own lower case |
| Strings.LowerConcat | backend/app/services/preprocessing_service.py:328 | lowering works piecewise: the lower case of a concatenation is the concatenation of the lower cases |
| Strings.NatToString | backend/app/api/routes.py:100 | `str(n)` is a non-empty digit string, one digit exactly when n < 10 |
| Strings.NatToStringValue | backend/app/api/routes.py:100 | the digits of `str(n)` denote n in decimal, with no leading zero |
| JsonText.OrEmptyObject | backend/app/services/deepseek_service.py:86 | `content or '{}'` is never empty and keeps non-empty content |
| JsonText.FirstIndexSpec | backend/app/services/deepseek_service.py:89 | the first `{` is found exactly when there is one, and no `{` comes before it |
| JsonText.LastIndexSpec | backend/app/services/deepseek_service.py:89 | the last `}` is found exactly when there is one, and no `}` comes after it |
| JsonText.ExtractJsonShape | backend/app/services/deepseek_service.py:89-90 | without a `{` followed later by a `}` the content is kept whole; otherwise the candidate is a stretch of the content that opens with `{` and closes with `}`, with no `{` before it and no `}` after it |
| JsonText.ExtractSurrounded | backend/app/services/deepseek_service.py:89-90 | a braced object between prose without `{` and prose without `}` is extracted exactly |
| Preprocessing.IndexOf | backend/app/services/preprocessing_service.py:227 | `headers.index(col)` is the first position that holds `col` |
| Preprocessing.Present | backend/app/services/preprocessing_service.py:103 | the comprehension keeps exactly the requested names that are headers |
| Preprocessing.PresentConcat | backend/app/services/preprocessing_service.py:103 | the comprehension distributes over concatenation, so the kept names stay in request order |
| Preprocessing.PresentCount | backend/app/services/preprocessing_service.py:103 | a header is kept exactly as often as it is requested, and a non-header never |
| Preprocessing.PresentAll | backend/app/services/preprocessing_service.py:227 | a request made of headers only is kept whole |
| Preprocessing.KeptIndices | backend/app/services/preprocessing_service.py:227 | one kept index per requested header name, in request order, each pointing at that name |
| Preprocessing.FilterColumns | backend/app/services/preprocessing_service.py:211-235 | a full request of known headers returns the table unchanged; otherwise the headers are the known requested names in request order, the row count is kept, and cell j of each row is the input cell at kept index j; a row too short for a kept index raises |
| Preprocessing.Sampled | backend/app/services/preprocessing_service.py:237-268 | a table within the bound is returned unchanged; headers never change; a sample of a longer table starts with the first row |
| Preprocessing.MiddleIndexBounds | backend/app/services/preprocessing_service.py:261-265 | every stratified index lies strictly between the first and the last row |
| Preprocessing.MiddleIndexOrder | backend/app/services/preprocessing_service.py:261-264 | the stratified indices strictly increase |
| Preprocessing.MiddleRowsAll | backend/app/services/preprocessing_service.py:263-266 | all iterations of the stratified loop append, and each appends the row at its index |
| Preprocessing.SampleExactSize | backend/app/services/preprocessing_service.py:248-268 | for n rows > size >= 3 the sample has exactly `size` rows: the first, the last, then middle rows at strictly increasing inner indices |
| Preprocessing.SampleSizeTwoFails | backend/app/services/preprocessing_service.py:260-261 | a sample size of 2 divides by zero on any table of more than two rows |
| Preprocessing.SampleData | backend/app/services/preprocessing_service.py:237-268 | the appending loop returns or raises exactly what `Sampled` describes |
| Preprocessing.PreprocessedShape | backend/app/services/preprocessing_service.py:195-209 | preprocessing yields the filtered table, sampled to exactly 200 rows (first and last kept) when longer; a failed filter returns the original table |
| Preprocessing.PreprocessData | backend/app/services/preprocessing_service.py:173-209 | with intent and columns supplied, the result is the specified preprocessed table |
| Preprocessing.SkipSpaces | backend/app/services/preprocessing_service.py:341 | skipping a whitespace run leaves a suffix, strictly shorter when the text opens with whitespace |
| Preprocessing.PiecesShape | backend/app/services/preprocessing_service.py:341 | no piece of the `re.split` holds a separator, and every character comes from the text |
| Preprocessing.PiecesConcat | backend/app/services/preprocessing_service.py:341 | the pieces, joined, are the text with its separators deleted |
| Preprocessing.KeepKeywordsMembers | backend/app/services/preprocessing_service.py:343-346 | the filter keeps exactly the words longer than 2, not stop words, not all digits |
| Preprocessing.KeywordsShape | backend/app/services/preprocessing_service.py:317-346 | every keyword passes the filter, holds no whitespace or punctuation separator and no upper-case letter; the pieces are the lowered text without separators |
| Preprocessing.PartialMatches | backend/app/services/preprocessing_service.py:299-301 | the partial-match count is zero exactly when no header word contains or is contained in the keyword |
| Preprocessing.KeywordScore | backend/app/services/preprocessing_service.py:294-301 | a keyword scores zero exactly when it is neither in the lowered header nor partially matches a header word |
| Preprocessing.HeaderScore | backend/app/services/preprocessing_service.py:294-301 | a header scores zero exactly when every keyword scores zero for it |
| Preprocessing.Scores | backend/app/services/preprocessing_service.py:288-303 | one score entry per header, in header order |
| Preprocessing.Insert | backend/app/services/preprocessing_service.py:307 | insertion adds exactly the one entry |
| Preprocessing.SortByScore | backend/app/services/preprocessing_service.py:307 | the sort is a permutation of the entries |
| Preprocessing.InsertDescending | backend/app/services/preprocessing_service.py:307 | insertion keeps scores descending |
| Preprocessing.InsertWithScore | backend/app/services/preprocessing_service.py:307 | an inserted entry lands before all entries of its own score |
| Preprocessing.SortByScoreDescending | backend/app/services/preprocessing_service.py:307 | `sorted(..., reverse=True)` orders scores from highest down |
| Preprocessing.SortByScoreStable | backend/app/services/preprocessing_service.py:307 | the sort is stable: the entries of each score keep their input order |
| Preprocessing.Positive | backend/app/services/preprocessing_service.py:306-309 | the filter keeps exactly the positively scored entries |
| Preprocessing.PositiveDescending | backend/app/services/preprocessing_service.py:306-309 | filtering keeps the descending order |
| Preprocessing.PositiveWithScore | backend/app/services/preprocessing_service.py:306-309 | filtering keeps each positive score's entries in order |
| Preprocessing.RankedProperties | backend/app/services/preprocessing_service.py:306-309 | the ranked list is descending, holds exactly the positive entries, and keeps header order within each score |
| Preprocessing.SortedMembers | backend/app/services/preprocessing_service.py:307 | sorting neither adds nor drops an entry |
| Preprocessing.RankedWithin | backend/app/services/preprocessing_service.py:306-315 | every ranked name is a header |
| Preprocessing.RankColumnsShape | backend/app/services/preprocessing_service.py:284-315 | no keywords or no positive score gives all headers; otherwise exactly the positively scored headers, highest score first, ties in header order |
| Preprocessing.RankColumnsWithin | backend/app/services/preprocessing_service.py:270-315 | the result is drawn from the headers and is non-empty when there are headers |
| Preprocessing.AddKeywordScore | backend/app/services/preprocessing_service.py:294-301 | one keyword's pass adds its score to the running total |
| Preprocessing.ScoreHeader | backend/app/services/preprocessing_service.py:289-302 | the nested loop computes the header's score |
| Preprocessing.ScoreColumns | backend/app/services/preprocessing_service.py:288-303 | the loop builds `column_scores` entry by entry |
| Preprocessing.IdentifyRelevantColumnsByKeywords | backend/app/services/preprocessing_service.py:270-315 | the method returns the specified keyword ranking |
| Preprocessing.IdentifyColumns | backend/app/services/preprocessing_service.py:86-121 | the intent is never empty and a missing one becomes the default; the columns are the comprehension of the returned names over the headers (so, by the `Present` lemmas, in returned order with duplicates kept), or all headers when it is empty; a failure falls back to the default intent and the keyword ranking; columns are always drawn from the headers |
| FileService.HeaderCells | backend/app/services/file_service.py:28 | the header row writes the header names |
| FileService.Escape | backend/app/services/file_service.py:25 | quote doubling only lengthens a field, and changes nothing without a quote |
| FileService.QuoteField | backend/app/services/file_service.py:25 | a field is quoted exactly when it holds `,`, `"`, CR or LF; otherwise it is written verbatim |
| FileService.RowRecordsRendered | backend/app/services/file_service.py:31 | the row records are the records of the rendered rows |
| FileService.TextStream.constructor | backend/app/services/file_service.py:24 | a new stream is empty |
| FileService.TextStream.Write | backend/app/services/file_service.py:25 | writing appends to the stream |
| FileService.TextStream.GetValue | backend/app/services/file_service.py:34 | `getvalue()` returns everything written |
| FileService.CsvWriter.constructor | backend/app/services/file_service.py:25 | the writer writes to the given stream |
| FileService.CsvWriter.WriteRow | backend/app/services/file_service.py:28 | `writerow` appends one CRLF-terminated record |
| FileService.CsvWriter.WriteRows | backend/app/services/file_service.py:31 | `writerows` appends one record per row, in order |
| FileService.ConvertToCsv | backend/app/services/file_service.py:12-40 | the output is the header record followed by one record per row; with no rows it is just the header record |
| FileService.QuotedRoundTrip | backend/app/services/file_service.py:25 | a quote-doubled field reads back as itself |
| FileService.BareRoundTrip | backend/app/services/file_service.py:25 | an unquoted field reads back as itself |
| FileService.FieldRoundTrip | backend/app/services/file_service.py:25 | every field, quoted or not, reads back as itself |
| FileService.FieldsRoundTrip | backend/app/services/file_service.py:25 | k comma-joined fields read back as the same k fields |
| FileService.RecordRoundTrip | backend/app/services/file_service.py:28 | a record reads back as its fields |
| FileService.RecordsCons | backend/app/services/file_service.py:31 | the records of a row list are the first row's record, then the rest |
| FileService.RecordsRoundTrip | backend/app/services/file_service.py:31 | the records read back as the rows, in order |
| FileService.EncodeRoundTrip | backend/app/services/file_service.py:12-40 | the CSV text reads back as the header row, then the rendered rows |
| FileService.QuotingExample | backend/app/services/file_service.py:25 | a cell holding `,` and `"` is written quoted with the quote doubled, and records end in CRLF |
| DeepSeek.ClassifyError | backend/app/services/deepseek_service.py:112-138 | every failure becomes one of the six fixed user messages or the "Error calling DeepSeek API: " message |
| DeepSeek.ClassifyErrorCases | backend/app/services/deepseek_service.py:116-138 | each message is chosen exactly when its substring test is the first to match the lowered message, in the order api key/auth, rate limit, token limit, timeout, server, network; otherwise it is the prefixed original |
| DeepSeek.MessagesDiffer | backend/app/services/deepseek_service.py:118-138 | the classifier's messages are pairwise distinct |
| DeepSeek.NamesApiKey | backend/app/services/deepseek_service.py:118 | any message holding "API key" counts as an authentication failure |
| DeepSeek.KeyRequiredIsInvalidKey | backend/app/services/deepseek_service.py:32-33 | the missing-key error is rewritten to the invalid-key message |
| DeepSeek.IntentInfo | backend/app/services/deepseek_service.py:44-51 | empty exactly for an empty intent; otherwise it opens with the analysis sentence, ends with ".", holds each clause whose value is truthy and not "none", and is the bare sentence when neither clause shows |
| DeepSeek.IntentInfoCases | backend/app/services/deepseek_service.py:46-51 | a clause appears only when shown: with only the visualization shown the sentence is opening + visualization clause + "."; with only the aggregation, opening + aggregation clause + "."; with both, the two clauses in that order |
| DeepSeek.VisualizationShownClause | backend/app/services/deepseek_service.py:47-48 | the visualization clause is contributed exactly when its value is truthy and not "none" |
| DeepSeek.AggregationShownClause | backend/app/services/deepseek_service.py:49-50 | the aggregation clause is contributed exactly when its value is truthy and not "none" |
| DeepSeek.SentenceParts | backend/app/services/deepseek_service.py:46-51 | the sentence opens with its opening, ends with "." and holds both clauses |
| DeepSeek.BuildIntentInfo | backend/app/services/deepseek_service.py:43-51 | the `+=` construction yields the specified sentence |
| DeepSeek.DefaultIntentSentence | backend/app/services/deepseek_service.py:44-51 | the default intent yields "\nThis is a descriptive analysis." |
| DeepSeek.PromptQuotesQuery | backend/app/services/deepseek_service.py:54 | the system prompt opens with its fixed preamble and quotes the query followed by the intent sentence |
| DeepSeek.AnswerOrDefault | backend/app/services/deepseek_service.py:97-98 | a missing or empty answer becomes the default sentence; any other is kept |
| DeepSeek.Attempt | backend/app/services/deepseek_service.py:31-110 | a blank key raises the key-required error, a failed completion raises its message, and a response always has a non-empty answer |
| DeepSeek.Outcome | backend/app/services/deepseek_service.py:31-138 | a blank key gives the invalid-key `ValueError`; every failure is a `ValueError` with a user message; a response passes through unchanged |
| DeepSeek.CallDeepSeekApi | backend/app/services/deepseek_service.py:13-138 | the call returns the specified outcome, and a request is sent exactly when the key is not blank: the stripped key, the fixed URL, model and token limit, the prompt for the query and intent, and the CSV text of the table |
| DeepSeek.EmptyContentIsEmptyObject | backend/app/services/deepseek_service.py:86 | missing and empty content are handled as "{}" |
| DeepSeek.NotJsonKeepsRawContent | backend/app/services/deepseek_service.py:107-110 | on a decode failure the answer is the raw, unextracted content, with no visualization |
| DeepSeek.ObjectInProse | backend/app/services/deepseek_service.py:89-104 | a JSON object surrounded by prose is decoded on its own; the answer is defaulted and the visualization copied |
| Analytics.CheckRequest | backend/app/services/analytics_service.py:24-31 | a blank query, then a blank key, then missing headers or rows, each yields its own message; the request passes exactly when none applies |
| Analytics.ClassifyError | backend/app/services/analytics_service.py:57-88 | every failure becomes one of five fixed user messages or the "Error analyzing data: " message |
| Analytics.ClassifyErrorCases | backend/app/services/analytics_service.py:61-88 | each message is chosen exactly when its test is the first to match, in the order api key/auth, rate limit, token limit, timeout, preprocessing; otherwise it is the prefixed original |
| Analytics.MessagesDiffer | backend/app/services/analytics_service.py:63-85 | the classifier's messages are pairwise distinct |
| Analytics.InvalidApiKeyIsFixed | backend/app/services/analytics_service.py:63-64 | the invalid-key message comes out of the second classifier unchanged |
| Analytics.TooManyRequestsNotAuth | backend/app/services/analytics_service.py:63 | the rate-limit message mentions neither "api key", "authentication" nor "auth" |
| Analytics.OpensWithTooManyRequests | backend/app/services/analytics_service.py:65 | a message opening with "Too many requests" counts as a rate-limit failure |
| Analytics.TooManyRequestsIsFixed | backend/app/services/analytics_service.py:63-66 | the rate-limit message comes out of the second classifier unchanged |
| Analytics.PreparedShape | backend/app/services/analytics_service.py:38-45 | the table sent holds the columns the identification step chose (the whole table when they are as many as the headers), min(n, 200) of its n rows and, when there are rows, at least one; a table too short for a chosen column is sent unchanged |
| Analytics.Analysis | backend/app/services/analytics_service.py:24-88 | a failed check raises its own message unrewritten; every failure is a `ValueError`, a user message after the checks; a response has a non-empty answer |
| Analytics.AnalyzeData | backend/app/services/analytics_service.py:12-88 | the orchestration returns the specified outcome, and it sends a request exactly when the checks pass, carrying the identified intent and the table preprocessed to the identified columns |
| Analytics.FailedIdentificationSendsKeywordColumns | backend/app/services/analytics_service.py:37-54 | when the identification call raises, the request carries the table preprocessed to the keyword-ranked columns and the descriptive intent sentence |
| Analytics.BlankKeyStopsAtCheck | backend/app/services/analytics_service.py:27-28 | a blank key with a query stops with "API key is required" |
| Analytics.RateLimitPassesThrough | backend/app/services/analytics_service.py:65-66 | a rate-limit failure of the API call reaches the caller with the same message |
| Routes.FormatOf | backend/app/api/routes.py:73-78 | `.csv` picks the CSV reader, otherwise `.xlsx` or `.xls` picks the Excel reader, and any other name none; suffixes are case-sensitive |
| Routes.SanitisedRow | backend/app/api/routes.py:87-95 | a sanitised row keeps its length, and each cell is sanitised in place |
| Routes.Sanitised | backend/app/api/routes.py:85-95 | sanitising keeps the row count and every row's length |
| Routes.SanitiseRows | backend/app/api/routes.py:85-95 | the nested appending loops build the specified sanitised rows |
| Routes.ProcessedFile | backend/app/api/routes.py:68-100 | an unsupported name fails with status 500 wrapping the inner 400; every failure is a 500 with the "Error processing file: " prefix; a read upload keeps the frame's columns as headers, its row count and every row's length |
| Routes.ProcessFile | backend/app/api/routes.py:68-100 | `process_file` returns or raises exactly what `ProcessedFile` describes |
| Routes.FourHundred | backend/app/api/routes.py:78 | the inner exception's text is "400: " followed by the format message |
| Routes.UnsupportedUpload | backend/app/api/routes.py:78-100 | an unsupported name raises status 500 with detail "Error processing file: 400: …" |
| Routes.AnalyzeStatus | backend/app/api/routes.py:37-43 | a `ValueError` maps to 400 and any other exception to 500, both with the exception's `str()`; a response passes through |
| Routes.AnalyzeEndpoint | backend/app/api/routes.py:29-43 | every failure is an HTTP exception with status 400 or 500; a failed upload always gives 500 |
| Routes.AnalyzeDataEndpoint | backend/app/api/routes.py:16-43 | the endpoint returns the specified outcome |
| Routes.UnsupportedUploadIs500 | backend/app/api/routes.py:37-43 | an unsupported upload reaches the client as status 500, with the `str()` of the inner 500 as detail |
| Routes.CheckFailureIs400 | backend/app/api/routes.py:37-40 | a failed request check reaches the client as status 400 with the check's message |
| Routes.UnsupportedUploadIs400 | backend/app/api/routes.py:78 | once `HTTPException` passes through unchanged, an unsupported upload gets status 400 with the format message |
| Routes.IntendedOnSupportedUploads | backend/app/api/routes.py:98-100 | on supported names that correction changes no answer of a readable upload, and a reader failure keeps its own 500 |
| Routes.ConvertStatus | backend/app/api/routes.py:61-66 | a conversion returns `{"csv": text}`; a failure maps to 400 with the "Error converting data to CSV: " prefix followed by its message |
| Routes.ConvertToCsvEndpoint | backend/app/api/routes.py:50-66 | the endpoint returns the CSV text of the table under "csv" |
| Routes.ConvertedReadsBack | backend/app/api/routes.py:61-63 | the text the endpoint returns reads back as the header row, then the rendered rows |

## Left out

- Language-model calls (the `openai` client): the model does not run
  them. Their result is a `Completion` input, and the requests the model
  would send are returned as `Request` values. The temperature argument is
  not represented.
- `json.loads` and the pydantic validation of the parsed object: these are
  decoder parameters. `NotJson` stands for `JSONDecodeError`, `Rejected` for
  any other exception they raise.
- `pd.read_csv` / `pd.read_excel` and `pd.isna`: the reader is a parameter
  returning a `Frame`, and `RawCell` records what `pd.isna` and the
  timestamp test decide. Column labels are strings; a non-string label that
  pydantic would reject is not modelled.
- `str()` of floats, numpy scalars and timestamps: a cell's text is given
  (`Other(text)`, `Stamp(text)`).
- Strings.Lower: folds ASCII letters only, not the full Unicode case mapping
  of `str.lower()`.
- Strings.IsDigits: accepts the ASCII digits '0'..'9' only. Python's
  `str.isdigit()` is also true for other Unicode digits such as "²³" or
  "٣٤", so a word made of those is kept as a keyword by the model but
  dropped by `extract_keywords`.
- Preprocessing.MiddleIndex: computes `int(1 + i * step)` with exact
  rational arithmetic, `1 + (i * (n - 2)) div r`. The source uses a float
  `step`, and float rounding could differ at exact-integer boundaries.
- The prompt of `analyze_query_and_identify_columns`
  (`preprocessing_service.py:33-84`) is not built. Only its one failure
  mode is modelled: a sample row shorter than the headers
  (`SampleRowsCoverHeaders`).
- DeepSeek.PromptText: the instruction text after the intent sentence is a
  constant. Only the preamble and the quoted query with the intent sentence
  are stated.
- Analytics.ClassifyError: two fixed-point facts are not proved: that the
  time-out message of the first classifier passes the second unchanged, and
  that its token-limit message becomes the four-suggestion variant. Both
  need long-literal non-containment facts that exceed the solver budget.
- The `except` fallback of `analyze_data` (`analytics_service.py:46-51`) is
  not modelled. Both calls inside that `try` catch every `Exception`
  themselves (`preprocessing_service.py:110-121` and `206-209`), so the
  fallback is dead for ordinary exceptions, in the source and in the model.
- Routes.ConvertToCsvEndpoint: the writer cannot fail on a `FileData` in the
  model, so the status-400 path appears only in `ConvertStatus`.
- The legacy delegating wrappers (`preprocessing_service.py:129-171`),
  logging, `main.py`, `run.py` and the health route: plumbing with no logic
  of its own.
- async/await: everything is sequential.
- Intents are string-keyed maps of scalars. A `queryIntent` that is not a
  dictionary is not represented.

## Findings

| source | as written | input that shows it | evidently intended | confidence | as-written member | corrected member |
|---|---|---|---|---|---|---|
| backend/app/api/routes.py:78 | the status-400 `HTTPException` for an unsupported suffix is caught by `process_file`'s own `except Exception` and re-raised as 500, and `/analyze` wraps it as 500 again | an upload named `data.txt`: the detail is "500: Error processing file: 400: Unsupported file format. …" | status 400 with detail "Unsupported file format. Please upload a CSV or Excel file." | high (not executed) | Routes.UnsupportedUploadIs500 | Routes.UnsupportedUploadIs400 |
