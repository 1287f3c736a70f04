/** The HTTP layer: reading an upload into a table (`process_file`), and
    the mapping of service failures to HTTP statuses in the `/analyze` and
    `/convert-to-csv` endpoints. */
module Routes {
  import opened Wrappers
  import opened Strings
  import opened Schemas
  import FileService
  import DeepSeek
  import Analytics

  // ---------------------------------------------------------------------
  // Upload dispatch
  // ---------------------------------------------------------------------

  /** The two readers an upload can be given to. */
  datatype FileFormat = Csv | Excel

  /** The reader chosen by the file name's suffix (case-sensitive), `.csv`
      first; `None` for any other name. */
  function FormatOf(filename: string): (r: Option<FileFormat>)
    ensures r == Some(Csv) <==> EndsWith(filename, ".csv")
    ensures r == Some(Excel) <==>
      !EndsWith(filename, ".csv") && (EndsWith(filename, ".xlsx") || EndsWith(filename, ".xls"))
    ensures r.None? <==>
      !EndsWith(filename, ".csv") && !EndsWith(filename, ".xlsx") && !EndsWith(filename, ".xls")
  {
    if EndsWith(filename, ".csv") then Some(Csv)
    else if EndsWith(filename, ".xlsx") || EndsWith(filename, ".xls") then Some(Excel)
    else None
  }

  // ---------------------------------------------------------------------
  // Cell sanitising
  // ---------------------------------------------------------------------

  /** A cell as the reader returns it: a value `pd.isna` reports as
      missing (None, NaN, NaT), a timestamp or period given by its `str()`,
      or any other value. */
  datatype RawCell = Missing | Stamp(text: string) | Plain(value: Cell)

  /** A table as the reader returns it: column labels and cell rows. */
  datatype Frame = Frame(columns: seq<string>, values: seq<seq<RawCell>>)

  /** The per-cell rule of the sanitising loop. */
  function Sanitise(c: RawCell): Cell {
    match c
    case Missing => Null
    case Stamp(text) => Text(text)
    case Plain(value) => value
  }

  /** One row, sanitised cell by cell. */
  function SanitisedRow(row: seq<RawCell>): (r: seq<Cell>)
    ensures |r| == |row|
    ensures forall j :: 0 <= j < |row| ==> r[j] == Sanitise(row[j])
  {
    if row == [] then []
    else SanitisedRow(row[..|row| - 1]) + [Sanitise(row[|row| - 1])]
  }

  /** All rows, sanitised row by row: the same number of rows, each of the
      same length. */
  function Sanitised(rows: seq<seq<RawCell>>): (r: seq<seq<Cell>>)
    ensures |r| == |rows|
    ensures forall k :: 0 <= k < |rows| ==> r[k] == SanitisedRow(rows[k]) && |r[k]| == |rows[k]|
  {
    if rows == [] then []
    else Sanitised(rows[..|rows| - 1]) + [SanitisedRow(rows[|rows| - 1])]
  }

  /** The nested loops of `process_file` that build `sanitized_rows`. */
  method SanitiseRows(rows: seq<seq<RawCell>>) returns (sanitized: seq<seq<Cell>>)
    ensures sanitized == Sanitised(rows)
  {
    sanitized := [];
    for i := 0 to |rows|
      invariant sanitized == Sanitised(rows[..i])
    {
      var row := rows[i];
      var sanitizedRow := [];
      for j := 0 to |row|
        invariant sanitizedRow == SanitisedRow(row[..j])
      {
        sanitizedRow := sanitizedRow + [Sanitise(row[j])];
        assert row[..j + 1][..j] == row[..j];
      }
      assert row[..|row|] == row;
      sanitized := sanitized + [sanitizedRow];
      assert rows[..i + 1][..i] == rows[..i];
    }
    assert rows[..|rows|] == rows;
  }

  // ---------------------------------------------------------------------
  // Reading an upload
  // ---------------------------------------------------------------------

  const UnsupportedFormat := "Unsupported file format. " + "Please upload a CSV or Excel file."
  const ProcessingPrefix := "Error processing file: "

  /** The outcome of `process_file` for an upload named `filename`; `read`
      says how each reader ends on the upload's bytes. Every failure,
      the unsupported-format one included, leaves as a status-500
      exception. */
  function ProcessedFile(filename: string, read: FileFormat -> Result<Frame, string>): (r: Result<FileData, Exc>)
    ensures FormatOf(filename).None? ==>
      r == Err(HttpException(500, ProcessingPrefix + Str(HttpException(400, UnsupportedFormat))))
    ensures r.Err? ==>
      r.error.HttpException? && r.error.status == 500 && StartsWith(r.error.detail, ProcessingPrefix)
    ensures r.Ok? ==>
      && FormatOf(filename).Some? && read(FormatOf(filename).value).Ok?
      && var frame := read(FormatOf(filename).value).value;
         && r.value.headers == frame.columns
         && |r.value.rows| == |frame.values|
         && forall k :: 0 <= k < |frame.values| ==> |r.value.rows[k]| == |frame.values[k]|
  {
    match FormatOf(filename)
    case None =>
      var detail := ProcessingPrefix + Str(HttpException(400, UnsupportedFormat));
      assert detail[..|ProcessingPrefix|] == ProcessingPrefix;
      Err(HttpException(500, detail))
    case Some(format) =>
      match read(format)
      case Err(m) =>
        assert (ProcessingPrefix + m)[..|ProcessingPrefix|] == ProcessingPrefix;
        Err(HttpException(500, ProcessingPrefix + m))
      case Ok(frame) => Ok(FileData(frame.columns, Sanitised(frame.values)))
  }

  /** `process_file(file)`. */
  method ProcessFile(filename: string, read: FileFormat -> Result<Frame, string>)
    returns (r: Result<FileData, Exc>)
    ensures r == ProcessedFile(filename, read)
  {
    var format := FormatOf(filename);
    var frame: Frame;
    if format == Some(Csv) {
      var df := read(Csv);
      if df.Err? {
        return Err(HttpException(500, ProcessingPrefix + df.error));
      }
      frame := df.value;
    } else if format == Some(Excel) {
      var df := read(Excel);
      if df.Err? {
        return Err(HttpException(500, ProcessingPrefix + df.error));
      }
      frame := df.value;
    } else {
      var raised := HttpException(400, UnsupportedFormat);
      return Err(HttpException(500, ProcessingPrefix + Str(raised)));
    }
    var rows := SanitiseRows(frame.values);
    r := Ok(FileData(frame.columns, rows));
  }

  /** The status code 400 is written as "400" in the detail. */
  lemma FourHundred()
    ensures Str(HttpException(400, UnsupportedFormat)) == "400" + ": " + UnsupportedFormat
  {
    assert NatToString(400) == NatToString(40) + ['0'];
    assert NatToString(40) == NatToString(4) + ['0'];
  }

  // ---------------------------------------------------------------------
  // Status mapping
  // ---------------------------------------------------------------------

  /** The `except` clauses of `analyze_data_endpoint`: a `ValueError`
      becomes status 400 with its message, anything else status 500 with
      its `str()`; a response passes through. */
  function AnalyzeStatus(outcome: Result<AnalyticsResponse, Exc>): (r: Result<AnalyticsResponse, Exc>)
    ensures outcome.Ok? ==> r == outcome
    ensures outcome.Err? ==> r.Err? && r.error.HttpException?
    ensures outcome.Err? ==> (r.error.status == 400 <==> outcome.error.ValueError?)
    ensures outcome.Err? ==> r.error.status in {400, 500} && r.error.detail == Str(outcome.error)
  {
    match outcome
    case Ok(_) => outcome
    case Err(ValueError(m)) => Err(HttpException(400, m))
    case Err(e) => Err(HttpException(500, Str(e)))
  }

  /** The outcome of `/analyze`: the upload is read, then analysed. */
  function AnalyzeEndpoint(query: string, filename: string, read: FileFormat -> Result<Frame, string>,
                           apiKey: string, reply: Completion,
                           decode: string -> DeepSeek.Decoded): (r: Result<AnalyticsResponse, Exc>)
    ensures r.Err? ==> r.error.HttpException? && r.error.status in {400, 500}
    ensures ProcessedFile(filename, read).Err? ==> r.Err? && r.error.status == 500
  {
    match ProcessedFile(filename, read)
    case Err(e) => AnalyzeStatus(Err(e))
    case Ok(data) => AnalyzeStatus(Analytics.Analysis(query, data, apiKey, reply, decode))
  }

  /** `analyze_data_endpoint(query, file, api_key)`; `identification`,
      `reply` and `decode` stand for the language-model calls made on the
      way. */
  method AnalyzeDataEndpoint(query: string, filename: string, read: FileFormat -> Result<Frame, string>,
                             apiKey: string, identification: Analytics.Identification,
                             reply: Completion, decode: string -> DeepSeek.Decoded)
    returns (r: Result<AnalyticsResponse, Exc>)
    ensures r == AnalyzeEndpoint(query, filename, read, apiKey, reply, decode)
  {
    var fileData := ProcessFile(filename, read);
    if fileData.Err? {
      return AnalyzeStatus(Err(fileData.error));
    }
    var result, _ := Analytics.AnalyzeData(query, fileData.value, apiKey, identification, reply, decode);
    r := AnalyzeStatus(result);
  }

  /** `process_file` turns an unsupported name into status 500 whose
      detail holds the inner status-400 exception's text. */
  lemma UnsupportedUpload(filename: string, read: FileFormat -> Result<Frame, string>)
    requires !EndsWith(filename, ".csv") && !EndsWith(filename, ".xlsx") && !EndsWith(filename, ".xls")
    ensures ProcessedFile(filename, read) == Err(HttpException(500, ProcessingPrefix + "400" + ": " + UnsupportedFormat))
  {
    FourHundred();
    assert ProcessingPrefix + ("400" + ": " + UnsupportedFormat) == ProcessingPrefix + "400" + ": " + UnsupportedFormat;
  }

  /** At `/analyze` that exception is caught once more: the client sees
      status 500 whose detail is the `str()` of the first one. */
  lemma UnsupportedUploadIs500(query: string, filename: string, read: FileFormat -> Result<Frame, string>,
                               apiKey: string, reply: Completion, decode: string -> DeepSeek.Decoded)
    requires !EndsWith(filename, ".csv") && !EndsWith(filename, ".xlsx") && !EndsWith(filename, ".xls")
    ensures AnalyzeEndpoint(query, filename, read, apiKey, reply, decode)
      == Err(HttpException(500, Str(HttpException(500, ProcessingPrefix + "400" + ": " + UnsupportedFormat))))
  {
    UnsupportedUpload(filename, read);
  }

  /** A failed request check reaches the client as status 400 with the
      check's own message. */
  lemma CheckFailureIs400(query: string, filename: string, read: FileFormat -> Result<Frame, string>,
                          apiKey: string, reply: Completion, decode: string -> DeepSeek.Decoded)
    requires ProcessedFile(filename, read).Ok?
    requires Analytics.CheckRequest(query, ProcessedFile(filename, read).value, apiKey).Some?
    ensures AnalyzeEndpoint(query, filename, read, apiKey, reply, decode)
      == Err(HttpException(400, Analytics.CheckRequest(query, ProcessedFile(filename, read).value, apiKey).value))
  {
  }

  // ---------------------------------------------------------------------
  // The status an unsupported upload was meant to get
  // ---------------------------------------------------------------------

  /** `except` clauses that let an `HTTPException` through unchanged before
      the generic one: `process_file` with that clause. */
  function ProcessedFileIntended(filename: string, read: FileFormat -> Result<Frame, string>): Result<FileData, Exc> {
    if FormatOf(filename).None? then Err(HttpException(400, UnsupportedFormat))
    else ProcessedFile(filename, read)
  }

  /** The status mapping of `/analyze` with that clause. */
  function AnalyzeStatusIntended(outcome: Result<AnalyticsResponse, Exc>): Result<AnalyticsResponse, Exc> {
    if outcome.Err? && outcome.error.HttpException? then outcome else AnalyzeStatus(outcome)
  }

  function AnalyzeEndpointIntended(query: string, filename: string, read: FileFormat -> Result<Frame, string>,
                                   apiKey: string, reply: Completion,
                                   decode: string -> DeepSeek.Decoded): Result<AnalyticsResponse, Exc> {
    match ProcessedFileIntended(filename, read)
    case Err(e) => AnalyzeStatusIntended(Err(e))
    case Ok(data) => AnalyzeStatusIntended(Analytics.Analysis(query, data, apiKey, reply, decode))
  }

  /** With the pass-through clauses an unsupported upload reaches the
      client as status 400 with the format message itself. */
  lemma UnsupportedUploadIs400(query: string, filename: string, read: FileFormat -> Result<Frame, string>,
                               apiKey: string, reply: Completion, decode: string -> DeepSeek.Decoded)
    requires !EndsWith(filename, ".csv") && !EndsWith(filename, ".xlsx") && !EndsWith(filename, ".xls")
    ensures AnalyzeEndpointIntended(query, filename, read, apiKey, reply, decode)
      == Err(HttpException(400, UnsupportedFormat))
  {
  }

  /** For a supported upload that reads, the corrected endpoint answers
      exactly as the endpoint as written does, since the analysis raises
      only `ValueError`; a reader failure reaches the client as the
      status-500 exception `process_file` raised, not wrapped again. */
  lemma IntendedOnSupportedUploads(query: string, filename: string, read: FileFormat -> Result<Frame, string>,
                                   apiKey: string, reply: Completion, decode: string -> DeepSeek.Decoded)
    requires EndsWith(filename, ".csv") || EndsWith(filename, ".xlsx") || EndsWith(filename, ".xls")
    ensures ProcessedFile(filename, read).Ok? ==>
      AnalyzeEndpointIntended(query, filename, read, apiKey, reply, decode)
        == AnalyzeEndpoint(query, filename, read, apiKey, reply, decode)
    ensures ProcessedFile(filename, read).Err? ==>
      AnalyzeEndpointIntended(query, filename, read, apiKey, reply, decode)
        == Err(HttpException(500, ProcessingPrefix + read(FormatOf(filename).value).error))
  {
    match ProcessedFile(filename, read)
    case Err(e) =>
    case Ok(data) =>
      var outcome := Analytics.Analysis(query, data, apiKey, reply, decode);
      assert outcome.Err? ==> outcome.error.ValueError?;
  }

  const ConvertPrefix := "Error converting data to CSV: "

  /** The body of `/convert-to-csv` for a conversion that returned `csv`
      text or raised with a message. */
  function ConvertStatus(outcome: Result<string, string>): (r: Result<map<string, string>, Exc>)
    ensures outcome.Ok? ==> r == Ok(map["csv" := outcome.value])
    ensures outcome.Err? ==>
      r.Err? && r.error.HttpException? && r.error.status == 400
      && StartsWith(r.error.detail, ConvertPrefix) && EndsWith(r.error.detail, outcome.error)
  {
    match outcome
    case Ok(csv) => Ok(map["csv" := csv])
    case Err(m) =>
      var detail := ConvertPrefix + m;
      assert detail[..|ConvertPrefix|] == ConvertPrefix && detail[|detail| - |m|..] == m;
      Err(HttpException(400, detail))
  }

  /** `convert_to_csv_endpoint(data)`: the writer does not fail on a
      table, so the body is the CSV text of the table. */
  method ConvertToCsvEndpoint(data: FileData) returns (r: Result<map<string, string>, Exc>)
    ensures r == ConvertStatus(Ok(FileService.Encode(data)))
  {
    var csv := FileService.ConvertToCsv(data);
    r := ConvertStatus(Ok(csv));
  }

  /** The CSV text the endpoint returns reads back as the header record
      and the rendered rows. */
  lemma ConvertedReadsBack(data: FileData)
    requires data.headers != []
    requires forall i :: 0 <= i < |data.rows| ==> data.rows[i] != []
    ensures var r := ConvertStatus(Ok(FileService.Encode(data)));
      r.Ok? && "csv" in r.value
      && FileService.ParseRecords(r.value["csv"]) == [data.headers] + FileService.Rendered(data.rows)
  {
    FileService.EncodeRoundTrip(data);
  }
}
