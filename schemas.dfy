/** The records the backend passes between its services (`FileData`,
    `AnalyticsResponse`, the query-intent dictionary) and the exceptions its
    services raise, as plain values. */
module Schemas {
  import opened Wrappers
  import opened Strings

  /** One table cell as the services see it: Python's `None`, a string, an
      integer, a boolean, or any other value (a float, a nested object)
      represented by the text `str()` gives for it. */
  datatype Cell = Null | Text(s: string) | Int(i: int) | Bool(b: bool) | Other(text: string)

  /** `FileData`: headers and rows; rows are not required to match the
      header count. */
  datatype FileData = FileData(headers: seq<string>, rows: seq<seq<Cell>>)

  /** A JSON scalar as `json.loads` returns it: `None`, a bool, a number
      (its `str()` text and whether it equals zero) or a string. */
  datatype Scalar = SNull | SBool(b: bool) | SNumber(text: string, zero: bool) | SString(s: string)

  /** Python truthiness of a scalar. */
  predicate Truthy(v: Scalar) {
    match v
    case SNull => false
    case SBool(b) => b
    case SNumber(_, zero) => !zero
    case SString(s) => s != ""
  }

  /** What an f-string interpolation `{v}` writes for a scalar. */
  function Render(v: Scalar): string {
    match v
    case SNull => "None"
    case SBool(b) => if b then "True" else "False"
    case SNumber(text, _) => text
    case SString(s) => s
  }

  /** The query-intent dictionary (`analysisType`, `visualizationType`,
      `aggregationType`, or whatever keys the model returned). */
  type Intent = map<string, Scalar>

  /** The intent used whenever none could be obtained. */
  const DefaultIntent: Intent :=
    map["analysisType" := SString("descriptive"),
        "visualizationType" := SString("none"),
        "aggregationType" := SString("none")]

  /** `VisualizationData`: a chart kind and its data points. */
  datatype Visualization = Visualization(kind: string, data: seq<map<string, Scalar>>)

  /** `AnalyticsResponse`: the answer and an optional chart. */
  datatype AnalyticsResponse = AnalyticsResponse(answer: string, visualization: Option<Visualization>)

  /** The exceptions that cross service boundaries. */
  datatype Exc =
    | ValueError(message: string)
    | HttpException(status: nat, detail: string)
    | OtherError(message: string)

  /** `str(e)`; an `HTTPException` renders as "status: detail". */
  function Str(e: Exc): string {
    match e
    case ValueError(m) => m
    case HttpException(status, detail) => NatToString(status) + ": " + detail
    case OtherError(m) => m
  }

  /** The outcome of one chat-completion call: it raised an exception with
      the given message, or it returned a message content (possibly `None`). */
  datatype Completion = Raised(message: string) | Completed(content: Option<string>)
}
