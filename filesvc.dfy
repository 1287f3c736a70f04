/** `convert_to_csv`: a table written through an in-memory text stream by
    a CSV writer using the default ("excel") dialect: fields separated by
    ',', records ended by "\r\n", a field quoted only when it holds ',',
    '"', '\r' or '\n', and a quote inside a quoted field doubled. */
module FileService {
  import opened Strings
  import opened Schemas

  const CRLF := "\r\n"

  /** The text the writer puts down for a cell: nothing for `None`,
      `str(value)` otherwise. */
  function FieldText(c: Cell): string {
    match c
    case Null => ""
    case Text(s) => s
    case Int(i) => IntToString(i)
    case Bool(b) => if b then "True" else "False"
    case Other(text) => text
  }

  function Texts(row: seq<Cell>): (r: seq<string>)
    ensures |r| == |row| && forall j :: 0 <= j < |row| ==> r[j] == FieldText(row[j])
  {
    seq(|row|, j requires 0 <= j < |row| => FieldText(row[j]))
  }

  function Rendered(rows: seq<seq<Cell>>): (r: seq<seq<string>>)
    ensures |r| == |rows| && forall i :: 0 <= i < |rows| ==> r[i] == Texts(rows[i])
  {
    seq(|rows|, i requires 0 <= i < |rows| => Texts(rows[i]))
  }

  /** The header row, as the cells `writerow` receives. */
  function HeaderCells(headers: seq<string>): (r: seq<Cell>)
    ensures Texts(r) == headers
  {
    seq(|headers|, j requires 0 <= j < |headers| => Text(headers[j]))
  }

  /** Minimal quoting: a field needs quotes when it holds the delimiter,
      the quote character or a line-terminator character. */
  predicate NeedsQuotes(f: string) {
    ',' in f || '"' in f || '\r' in f || '\n' in f
  }

  /** Doubles every quote character. */
  function Escape(f: string): (r: string)
    ensures |r| >= |f|
    ensures '"' !in f ==> r == f
  {
    if f == [] then []
    else (if f[0] == '"' then "\"\"" else [f[0]]) + Escape(f[1..])
  }

  function QuoteField(f: string): (r: string)
    ensures !NeedsQuotes(f) ==> r == f
    ensures NeedsQuotes(f) ==> |r| >= |f| + 2 && r[0] == '"' && r[|r| - 1] == '"'
  {
    if NeedsQuotes(f) then "\"" + Escape(f) + "\"" else f
  }

  function JoinFields(fields: seq<string>): string {
    if fields == [] then []
    else if |fields| == 1 then QuoteField(fields[0])
    else QuoteField(fields[0]) + "," + JoinFields(fields[1..])
  }

  /** One record: the joined fields and the line terminator; a record
      whose only field is empty is written as `""` so that it does not read
      back as a blank line. */
  function RecordText(fields: seq<string>): string {
    (if |fields| == 1 && fields[0] == "" then "\"\"" else JoinFields(fields)) + CRLF
  }

  /** `writerows`: the records one after the other. */
  function Records(rows: seq<seq<string>>): string {
    if rows == [] then [] else Records(rows[..|rows| - 1]) + RecordText(rows[|rows| - 1])
  }

  /** The records of the rows, cell texts rendered. */
  function RowRecords(rows: seq<seq<Cell>>): string {
    if rows == [] then [] else RowRecords(rows[..|rows| - 1]) + RecordText(Texts(rows[|rows| - 1]))
  }

  lemma RowRecordsSnoc(rows: seq<seq<Cell>>, i: nat)
    requires i < |rows|
    ensures RowRecords(rows[..i + 1]) == RowRecords(rows[..i]) + RecordText(Texts(rows[i]))
  {
    assert rows[..i + 1][..i] == rows[..i];
  }

  lemma {:induction false} RowRecordsRendered(rows: seq<seq<Cell>>)
    ensures RowRecords(rows) == Records(Rendered(rows))
  {
    if rows != [] {
      var init := rows[..|rows| - 1];
      RowRecordsRendered(init);
      assert Rendered(rows)[..|rows| - 1] == Rendered(init);
    }
  }

  /** What `convert_to_csv(data)` returns. */
  function Encode(data: FileData): string {
    RecordText(data.headers) + RowRecords(data.rows)
  }

  // ---------------------------------------------------------------------
  // The writer, as objects
  // ---------------------------------------------------------------------

  /** `io.StringIO`: text written so far. */
  class TextStream {
    var contents: string

    constructor ()
      ensures contents == ""
    {
      contents := "";
    }

    method Write(s: string)
      modifies this
      ensures contents == old(contents) + s
    {
      contents := contents + s;
    }

    method GetValue() returns (v: string)
      ensures v == contents
    {
      v := contents;
    }
  }

  /** `csv.writer(output)`. */
  class CsvWriter {
    const output: TextStream

    constructor (output: TextStream)
      ensures this.output == output
    {
      this.output := output;
    }

    method WriteRow(row: seq<Cell>)
      modifies output
      ensures output.contents == old(output.contents) + RecordText(Texts(row))
    {
      output.Write(RecordText(Texts(row)));
    }

    method WriteRows(rows: seq<seq<Cell>>)
      modifies output
      ensures output.contents == old(output.contents) + RowRecords(rows)
    {
      var i := 0;
      while i < |rows|
        invariant 0 <= i <= |rows|
        invariant output.contents == old(output.contents) + RowRecords(rows[..i])
        modifies output
      {
        WriteRow(rows[i]);
        RowRecordsSnoc(rows, i);
        i := i + 1;
      }
      assert rows[..i] == rows;
    }
  }

  /** `convert_to_csv(data)`: the header record, then one record per row. */
  method ConvertToCsv(data: FileData) returns (csv: string)
    ensures csv == Encode(data)
  {
    var output := new TextStream();
    var writer := new CsvWriter(output);
    writer.WriteRow(HeaderCells(data.headers));
    writer.WriteRows(data.rows);
    csv := output.GetValue();
  }

  // ---------------------------------------------------------------------
  // Reading the text back
  // ---------------------------------------------------------------------

  /** The rest of a quoted field after its opening quote: a doubled quote
      stands for one quote, a single quote ends the field. */
  function ParseQuoted(s: string, acc: string): (r: (string, string))
    ensures |r.1| <= |s|
  {
    if s == [] then (acc, [])
    else if s[0] == '"' then
      if |s| >= 2 && s[1] == '"' then ParseQuoted(s[2..], acc + ['"']) else (acc, s[1..])
    else ParseQuoted(s[1..], acc + [s[0]])
  }

  /** An unquoted field runs up to the next ',' or '\r'. */
  function ParseBare(s: string): (r: (string, string))
    ensures |r.1| <= |s|
  {
    if s == [] || s[0] == ',' || s[0] == '\r' then ([], s)
    else
      var (f, rest) := ParseBare(s[1..]);
      ([s[0]] + f, rest)
  }

  function ParseField(s: string): (r: (string, string))
    ensures |r.1| <= |s|
  {
    if s != [] && s[0] == '"' then ParseQuoted(s[1..], []) else ParseBare(s)
  }

  function ParseFields(s: string): (r: (seq<string>, string))
    ensures |r.1| <= |s|
    decreases |s|
  {
    var (f, rest) := ParseField(s);
    if rest != [] && rest[0] == ',' then
      var (fs, rest') := ParseFields(rest[1..]);
      ([f] + fs, rest')
    else ([f], rest)
  }

  /** Records up to the first one not ended by "\r\n". */
  function ParseRecords(s: string): seq<seq<string>>
    decreases |s|
  {
    if s == [] then []
    else
      var (fields, rest) := ParseFields(s);
      if |rest| >= 2 && rest[..2] == CRLF then [fields] + ParseRecords(rest[2..]) else [fields]
  }

  /** Text that can follow a field: the end, a delimiter or a terminator. */
  predicate FieldEnd(rest: string) {
    rest == [] || rest[0] == ',' || rest[0] == '\r'
  }

  lemma EscapeCons(f: string)
    requires f != []
    ensures Escape(f) == Escape([f[0]]) + Escape(f[1..])
  {
    assert Escape([f[0]]) == (if f[0] == '"' then "\"\"" else [f[0]]) + Escape([]);
  }

  lemma QuotedEnd(rest: string, acc: string)
    requires rest == [] || rest[0] != '"'
    ensures ParseQuoted("\"" + rest, acc) == (acc, rest)
  {
    assert ("\"" + rest)[1..] == rest;
  }

  lemma QuotedStep(c: char, t: string, acc: string)
    ensures ParseQuoted(Escape([c]) + t, acc) == ParseQuoted(t, acc + [c])
  {
    assert Escape([c]) == (if c == '"' then "\"\"" else [c]) + Escape([]);
    if c == '"' {
      assert ("\"\"" + t)[2..] == t;
    } else {
      assert ([c] + t)[1..] == t;
    }
  }

  lemma {:induction false} QuotedRoundTrip(f: string, rest: string, acc: string)
    requires rest == [] || rest[0] != '"'
    ensures ParseQuoted(Escape(f) + "\"" + rest, acc) == (acc + f, rest)
  {
    if f == [] {
      QuotedEnd(rest, acc);
      assert Escape(f) + "\"" + rest == "\"" + rest;
      assert acc + f == acc;
    } else {
      var tail := Escape(f[1..]) + "\"" + rest;
      EscapeCons(f);
      assert Escape(f) + "\"" + rest == Escape([f[0]]) + tail;
      QuotedStep(f[0], tail, acc);
      QuotedRoundTrip(f[1..], rest, acc + [f[0]]);
      assert acc + [f[0]] + f[1..] == acc + f;
    }
  }

  lemma {:induction false} BareRoundTrip(f: string, rest: string)
    requires !NeedsQuotes(f) && FieldEnd(rest)
    ensures ParseBare(f + rest) == (f, rest)
  {
    if f == [] {
      assert f + rest == rest;
    } else {
      BareRoundTrip(f[1..], rest);
      assert f + rest == [f[0]] + (f[1..] + rest);
      assert [f[0]] + f[1..] == f;
    }
  }

  lemma FieldOpensQuote(t: string)
    ensures ParseField("\"" + t) == ParseQuoted(t, [])
  {
    assert ("\"" + t)[1..] == t;
  }

  /** A written field reads back as itself, whatever follows it. */
  lemma FieldRoundTrip(f: string, rest: string)
    requires FieldEnd(rest)
    ensures ParseField(QuoteField(f) + rest) == (f, rest)
  {
    if NeedsQuotes(f) {
      var t := Escape(f) + "\"" + rest;
      assert QuoteField(f) + rest == "\"" + t;
      FieldOpensQuote(t);
      QuotedRoundTrip(f, rest, []);
      assert [] + f == f;
    } else {
      BareRoundTrip(f, rest);
      if f != [] {
        assert f[0] in f;
      }
    }
  }

  lemma FieldsCons(s: string, f: string, t: string)
    requires ParseField(s) == (f, "," + t)
    ensures ParseFields(s) == ([f] + ParseFields(t).0, ParseFields(t).1)
  {
    assert ("," + t)[1..] == t;
  }

  lemma {:induction false} FieldsRoundTrip(fields: seq<string>, rest: string)
    requires fields != [] && (rest == [] || rest[0] == '\r')
    ensures ParseFields(JoinFields(fields) + rest) == (fields, rest)
  {
    if |fields| == 1 {
      FieldRoundTrip(fields[0], rest);
      assert JoinFields(fields) == QuoteField(fields[0]);
      assert [fields[0]] == fields;
    } else {
      var t := JoinFields(fields[1..]) + rest;
      var s := QuoteField(fields[0]) + ("," + t);
      assert JoinFields(fields) + rest == s;
      FieldRoundTrip(fields[0], "," + t);
      FieldsCons(s, fields[0], t);
      FieldsRoundTrip(fields[1..], rest);
      assert [fields[0]] + fields[1..] == fields;
    }
  }

  lemma RecordRoundTrip(fields: seq<string>, rest: string)
    requires fields != []
    ensures ParseRecords(RecordText(fields) + rest) == [fields] + ParseRecords(rest)
  {
    var after := CRLF + rest;
    var s := RecordText(fields) + rest;
    if |fields| == 1 && fields[0] == "" {
      QuotedRoundTrip("", after, []);
      assert s == "\"" + ("\"" + after);
      assert s[1..] == Escape("") + "\"" + after;
      assert ParseField(s) == ("", after);
      assert after != [] && after[0] == '\r';
      assert ParseFields(s) == ([""], after);
      assert [""] == fields;
    } else {
      FieldsRoundTrip(fields, after);
      assert s == JoinFields(fields) + after;
    }
    assert after[..2] == CRLF && after[2..] == rest;
  }

  lemma {:induction false} RecordsCons(row: seq<string>, rows: seq<seq<string>>)
    ensures Records([row] + rows) == RecordText(row) + Records(rows)
    decreases |rows|
  {
    if rows != [] {
      var init := rows[..|rows| - 1];
      RecordsCons(row, init);
      assert ([row] + rows)[..|rows|] == [row] + init;
    }
  }

  lemma {:induction false} RecordsRoundTrip(rows: seq<seq<string>>)
    requires forall i :: 0 <= i < |rows| ==> rows[i] != []
    ensures ParseRecords(Records(rows)) == rows
    decreases |rows|
  {
    if rows != [] {
      RecordsCons(rows[0], rows[1..]);
      assert [rows[0]] + rows[1..] == rows;
      RecordRoundTrip(rows[0], Records(rows[1..]));
      RecordsRoundTrip(rows[1..]);
    }
  }

  /** Reading the CSV text back gives the header row and the text of every
      cell, provided no row is empty (an empty row is written as a blank
      line, which reads back as one empty field). */
  lemma EncodeRoundTrip(data: FileData)
    requires data.headers != []
    requires forall i :: 0 <= i < |data.rows| ==> data.rows[i] != []
    ensures ParseRecords(Encode(data)) == [data.headers] + Rendered(data.rows)
  {
    var rendered := Rendered(data.rows);
    RowRecordsRendered(data.rows);
    RecordsCons(data.headers, rendered);
    RecordsRoundTrip([data.headers] + rendered);
  }

  /** A field holding the delimiter and a quote is quoted, its quote
      doubled; the header needs no quotes. */
  lemma QuotingExample()
    ensures Encode(FileData(["q"], [[Text("a,\"")]])) == "q\r\n\"a,\"\"\"\r\n"
  {
    var f := "a,\"";
    assert f[1] == ',';
    assert Escape(f[2..]) == "\"\"";
    assert Escape(f[1..]) == [','] + Escape(f[2..]);
    assert Escape(f) == "a,\"\"";
    assert QuoteField(f) == "\"a,\"\"\"";
    assert !NeedsQuotes("q");
    assert Texts([Text(f)]) == [f];
    assert RowRecords([[Text(f)]]) == RowRecords([]) + RecordText([f]);
  }
}
