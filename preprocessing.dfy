/** The deterministic part of preprocessing: projecting a table onto the
    columns a query needs, sampling its rows down to a bound, extracting
    keywords from a query and ranking headers by them, and validating the
    columns a model named. */
module Preprocessing {
  import opened Wrappers
  import opened Strings
  import opened Schemas
  import opened JsonText

  // ---------------------------------------------------------------------
  // Column filtering
  // ---------------------------------------------------------------------

  /** `headers.index(col)`: the position of the first occurrence of `col`. */
  function IndexOf(headers: seq<string>, col: string): (k: nat)
    requires col in headers
    ensures k < |headers| && headers[k] == col
    ensures forall j :: 0 <= j < k ==> headers[j] != col
  {
    if headers[0] == col then 0 else 1 + IndexOf(headers[1..], col)
  }

  /** `[col for col in columns if col in headers]`: the requested names
      that are headers, in request order, duplicates kept. */
  function Present(columns: seq<string>, headers: seq<string>): (r: seq<string>)
    ensures forall c :: c in r <==> c in columns && c in headers
    ensures |r| <= |columns|
  {
    if columns == [] then []
    else (if columns[0] in headers then [columns[0]] else []) + Present(columns[1..], headers)
  }

  /** The comprehension distributes over concatenation, so it keeps the
      requested order. */
  lemma {:induction false} PresentConcat(a: seq<string>, b: seq<string>, headers: seq<string>)
    ensures Present(a + b, headers) == Present(a, headers) + Present(b, headers)
  {
    if a != [] {
      PresentConcat(a[1..], b, headers);
      assert (a + b)[0] == a[0] && (a + b)[1..] == a[1..] + b;
    } else {
      assert a + b == b;
    }
  }

  /** A header is kept as often as it is requested, any other name never. */
  lemma {:induction false} PresentCount(a: seq<string>, headers: seq<string>, c: string)
    ensures multiset(Present(a, headers))[c] == if c in headers then multiset(a)[c] else 0
  {
    if a != [] {
      PresentCount(a[1..], headers, c);
      assert a == [a[0]] + a[1..];
    }
  }

  /** A request made of headers only is kept whole. */
  lemma {:induction false} PresentAll(a: seq<string>, headers: seq<string>)
    requires forall c :: c in a ==> c in headers
    ensures Present(a, headers) == a
  {
    if a != [] {
      PresentAll(a[1..], headers);
      assert a == [a[0]] + a[1..];
    }
  }

  /** The indices `filter_columns` keeps: one per requested name that is a
      header, the index of its first occurrence. */
  function KeptIndices(headers: seq<string>, columns: seq<string>): (r: seq<nat>)
    ensures |r| == |Present(columns, headers)|
    ensures forall j :: 0 <= j < |r| ==> r[j] < |headers| && headers[r[j]] == Present(columns, headers)[j]
  {
    var names := Present(columns, headers);
    seq(|names|, j requires 0 <= j < |names| => IndexOf(headers, names[j]))
  }

  /** The shortcut condition of `filter_columns`: as many requested names as
      headers, and every one of them a header. */
  predicate AllListed(columns: seq<string>, headers: seq<string>) {
    |columns| == |headers| && forall c :: c in columns ==> c in headers
  }

  /** Every kept index is inside the row (otherwise `row[i]` raises). */
  predicate Covers(row: seq<Cell>, indices: seq<nat>) {
    forall j :: 0 <= j < |indices| ==> indices[j] < |row|
  }

  const IndexOutOfRange := "list index out of range"

  /** `filter_columns(data, columns)`. */
  function FilterColumns(data: FileData, columns: seq<string>): (r: Result<FileData, Exc>)
    ensures AllListed(columns, data.headers) ==> r == Ok(data)
    ensures !AllListed(columns, data.headers) ==>
      (r.Ok? <==> forall i :: 0 <= i < |data.rows| ==> Covers(data.rows[i], KeptIndices(data.headers, columns)))
    ensures r.Ok? && !AllListed(columns, data.headers) ==>
      var kept := KeptIndices(data.headers, columns);
      && r.value.headers == Present(columns, data.headers)
      && |r.value.rows| == |data.rows|
      && forall i :: 0 <= i < |data.rows| ==>
           |r.value.rows[i]| == |kept|
           && forall j :: 0 <= j < |kept| ==> r.value.rows[i][j] == data.rows[i][kept[j]]
  {
    if AllListed(columns, data.headers) then Ok(data)
    else
      var kept := KeptIndices(data.headers, columns);
      if exists i | 0 <= i < |data.rows| :: !Covers(data.rows[i], kept) then
        Err(OtherError(IndexOutOfRange))
      else
        var rows := seq(|data.rows|, i requires 0 <= i < |data.rows| =>
          seq(|kept|, j requires 0 <= j < |kept| => data.rows[i][kept[j]]));
        var headers := seq(|kept|, j requires 0 <= j < |kept| => data.headers[kept[j]]);
        assert headers == Present(columns, data.headers);
        Ok(FileData(headers, rows))
  }

  // ---------------------------------------------------------------------
  // Row sampling
  // ---------------------------------------------------------------------

  /** `int(1 + i * step)` with `step = (n - 2) / remaining`, computed
      exactly. */
  function MiddleIndex(i: nat, n: nat, remaining: nat): int
    requires remaining > 0 && n >= 2
  {
    1 + (i * (n - 2)) / remaining
  }

  /** The rows the stratified loop of `sample_data` appends after its first
      `count` iterations. */
  function MiddleRows(rows: seq<seq<Cell>>, remaining: nat, count: nat): seq<seq<Cell>>
    requires remaining > 0 && |rows| >= 2
  {
    if count == 0 then []
    else
      var index := MiddleIndex(count - 1, |rows|, remaining);
      MiddleRows(rows, remaining, count - 1) + (if 0 < index < |rows| - 1 then [rows[index]] else [])
  }

  /** What `sample_data(data, size)` returns or raises. */
  function Sampled(data: FileData, size: int): (r: Result<FileData, Exc>)
    ensures |data.rows| <= size ==> r == Ok(data)
    ensures r.Ok? ==> r.value.headers == data.headers
    ensures r.Ok? && |data.rows| > size ==>
      |data.rows| > 0 && |r.value.rows| >= 1 && r.value.rows[0] == data.rows[0]
  {
    var rows := data.rows;
    var n := |rows|;
    if n <= size then Ok(data)
    else if n == 0 then Err(OtherError(IndexOutOfRange))
    else
      var kept := [rows[0]] + (if n > 1 then [rows[n - 1]] else []);
      var remaining := size - |kept|;
      if remaining == 0 then Err(OtherError("division by zero"))
      else if remaining < 0 then Ok(FileData(data.headers, kept))
      else Ok(FileData(data.headers, kept + MiddleRows(rows, remaining, remaining)))
  }

  // Facts about floor division that the sampling proofs use.

  lemma DivBounds(a: int, d: int)
    requires a >= 0 && d > 0
    ensures d * (a / d) <= a < d * (a / d) + d
  {
  }

  lemma MulCancelLess(r: int, x: int, y: int)
    requires r > 0 && r * x < r * y
    ensures x < y
  {
  }

  lemma {:induction false} MulAtLeast(k: int, c: int)
    requires k >= 1 && c > 0
    ensures k * c >= c
    decreases k
  {
    if k > 1 {
      MulAtLeast(k - 1, c);
      assert k * c == (k - 1) * c + c;
    }
  }

  lemma MulLess(x: int, y: int, c: int)
    requires 0 <= x < y && c > 0
    ensures 0 <= x * c && x * c + c <= y * c
  {
    assert y * c - x * c == (y - x) * c;
    MulAtLeast(y - x, c);
  }

  lemma DivStrict(a: int, b: int, r: int)
    requires 0 <= a && r > 0 && a + r <= b
    ensures 0 <= a / r < b / r
  {
    DivBounds(a, r);
    DivBounds(b, r);
    MulCancelLess(r, a / r, b / r);
  }

  lemma DivBelow(b: int, r: int, m: int)
    requires 0 <= b < r * m && r > 0
    ensures b / r < m
  {
    DivBounds(b, r);
    MulCancelLess(r, b / r, m);
  }

  /** A stratified index lies strictly between the first and the last row. */
  lemma MiddleIndexBounds(i: nat, n: nat, remaining: nat)
    requires 0 < remaining < n - 2 && i < remaining
    ensures 0 < MiddleIndex(i, n, remaining) < n - 1
  {
    var m := n - 2;
    MulLess(i, remaining, m);
    assert remaining * m == m * remaining;
    DivBelow(i * m, remaining, m);
  }

  /** The stratified indices strictly increase, as long as there are more
      middle rows than rows still to pick. */
  lemma MiddleIndexOrder(i: nat, j: nat, n: nat, remaining: nat)
    requires 0 < remaining < n - 2
    requires i < j < remaining
    ensures 0 < MiddleIndex(i, n, remaining) < MiddleIndex(j, n, remaining) < n - 1
  {
    var m := n - 2;
    MulLess(i, j, m);
    DivStrict(i * m, j * m, remaining);
    MiddleIndexBounds(j, n, remaining);
  }

  /** When the guard of the loop never fails, the loop appends exactly one
      row per iteration, the row at the stratified index. */
  lemma {:induction false} MiddleRowsAll(rows: seq<seq<Cell>>, remaining: nat, count: nat)
    requires 0 < remaining < |rows| - 2 && count <= remaining
    ensures |MiddleRows(rows, remaining, count)| == count
    ensures forall k :: 0 <= k < count ==>
      0 < MiddleIndex(k, |rows|, remaining) < |rows| - 1 &&
      MiddleRows(rows, remaining, count)[k] == rows[MiddleIndex(k, |rows|, remaining)]
  {
    if count > 0 {
      var prev := MiddleRows(rows, remaining, count - 1);
      MiddleRowsAll(rows, remaining, count - 1);
      MiddleIndexBounds(count - 1, |rows|, remaining);
      var index := MiddleIndex(count - 1, |rows|, remaining);
      assert MiddleRows(rows, remaining, count) == prev + [rows[index]];
    }
  }

  /** With more rows than `size >= 3`, the sample has exactly `size` rows:
      the first row, the last row, then rows at strictly increasing indices
      strictly between them. */
  lemma SampleExactSize(data: FileData, size: int)
    requires 3 <= size < |data.rows|
    ensures Sampled(data, size).Ok?
    ensures var s := Sampled(data, size).value.rows;
      var n, picked := |data.rows|, size - 2;
      && |s| == size
      && s[0] == data.rows[0]
      && s[1] == data.rows[n - 1]
      && forall k :: 0 <= k < picked ==>
           0 < MiddleIndex(k, n, picked) < n - 1 && s[2..][k] == data.rows[MiddleIndex(k, n, picked)]
    ensures var n, picked := |data.rows|, size - 2;
      forall k, l :: 0 <= k < l < picked ==>
        0 < MiddleIndex(k, n, picked) < MiddleIndex(l, n, picked) < n - 1
  {
    var n, picked := |data.rows|, size - 2;
    MiddleRowsAll(data.rows, picked, picked);
    forall k, l | 0 <= k < l < picked
      ensures 0 < MiddleIndex(k, n, picked) < MiddleIndex(l, n, picked) < n - 1
    {
      MiddleIndexOrder(k, l, n, picked);
    }
  }

  /** With `size == 2` the step divides by zero. */
  lemma SampleSizeTwoFails(data: FileData)
    requires |data.rows| > 2
    ensures Sampled(data, 2) == Err(OtherError("division by zero"))
  {
  }

  /** `sample_data(data, sample_size)`: keep the first and the last row,
      then append a stratified selection of the rows in between. */
  method SampleData(data: FileData, size: int) returns (r: Result<FileData, Exc>)
    ensures r == Sampled(data, size)
  {
    var rows := data.rows;
    var n := |rows|;
    if n <= size {
      return Ok(data);
    }
    if n == 0 {
      return Err(OtherError(IndexOutOfRange));
    }
    var sampledRows := [rows[0]];
    if n > 1 {
      sampledRows := sampledRows + [rows[n - 1]];
    }
    var kept := sampledRows;
    var remaining := size - |sampledRows|;
    if remaining == 0 {
      return Err(OtherError("division by zero"));
    }
    assert kept == [rows[0]] + (if n > 1 then [rows[n - 1]] else []);
    var i := 0;
    while i < remaining
      invariant remaining > 0 ==> n >= 2 && 0 <= i <= remaining && sampledRows == kept + MiddleRows(rows, remaining, i)
      invariant remaining < 0 ==> sampledRows == kept
    {
      var index := 1 + (i * (n - 2)) / remaining;
      assert index == MiddleIndex(i, n, remaining);
      if 0 < index < n - 1 {
        sampledRows := sampledRows + [rows[index]];
      }
      i := i + 1;
    }
    return Ok(FileData(data.headers, sampledRows));
  }

  // ---------------------------------------------------------------------
  // Preprocessing with a known intent and column list
  // ---------------------------------------------------------------------

  const MaxRows := 200

  /** What `preprocess_data` returns when the intent and the relevant
      columns are supplied: the filtered table, sampled down to `MaxRows`
      rows when it is longer; the original table when anything raises. */
  function Preprocessed(data: FileData, columns: seq<string>): FileData {
    match FilterColumns(data, columns)
    case Err(_) => data
    case Ok(filtered) =>
      if |filtered.rows| > MaxRows then
        match Sampled(filtered, MaxRows)
        case Ok(sampled) => sampled
        case Err(_) => data
      else filtered
  }

  /** Preprocessing keeps the requested columns and at most `MaxRows` rows,
      keeping the first and last row of a longer table; a failed filter
      leaves the table as it was. */
  lemma PreprocessedShape(data: FileData, columns: seq<string>)
    ensures FilterColumns(data, columns).Err? ==> Preprocessed(data, columns) == data
    ensures FilterColumns(data, columns).Ok? ==>
      var f := FilterColumns(data, columns).value;
      var p := Preprocessed(data, columns);
      && p.headers == f.headers
      && (|f.rows| <= MaxRows ==> p == f)
      && (|f.rows| > MaxRows ==>
            |p.rows| == MaxRows && p.rows[0] == f.rows[0] && p.rows[1] == f.rows[|f.rows| - 1])
  {
    if FilterColumns(data, columns).Ok? {
      var f := FilterColumns(data, columns).value;
      if |f.rows| > MaxRows {
        SampleExactSize(f, MaxRows);
      }
    }
  }

  /** `preprocess_data(query, data, api_key, query_intent, relevant_columns)`
      with both optional arguments supplied. */
  method PreprocessData(data: FileData, columns: seq<string>) returns (r: FileData)
    ensures r == Preprocessed(data, columns)
  {
    var filtered := FilterColumns(data, columns);
    if filtered.Err? {
      return data;
    }
    var filteredData := filtered.value;
    if |filteredData.rows| > MaxRows {
      var sampled := SampleData(filteredData, MaxRows);
      SampleExactSize(filteredData, MaxRows);
      return sampled.value;
    }
    return filteredData;
  }

  // ---------------------------------------------------------------------
  // Keyword extraction
  // ---------------------------------------------------------------------

  /** The words `extract_keywords` never returns. */
  const StopWords: set<string> := {
    "a", "an", "the", "and", "or", "but", "is", "are", "was", "were",
    "in", "on", "at", "to", "for", "with", "by", "about", "like",
    "from", "of", "as", "what", "which", "who", "whom", "whose", "where",
    "when", "why", "how", "all", "any", "both", "each", "few", "more",
    "most", "some", "such", "no", "nor", "not", "only", "own", "same",
    "so", "than", "too", "very", "can", "will", "just", "should", "now"
  }

  /** The single characters the splitting pattern treats as separators. */
  predicate IsPunctuation(c: char) {
    c in ",.;:!?()[]{}'\""
  }

  predicate IsSeparator(c: char) {
    IsSpace(c) || IsPunctuation(c)
  }

  /** A piece of text holding no separator. */
  predicate Unbroken(w: string) {
    forall i :: 0 <= i < |w| ==> !IsSeparator(w[i])
  }

  /** Drops the run of whitespace at the front, which the pattern matches
      as one separator. */
  function SkipSpaces(s: string): (r: string)
    ensures |r| <= |s| && r == s[|s| - |r|..]
    ensures s != [] && IsSpace(s[0]) ==> |r| < |s|
  {
    if s != [] && IsSpace(s[0]) then SkipSpaces(s[1..]) else s
  }

  /** `re.split` on a run of whitespace or one punctuation character, with
      `current` the piece read so far: every separator match ends a piece,
      so adjacent separators yield empty pieces. */
  function Pieces(s: string, current: string): (r: seq<string>)
    requires Unbroken(current)
    ensures |r| >= 1
    decreases |s|
  {
    if s == [] then [current]
    else if IsSpace(s[0]) then [current] + Pieces(SkipSpaces(s), [])
    else if IsPunctuation(s[0]) then [current] + Pieces(s[1..], [])
    else
      assert Unbroken(current + [s[0]]) by {
        assert forall i :: 0 <= i < |current| ==> (current + [s[0]])[i] == current[i];
      }
      Pieces(s[1..], current + [s[0]])
  }

  /** Every piece is free of separators and made of characters of the
      text or of the piece already begun. */
  lemma {:induction false} PiecesShape(s: string, current: string)
    requires Unbroken(current)
    ensures forall k :: 0 <= k < |Pieces(s, current)| ==> Unbroken(Pieces(s, current)[k])
    ensures forall k, i :: 0 <= k < |Pieces(s, current)| && 0 <= i < |Pieces(s, current)[k]| ==>
      Pieces(s, current)[k][i] in current || Pieces(s, current)[k][i] in s
    decreases |s|
  {
    if s == [] {
    } else if IsSpace(s[0]) {
      var t := SkipSpaces(s);
      PiecesShape(t, []);
      forall k, i | 0 <= k < |Pieces(t, [])| && 0 <= i < |Pieces(t, [])[k]|
        ensures Pieces(t, [])[k][i] in s
      {
        assert Pieces(t, [])[k][i] in t;
      }
    } else if IsPunctuation(s[0]) {
      PiecesShape(s[1..], []);
    } else {
      var next := current + [s[0]];
      assert forall i :: 0 <= i < |current| ==> next[i] == current[i];
      PiecesShape(s[1..], next);
    }
  }

  function SplitWords(s: string): seq<string> {
    Pieces(s, [])
  }

  /** The text with every separator deleted. */
  function Unseparated(s: string): (r: string)
    ensures Unbroken(r)
  {
    if s == [] then [] else (if IsSeparator(s[0]) then [] else [s[0]]) + Unseparated(s[1..])
  }

  function Concat(pieces: seq<string>): string {
    if pieces == [] then [] else pieces[0] + Concat(pieces[1..])
  }

  lemma {:induction false} UnseparatedSkip(s: string)
    ensures Unseparated(SkipSpaces(s)) == Unseparated(s)
  {
    if s != [] && IsSpace(s[0]) {
      UnseparatedSkip(s[1..]);
    }
  }

  lemma ConcatCons(p: string, rest: seq<string>)
    ensures Concat([p] + rest) == p + Concat(rest)
  {
    assert ([p] + rest)[1..] == rest;
  }

  /** Splitting loses exactly the separators: the pieces, put back
      together, are the text with its separators deleted. */
  lemma {:induction false} PiecesConcat(s: string, current: string)
    requires Unbroken(current)
    ensures Concat(Pieces(s, current)) == current + Unseparated(s)
    decreases |s|
  {
    if s == [] {
      ConcatCons(current, []);
    } else if IsSpace(s[0]) {
      var t := SkipSpaces(s);
      var rest := Pieces(t, []);
      assert Pieces(s, current) == [current] + rest;
      ConcatCons(current, rest);
      PiecesConcat(t, []);
      UnseparatedSkip(s);
      assert [] + Unseparated(t) == Unseparated(t);
    } else if IsPunctuation(s[0]) {
      var rest := Pieces(s[1..], []);
      assert Pieces(s, current) == [current] + rest;
      ConcatCons(current, rest);
      PiecesConcat(s[1..], []);
      assert Unseparated(s) == Unseparated(s[1..]);
      assert [] + Unseparated(s[1..]) == Unseparated(s[1..]);
    } else {
      var next := current + [s[0]];
      assert Unbroken(next) by {
        assert forall i :: 0 <= i < |current| ==> next[i] == current[i];
      }
      assert Pieces(s, current) == Pieces(s[1..], next);
      PiecesConcat(s[1..], next);
      assert Unseparated(s) == [s[0]] + Unseparated(s[1..]);
      assert next + Unseparated(s[1..]) == current + ([s[0]] + Unseparated(s[1..]));
    }
  }

  /** The filter of `extract_keywords`: longer than two characters, not a
      stop word, not all digits. */
  predicate IsKeyword(w: string) {
    |w| > 2 && w !in StopWords && !IsDigits(w)
  }

  function KeepKeywords(words: seq<string>): seq<string> {
    if words == [] then []
    else (if IsKeyword(words[0]) then [words[0]] else []) + KeepKeywords(words[1..])
  }

  /** The filter keeps exactly the words that pass it. */
  lemma {:induction false} KeepKeywordsMembers(words: seq<string>)
    ensures forall w :: w in KeepKeywords(words) <==> w in words && IsKeyword(w)
  {
    if words != [] {
      KeepKeywordsMembers(words[1..]);
      assert words == [words[0]] + words[1..];
    }
  }

  /** `extract_keywords(text)`. */
  function ExtractKeywords(text: string): seq<string> {
    KeepKeywords(SplitWords(Lower(text)))
  }

  /** Every keyword passes the filter, holds no separator and no upper-case
      letter, and the keywords are drawn in order from the lowered text with
      its separators deleted. */
  lemma KeywordsShape(text: string)
    ensures forall w :: w in ExtractKeywords(text) ==>
      IsKeyword(w) && Unbroken(w) && forall i :: 0 <= i < |w| ==> !('A' <= w[i] <= 'Z')
    ensures Concat(SplitWords(Lower(text))) == Unseparated(Lower(text))
  {
    var lowered := Lower(text);
    var pieces := SplitWords(lowered);
    KeepKeywordsMembers(pieces);
    PiecesShape(lowered, []);
    forall w | w in ExtractKeywords(text)
      ensures IsKeyword(w) && Unbroken(w) && forall i :: 0 <= i < |w| ==> !('A' <= w[i] <= 'Z')
    {
      var k :| 0 <= k < |pieces| && pieces[k] == w;
      forall i | 0 <= i < |w|
        ensures !('A' <= w[i] <= 'Z')
      {
        var j :| 0 <= j < |lowered| && lowered[j] == w[i];
      }
    }
    PiecesConcat(lowered, []);
  }

  // ---------------------------------------------------------------------
  // Keyword scoring and ranking
  // ---------------------------------------------------------------------

  datatype ColumnScore = ColumnScore(header: string, score: nat)

  /** Words matching a keyword partially: the keyword inside the word or the
      word inside the keyword. */
  predicate PartialMatch(keyword: string, word: string) {
    Contains(word, keyword) || Contains(keyword, word)
  }

  /** One point per header word that partially matches `keyword`. */
  function PartialMatches(keyword: string, words: seq<string>): (r: nat)
    ensures r <= |words|
    ensures r == 0 <==> forall w :: w in words ==> !PartialMatch(keyword, w)
  {
    if words == [] then 0
    else
      var last := words[|words| - 1];
      assert words == words[..|words| - 1] + [last];
      PartialMatches(keyword, words[..|words| - 1]) + (if PartialMatch(keyword, last) then 1 else 0)
  }

  /** Two points when the keyword occurs in the lowered header, plus the
      partial matches. */
  function KeywordScore(keyword: string, header: string, headerWords: seq<string>): (r: nat)
    ensures r == 0 <==> !Contains(Lower(header), keyword) && forall w :: w in headerWords ==> !PartialMatch(keyword, w)
  {
    (if Contains(Lower(header), keyword) then 2 else 0) + PartialMatches(keyword, headerWords)
  }

  /** A header's score, summed over the keywords. */
  function HeaderScore(keywords: seq<string>, header: string, headerWords: seq<string>): (r: nat)
    ensures r == 0 <==> forall k :: k in keywords ==> KeywordScore(k, header, headerWords) == 0
  {
    if keywords == [] then 0
    else
      var last := keywords[|keywords| - 1];
      assert keywords == keywords[..|keywords| - 1] + [last];
      HeaderScore(keywords[..|keywords| - 1], header, headerWords) + KeywordScore(last, header, headerWords)
  }

  /** A header's entry in `column_scores`. */
  function Entry(keywords: seq<string>, header: string): ColumnScore {
    ColumnScore(header, HeaderScore(keywords, header, ExtractKeywords(header)))
  }

  /** `column_scores`: one entry per header, in header order. */
  function Scores(keywords: seq<string>, headers: seq<string>): (r: seq<ColumnScore>)
    ensures |r| == |headers| && forall j :: 0 <= j < |r| ==> r[j].header == headers[j]
  {
    seq(|headers|, i requires 0 <= i < |headers| => Entry(keywords, headers[i]))
  }

  /** Places `e` before the first entry that does not outscore it. */
  function Insert(e: ColumnScore, sorted: seq<ColumnScore>): (r: seq<ColumnScore>)
    ensures multiset(r) == multiset(sorted) + multiset{e}
  {
    if sorted == [] || sorted[0].score <= e.score then [e] + sorted
    else
      assert sorted == [sorted[0]] + sorted[1..];
      [sorted[0]] + Insert(e, sorted[1..])
  }

  /** `sorted(entries, key=score, reverse=True)`: a stable sort from the
      highest score down. */
  function SortByScore(entries: seq<ColumnScore>): (r: seq<ColumnScore>)
    ensures multiset(r) == multiset(entries)
  {
    if entries == [] then []
    else
      assert entries == [entries[0]] + entries[1..];
      Insert(entries[0], SortByScore(entries[1..]))
  }

  predicate Descending(s: seq<ColumnScore>) {
    forall i, j :: 0 <= i < j < |s| ==> s[i].score >= s[j].score
  }

  /** The entries holding score `v`, in their order. */
  function WithScore(s: seq<ColumnScore>, v: nat): seq<ColumnScore> {
    if s == [] then [] else (if s[0].score == v then [s[0]] else []) + WithScore(s[1..], v)
  }

  /** The entries with a positive score, in their order. */
  function Positive(s: seq<ColumnScore>): (r: seq<ColumnScore>)
    ensures forall i :: 0 <= i < |r| ==> r[i].score > 0
    ensures forall e :: e in r <==> e in s && e.score > 0
  {
    if s == [] then [] else (if s[0].score > 0 then [s[0]] else []) + Positive(s[1..])
  }

  function HeaderNames(s: seq<ColumnScore>): (r: seq<string>)
    ensures |r| == |s| && forall i :: 0 <= i < |s| ==> r[i] == s[i].header
  {
    seq(|s|, i requires 0 <= i < |s| => s[i].header)
  }

  lemma {:induction false} InsertDescending(e: ColumnScore, sorted: seq<ColumnScore>)
    requires Descending(sorted)
    ensures Descending(Insert(e, sorted))
    ensures Insert(e, sorted) != [] && (Insert(e, sorted)[0] == e || (sorted != [] && Insert(e, sorted)[0] == sorted[0]))
  {
    if sorted != [] && sorted[0].score > e.score {
      InsertDescending(e, sorted[1..]);
      var r := Insert(e, sorted[1..]);
      forall i, j | 0 <= i < j < |[sorted[0]] + r|
        ensures ([sorted[0]] + r)[i].score >= ([sorted[0]] + r)[j].score
      {
        if i == 0 {
          assert ([sorted[0]] + r)[j] in multiset(r);
          assert ([sorted[0]] + r)[j] == e || ([sorted[0]] + r)[j] in sorted[1..];
        }
      }
    }
  }

  /** Inserting keeps the entries of every other score in place and puts
      `e` first among the entries of its own score. */
  lemma {:induction false} InsertWithScore(e: ColumnScore, sorted: seq<ColumnScore>, v: nat)
    ensures WithScore(Insert(e, sorted), v) == (if e.score == v then [e] else []) + WithScore(sorted, v)
  {
    if sorted != [] && sorted[0].score > e.score {
      InsertWithScore(e, sorted[1..], v);
      assert ([sorted[0]] + Insert(e, sorted[1..]))[1..] == Insert(e, sorted[1..]);
    } else {
      assert ([e] + sorted)[1..] == sorted;
    }
  }

  lemma {:induction false} SortByScoreDescending(entries: seq<ColumnScore>)
    ensures Descending(SortByScore(entries))
  {
    if entries != [] {
      SortByScoreDescending(entries[1..]);
      InsertDescending(entries[0], SortByScore(entries[1..]));
    }
  }

  /** The sort is stable: the entries of any one score keep their order. */
  lemma {:induction false} SortByScoreStable(entries: seq<ColumnScore>, v: nat)
    ensures WithScore(SortByScore(entries), v) == WithScore(entries, v)
  {
    if entries != [] {
      SortByScoreStable(entries[1..], v);
      InsertWithScore(entries[0], SortByScore(entries[1..]), v);
    }
  }

  lemma {:induction false} PositiveDescending(s: seq<ColumnScore>)
    requires Descending(s)
    ensures Descending(Positive(s))
  {
    if s != [] {
      PositiveDescending(s[1..]);
      var rest := Positive(s[1..]);
      if s[0].score > 0 {
        forall i, j | 0 <= i < j < |[s[0]] + rest|
          ensures ([s[0]] + rest)[i].score >= ([s[0]] + rest)[j].score
        {
          if i == 0 {
            assert ([s[0]] + rest)[j] in s[1..];
          }
        }
      }
    }
  }

  lemma {:induction false} PositiveWithScore(s: seq<ColumnScore>, v: nat)
    requires v > 0
    ensures WithScore(Positive(s), v) == WithScore(s, v)
  {
    if s != [] {
      var rest := Positive(s[1..]);
      PositiveWithScore(s[1..], v);
      if s[0].score > 0 {
        assert Positive(s) == [s[0]] + rest;
        assert ([s[0]] + rest)[1..] == rest;
      } else {
        assert Positive(s) == rest;
        assert WithScore(s, v) == WithScore(s[1..], v);
      }
    }
  }

  /** The ranking keeps exactly the positively scored entries, from the
      highest score down, and keeps the order of entries that tie. */
  lemma RankedProperties(entries: seq<ColumnScore>)
    ensures var r := Positive(SortByScore(entries));
      && Descending(r)
      && (forall e :: e in r <==> e in entries && e.score > 0)
      && forall v: nat :: v > 0 ==> WithScore(r, v) == WithScore(entries, v)
  {
    var sorted := SortByScore(entries);
    SortByScoreDescending(entries);
    PositiveDescending(sorted);
    forall e
      ensures e in Positive(sorted) <==> e in entries && e.score > 0
    {
      assert e in sorted <==> e in multiset(sorted);
      assert e in entries <==> e in multiset(entries);
    }
    forall v: nat | v > 0
      ensures WithScore(Positive(sorted), v) == WithScore(entries, v)
    {
      PositiveWithScore(sorted, v);
      SortByScoreStable(entries, v);
    }
  }

  /** The ranking step of `identify_relevant_columns_by_keywords`, for the
      query's keywords. */
  function RankColumns(keywords: seq<string>, headers: seq<string>): seq<string> {
    if keywords == [] then headers
    else
      var ranked := Positive(SortByScore(Scores(keywords, headers)));
      if ranked == [] then headers else HeaderNames(ranked)
  }

  /** What `identify_relevant_columns_by_keywords(query, data)` returns. */
  function KeywordColumns(query: string, headers: seq<string>): seq<string> {
    RankColumns(ExtractKeywords(query), headers)
  }

  /** The fallback column choice: every header when there is no keyword or
      no header scores, otherwise the positively scored headers ranked from
      the highest score down, ties in header order. */
  lemma RankColumnsShape(keywords: seq<string>, headers: seq<string>)
    ensures var entries := Scores(keywords, headers);
      && (keywords == [] || (forall e :: e in entries ==> e.score == 0) ==> RankColumns(keywords, headers) == headers)
      && (keywords != [] && (exists e :: e in entries && e.score > 0) ==>
            var r := Positive(SortByScore(entries));
            && RankColumns(keywords, headers) == HeaderNames(r)
            && Descending(r)
            && (forall e :: e in r <==> e in entries && e.score > 0)
            && forall v: nat :: v > 0 ==> WithScore(r, v) == WithScore(entries, v))
  {
    var entries := Scores(keywords, headers);
    RankedProperties(entries);
    var r := Positive(SortByScore(entries));
    if r != [] {
      assert r[0] in entries && r[0].score > 0;
    }
  }

  lemma SortedMembers(entries: seq<ColumnScore>)
    ensures forall e :: e in SortByScore(entries) <==> e in entries
  {
    var sorted := SortByScore(entries);
    forall e
      ensures e in sorted <==> e in entries
    {
      assert e in sorted <==> e in multiset(sorted);
      assert e in entries <==> e in multiset(entries);
    }
  }

  lemma RankedWithin(entries: seq<ColumnScore>, headers: seq<string>)
    requires |entries| == |headers| && forall j :: 0 <= j < |entries| ==> entries[j].header == headers[j]
    ensures forall h :: h in HeaderNames(Positive(SortByScore(entries))) ==> h in headers
  {
    var r := Positive(SortByScore(entries));
    SortedMembers(entries);
    forall h | h in HeaderNames(r)
      ensures h in headers
    {
      var i :| 0 <= i < |r| && r[i].header == h;
      var e := r[i];
      assert e in r;
      assert e in SortByScore(entries);
      assert e in entries;
      var j :| 0 <= j < |entries| && entries[j] == e;
    }
  }

  /** The fallback always names headers, and at least one when there are
      any. */
  lemma RankColumnsWithin(keywords: seq<string>, headers: seq<string>)
    ensures forall h :: h in RankColumns(keywords, headers) ==> h in headers
    ensures headers != [] ==> RankColumns(keywords, headers) != []
  {
    if keywords != [] {
      RankedWithin(Scores(keywords, headers), headers);
    }
  }

  /** One pass of the keyword loop for one header: two points when the
      keyword occurs in the lowered header, then one per header word that
      partially matches it. */
  method AddKeywordScore(score0: nat, keyword: string, header: string, headerWords: seq<string>) returns (score: nat)
    ensures score == score0 + KeywordScore(keyword, header, headerWords)
  {
    score := score0;
    var lowered := Lower(header);
    if Contains(lowered, keyword) {
      score := score + 2;
    }
    var w := 0;
    while w < |headerWords|
      invariant 0 <= w <= |headerWords|
      invariant score == score0 + (if Contains(lowered, keyword) then 2 else 0) + PartialMatches(keyword, headerWords[..w])
    {
      var word := headerWords[w];
      if Contains(word, keyword) || Contains(keyword, word) {
        score := score + 1;
      }
      assert headerWords[..w + 1][..w] == headerWords[..w];
      w := w + 1;
    }
    assert headerWords[..w] == headerWords;
  }

  /** The body of the scoring loop for one header: the keyword loop. */
  method ScoreHeader(keywords: seq<string>, header: string, headerWords: seq<string>) returns (score: nat)
    ensures score == HeaderScore(keywords, header, headerWords)
  {
    score := 0;
    var k := 0;
    while k < |keywords|
      invariant 0 <= k <= |keywords|
      invariant score == HeaderScore(keywords[..k], header, headerWords)
    {
      score := AddKeywordScore(score, keywords[k], header, headerWords);
      assert keywords[..k + 1][..k] == keywords[..k];
      k := k + 1;
    }
    assert keywords[..k] == keywords;
  }

  /** The scoring loop over the headers. */
  method ScoreColumns(keywords: seq<string>, headers: seq<string>) returns (columnScores: seq<ColumnScore>)
    ensures columnScores == Scores(keywords, headers)
  {
    columnScores := [];
    var h := 0;
    while h < |headers|
      invariant 0 <= h <= |headers|
      invariant |columnScores| == h
      invariant forall i :: 0 <= i < h ==> columnScores[i] == Entry(keywords, headers[i])
    {
      var header := headers[h];
      var headerWords := ExtractKeywords(header);
      var score := ScoreHeader(keywords, header, headerWords);
      columnScores := columnScores + [ColumnScore(header, score)];
      h := h + 1;
    }
  }

  /** `identify_relevant_columns_by_keywords(query, data)`: scores each
      header, then keeps the positively scored ones from the highest score
      down. */
  method IdentifyRelevantColumnsByKeywords(query: string, data: FileData) returns (r: seq<string>)
    ensures r == KeywordColumns(query, data.headers)
  {
    var keywords := ExtractKeywords(query);
    if keywords == [] {
      return data.headers;
    }
    var columnScores := ScoreColumns(keywords, data.headers);
    var relevant := HeaderNames(Positive(SortByScore(columnScores)));
    if relevant == [] {
      return data.headers;
    }
    return relevant;
  }

  // ---------------------------------------------------------------------
  // Validating the columns a model reply names
  // ---------------------------------------------------------------------

  /** The two fields read from a decoded reply: `queryIntent` (absent reads
      as the empty intent) and `relevantColumns` (absent reads as []). */
  datatype ColumnsReply = ColumnsReply(queryIntent: Intent, relevantColumns: seq<string>)

  function Min(a: int, b: int): int {
    if a < b then a else b
  }

  /** Building the prompt reads `row[i]` for every header `i` of the first
      five rows, which raises on a shorter row. */
  predicate SampleRowsCoverHeaders(data: FileData) {
    forall i :: 0 <= i < Min(5, |data.rows|) ==> |data.rows[i]| >= |data.headers|
  }

  /** The default intent and keyword-ranked columns every failure falls
      back to. */
  function Fallback(query: string, data: FileData): (Intent, seq<string>) {
    (DefaultIntent, KeywordColumns(query, data.headers))
  }

  /** `analyze_query_and_identify_columns(query, data, api_key)`, with the
      model's completion given as `reply` and `json.loads` followed by the
      two `result.get` reads given as `decode` (`None` when either raises). */
  function IdentifyColumns(query: string, data: FileData, reply: Completion,
                           decode: string -> Option<ColumnsReply>): (r: (Intent, seq<string>))
    ensures r.0 != map[]
    ensures forall c :: c in r.1 ==> c in data.headers
    ensures data.headers != [] ==> r.1 != []
    ensures !SampleRowsCoverHeaders(data) || reply.Raised? ==> r == Fallback(query, data)
    ensures SampleRowsCoverHeaders(data) && reply.Completed? ==>
      match decode(ExtractJson(OrEmptyObject(reply.content)))
      case None => r == Fallback(query, data)
      case Some(parsed) =>
        && (parsed.queryIntent != map[] ==> r.0 == parsed.queryIntent)
        && (parsed.queryIntent == map[] ==> r.0 == DefaultIntent)
        && (forall c :: c in r.1 <==> c in data.headers && (c in parsed.relevantColumns || !exists v :: v in parsed.relevantColumns && v in data.headers))
        && r.1 == (var valid := Present(parsed.relevantColumns, data.headers); if valid == [] then data.headers else valid)
  {
    RankColumnsWithin(ExtractKeywords(query), data.headers);
    assert "analysisType" in DefaultIntent;
    var fallback := Fallback(query, data);
    if !SampleRowsCoverHeaders(data) then fallback
    else match reply
      case Raised(_) => fallback
      case Completed(content) =>
        match decode(ExtractJson(OrEmptyObject(content)))
        case None => fallback
        case Some(parsed) =>
          var intent := if parsed.queryIntent == map[] then DefaultIntent else parsed.queryIntent;
          var valid := Present(parsed.relevantColumns, data.headers);
          assert valid != [] ==> valid[0] in valid;
          (intent, if valid == [] then data.headers else valid)
  }
}
