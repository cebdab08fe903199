/** The part of a spreadsheet that the question loaders look at, once pandas
    has read it: the header row and, per data row, one cell per column. Both
    `services/questions_db.py` and `services/file_parser.py` normalise the
    headers and look for a column by trying a list of names in turn; that
    search is defined here once. */
module Sheets {
  import opened Common

  /** A cell: `None` where pandas reports a missing value (`pd.notna` is
      false), otherwise `str(value)`. */
  type Cell = Option<string>

  datatype Sheet = Sheet(headers: seq<string>, rows: seq<seq<Cell>>)

  /** What `pd.read_excel` gives: a sheet, or the exception it raised. */
  datatype Workbook = Unreadable(reason: string) | Readable(sheet: Sheet)

  /** `df.columns.str.lower().str.strip()`. */
  function NormaliseHeaders(headers: seq<string>): (r: seq<string>)
    ensures |r| == |headers|
    ensures forall k | 0 <= k < |r| :: r[k] == Strip(Lower(headers[k]))
  {
    seq(|headers|, k requires 0 <= k < |headers| => Strip(Lower(headers[k])))
  }

  /** Normalising headers that are already normalised changes nothing, so a
      header found among normalised headers is found by its own name. */
  lemma NormaliseIdempotent(headers: seq<string>)
    ensures NormaliseHeaders(NormaliseHeaders(headers)) == NormaliseHeaders(headers)
  {
    forall k | 0 <= k < |headers|
      ensures Strip(Lower(Strip(Lower(headers[k])))) == Strip(Lower(headers[k]))
    {
      var u := Lower(headers[k]);
      LowerIdempotent(headers[k]);
      LowerOfStrip(u);
      StripIdempotent(u);
    }
  }

  /** The names tried, in this order, for the question column. */
  const QUESTION_COLUMNS: seq<string> := ["question", "questions", "q"]

  /** The first of `candidates` that is one of `headers`, if any. */
  function FirstPresent(candidates: seq<string>, headers: seq<string>): (r: Option<string>)
    ensures r.Some? ==> r.value in headers
    ensures r.Some? ==> exists k | 0 <= k < |candidates| :: candidates[k] == r.value && NoneBefore(candidates, headers, k)
    ensures r.None? <==> NoneBefore(candidates, headers, |candidates|)
  {
    if candidates == [] then None
    else if candidates[0] in headers then
      assert NoneBefore(candidates, headers, 0);
      Some(candidates[0])
    else
      var r := FirstPresent(candidates[1..], headers);
      assert r.Some? ==> exists k | 0 <= k < |candidates| :: candidates[k] == r.value && NoneBefore(candidates, headers, k) by {
        if r.Some? {
          var k :| 0 <= k < |candidates[1..]| && candidates[1..][k] == r.value && NoneBefore(candidates[1..], headers, k);
          assert candidates[k + 1] == r.value && NoneBefore(candidates, headers, k + 1);
        }
      }
      r
  }

  /** None of the first `k` candidates is a header. */
  ghost predicate NoneBefore(candidates: seq<string>, headers: seq<string>, k: int)
    requires 0 <= k <= |candidates|
  {
    forall j | 0 <= j < k :: candidates[j] !in headers
  }

  /** `for col in candidates: if col in df.columns: found = col; break`. */
  method FindColumn(headers: seq<string>, candidates: seq<string>) returns (found: Option<string>)
    ensures found == FirstPresent(candidates, headers)
  {
    found := None;
    var i := 0;
    while i < |candidates|
      invariant 0 <= i <= |candidates|
      invariant FirstPresent(candidates, headers) == FirstPresent(candidates[i..], headers)
    {
      if candidates[i] in headers {
        found := Some(candidates[i]);
        return;
      }
      assert candidates[i..][1..] == candidates[i + 1..];
      i := i + 1;
    }
  }

  /** The question column: the first of `question`, `questions`, `q` among the
      normalised headers, else the first column; `None` when the sheet has no
      column at all, where `df.columns[0]` raises `IndexError`. */
  function QuestionColumn(headers: seq<string>): (r: Option<string>)
    ensures r.None? <==> headers == []
    ensures r.Some? ==> r.value in headers
    ensures FirstPresent(QUESTION_COLUMNS, headers).Some? ==> r == FirstPresent(QUESTION_COLUMNS, headers)
    ensures FirstPresent(QUESTION_COLUMNS, headers).None? && headers != [] ==> r == Some(headers[0])
  {
    var found := FirstPresent(QUESTION_COLUMNS, headers);
    if found.Some? then found
    else if headers == [] then None
    else Some(headers[0])
  }

  /** The position pandas reads for the column `name`: the first column so named. */
  function ColumnIndex(headers: seq<string>, name: string): (r: nat)
    requires name in headers
    ensures r < |headers| && headers[r] == name
    ensures forall j | 0 <= j < r :: headers[j] != name
  {
    if headers[0] == name then 0 else 1 + ColumnIndex(headers[1..], name)
  }

  /** `row[col]`: the cell of `row` in column `col`; a short row reads as missing. */
  function CellAt(row: seq<Cell>, col: nat): Cell
  {
    if col < |row| then row[col] else None
  }

  /** `str(cell).strip() if pd.notna(cell) else ""`. */
  function CellText(cell: Cell): string
  {
    match cell
    case None => ""
    case Some(s) => Strip(s)
  }
}
