/** `read_csv`: the rows of a CSV file, in file order, cut off at `max_rows`.
    The file system and the CSV parser are inputs: whether the path exists,
    and the rows the parser would produce. */
module ExcelCsvReader {
  import opened Values

  /** One parsed row: column header to cell text. */
  type Row = map<string, string>

  /** The limit `read_csv` applies when its caller does not give one. */
  const DefaultMaxRows := 1000

  /** The rows the enumerate loop keeps when the next row it sees has index
      `index`: it stops at the end of the rows or at the first index at or
      past `maxRows`. */
  function TakeRows(rows: seq<Row>, index: int, maxRows: int): (kept: seq<Row>)
    ensures |kept| == Min(Max(maxRows - index, 0), |rows|)
    ensures kept == rows[..|kept|]
    decreases |rows|
  {
    if rows == [] then []
    else if index >= maxRows then []
    else [rows[0]] + TakeRows(rows[1..], index + 1, maxRows)
  }

  /** `read_csv(path, max_rows)` as a value. */
  function ReadCsvResult(fileExists: bool, parsed: seq<Row>, maxRows: int): Result<seq<Row>> {
    if !fileExists then Err(HttpException(400, "File not found"))
    else Ok(TakeRows(parsed, 0, maxRows))
  }

  /** The existence check, then the loop that appends each parsed row until
      the row index reaches `maxRows`. */
  method ReadCsv(fileExists: bool, parsed: seq<Row>, maxRows: int) returns (r: Result<seq<Row>>)
    ensures r == ReadCsvResult(fileExists, parsed, maxRows)
    ensures !fileExists ==> r == Err(HttpException(400, "File not found"))
    ensures fileExists ==> r.Ok? && |r.value| == Min(Max(maxRows, 0), |parsed|) && r.value == parsed[..|r.value|]
  {
    if !fileExists {
      return Err(HttpException(400, "File not found"));
    }
    var rows: seq<Row> := [];
    var i := 0;
    while i < |parsed|
      invariant 0 <= i <= |parsed|
      invariant i <= Max(maxRows, 0)
      invariant rows == parsed[..i]
    {
      if i >= maxRows {
        break;
      }
      rows := rows + [parsed[i]];
      i := i + 1;
    }
    assert i == Min(Max(maxRows, 0), |parsed|);
    return Ok(rows);
  }

  /** A file with no more rows than the limit is returned whole. */
  lemma SmallFileReadWhole(parsed: seq<Row>, maxRows: int)
    requires |parsed| <= maxRows
    ensures ReadCsvResult(true, parsed, maxRows) == Ok(parsed)
  {
    assert parsed[..|parsed|] == parsed;
  }

  /** A limit of zero or less returns no rows from an existing file. */
  lemma NonPositiveLimitReadsNothing(parsed: seq<Row>, maxRows: int)
    requires maxRows <= 0
    ensures ReadCsvResult(true, parsed, maxRows) == Ok([])
  {
  }

  /** Raising the limit only ever extends the rows returned. */
  lemma LimitMonotone(parsed: seq<Row>, m: int, n: int)
    requires m <= n
    ensures var small, large := TakeRows(parsed, 0, m), TakeRows(parsed, 0, n);
      |small| <= |large| && small == large[..|small|]
  {
  }
}
