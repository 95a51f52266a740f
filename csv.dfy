/**
 * The files the core reads, as values: a CSV file is its header and its rows as
 * `csv.DictReader` yields them, and the file system maps a path to the file there.
 */
module Csv {
  import opened Wrappers

  /** One `DictReader` row: a column missing from the map reads as `None`. */
  type Row = map<string, string>

  datatype CsvFile = CsvFile(header: seq<string>, rows: seq<Row>)

  /** `os.path.exists(path)` holds exactly when `path` is a key. */
  type FileSystem = map<string, CsvFile>

  /** `row.get(column)`. */
  function Get(row: Row, column: string): (r: Option<string>)
    ensures r.Some? <==> column in row
    ensures r.Some? ==> r.value == row[column]
  {
    if column in row then Some(row[column]) else None
  }

  /** `row.get(column, "")`. */
  function GetText(row: Row, column: string): (r: string)
    ensures column in row ==> r == row[column]
    ensures column !in row ==> r == ""
  {
    Get(row, column).GetOr("")
  }

  /** The message of the `FileNotFoundError` that `open(path)` raises for a missing file. */
  function NoSuchFile(path: string): string {
    "[Errno 2] No such file or directory: '" + path + "'"
  }
}
