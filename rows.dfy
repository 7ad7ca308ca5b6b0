/**
 * Report rows and the table written from them: a resource record joined with
 * the account it belongs to, the fixed ten-column header, and the cells of
 * each row in header order.
 */
module Rows {
  import opened Options
  import opened Decimal
  import opened Resources

  /** One output row: the account's profile, effective alias and id, then the record's fields. */
  datatype Row = Row(
    accountProfile: string,
    accountAlias: string,
    accountId: string,
    region: string,
    resourceType: Kind,
    identifier: string,
    engine: string,
    engineVersion: string,
    endpoint: string,
    port: Port)
  {
    /** The resource record the row was built from. */
    function Resource(): Record
    {
      Record(resourceType, identifier, engine, engineVersion, endpoint, port, region)
    }
  }

  /** The row for record `r` of the account with the given profile, effective alias and id. */
  function JoinRow(profile: string, alias: string, accountId: string, r: Record): (row: Row)
    ensures row.Resource() == r
    ensures row.accountProfile == profile && row.accountAlias == alias && row.accountId == accountId
  {
    Row(profile, alias, accountId, r.region, r.kind, r.identifier, r.engine, r.engineVersion, r.endpoint, r.port)
  }

  /** The header of the report, in column order. */
  const FieldNames: seq<string> := [
    "account_profile",
    "account_alias",
    "account_id",
    "region",
    "resource_type",
    "identifier",
    "engine",
    "engine_version",
    "endpoint",
    "port"
  ]

  /** The text of a port cell: the number in decimal, or the empty string when there is none. */
  function PortCell(p: Port): (s: string)
    ensures s == "" <==> p.Blank?
  {
    match p
    case Blank => ""
    case Number(n) => IntText(n)
  }

  /** The value a row holds under a column name; `""` for a name it does not hold. */
  function Column(row: Row, name: string): string
  {
    if name == "account_profile" then row.accountProfile
    else if name == "account_alias" then row.accountAlias
    else if name == "account_id" then row.accountId
    else if name == "region" then row.region
    else if name == "resource_type" then row.resourceType.Label()
    else if name == "identifier" then row.identifier
    else if name == "engine" then row.engine
    else if name == "engine_version" then row.engineVersion
    else if name == "endpoint" then row.endpoint
    else if name == "port" then PortCell(row.port)
    else ""
  }

  /** The cells of a row, looked up column by column in header order. */
  function Cells(row: Row): (cells: seq<string>)
  {
    seq(|FieldNames|, i requires 0 <= i < |FieldNames| => Column(row, FieldNames[i]))
  }

  /** The data lines of the report, one per row, in row order. */
  function DataLines(rows: seq<Row>): (lines: seq<seq<string>>)
    ensures |lines| == |rows|
    ensures forall k :: 0 <= k < |rows| ==> lines[k] == Cells(rows[k])
  {
    if rows == [] then []
    else DataLines(rows[..|rows| - 1]) + [Cells(rows[|rows| - 1])]
  }

  /** The report: the header line, then the data lines. */
  function Table(rows: seq<Row>): seq<seq<string>>
  {
    [FieldNames] + DataLines(rows)
  }

  function ParseKind(s: string): Option<Kind>
  {
    if s == "instance" then Some(Instance)
    else if s == "cluster-writer" then Some(ClusterWriter)
    else if s == "cluster-reader" then Some(ClusterReader)
    else None
  }

  function ParsePort(s: string): Option<Port>
  {
    if s == "" then Some(Blank)
    else match ParseInt(s)
      case Some(n) => Some(Number(n))
      case None => None
  }

  /** Reads a row back from its cells in header order. */
  function ParseCells(cells: seq<string>): Option<Row>
  {
    if |cells| != |FieldNames| then None
    else match (ParseKind(cells[4]), ParsePort(cells[9]))
      case (Some(kind), Some(port)) =>
        Some(Row(cells[0], cells[1], cells[2], cells[3], kind, cells[5], cells[6], cells[7], cells[8], port))
      case _ => None
  }

  /** Reads the rows back from a report whose first line is the header. */
  function ParseTable(table: seq<seq<string>>): Option<seq<Row>>
  {
    if table == [] || table[0] != FieldNames then None
    else ParseLines(table[1..])
  }

  function ParseLines(lines: seq<seq<string>>): Option<seq<Row>>
  {
    if lines == [] then Some([])
    else match (ParseLines(lines[..|lines| - 1]), ParseCells(lines[|lines| - 1]))
      case (Some(rows), Some(row)) => Some(rows + [row])
      case _ => None
  }

  /** Every column is a distinct name, so no cell of a row is written twice or lost. */
  lemma FieldNamesDistinct()
    ensures |FieldNames| == 10
    ensures forall i, j :: 0 <= i < j < |FieldNames| ==> FieldNames[i] != FieldNames[j]
  {
  }

  /** The cells of a row hold its fields unchanged, each under its own column, and determine the row. */
  lemma CellsRoundTrip(row: Row)
    ensures |Cells(row)| == |FieldNames|
    ensures ParseCells(Cells(row)) == Some(row)
  {
    var cells := Cells(row);
    assert cells[4] == row.resourceType.Label();
    assert ParseKind(cells[4]) == Some(row.resourceType);
    assert cells[9] == PortCell(row.port);
    if row.port.Number? {
      IntTextRoundTrip(row.port.n);
    }
    assert ParsePort(cells[9]) == Some(row.port);
  }

  /** Lines that each read back as the corresponding row read back, all together, as those rows. */
  lemma {:induction false} ParseLinesEach(lines: seq<seq<string>>, rows: seq<Row>)
    requires |lines| == |rows|
    requires forall k :: 0 <= k < |lines| ==> ParseCells(lines[k]) == Some(rows[k])
    ensures ParseLines(lines) == Some(rows)
  {
    if lines != [] {
      var n := |lines| - 1;
      ParseLinesEach(lines[..n], rows[..n]);
      assert rows[..n] + [rows[n]] == rows;
    }
  }

  lemma DataLinesRoundTrip(rows: seq<Row>)
    ensures ParseLines(DataLines(rows)) == Some(rows)
  {
    var lines := DataLines(rows);
    forall k | 0 <= k < |lines|
      ensures ParseCells(lines[k]) == Some(rows[k])
    {
      CellsRoundTrip(rows[k]);
    }
    ParseLinesEach(lines, rows);
  }

  /** The header comes first and the report determines the rows written into it, in order. */
  lemma TableRoundTrip(rows: seq<Row>)
    ensures Table(rows)[0] == FieldNames
    ensures ParseTable(Table(rows)) == Some(rows)
  {
    assert Table(rows)[1..] == DataLines(rows);
    DataLinesRoundTrip(rows);
  }
}
