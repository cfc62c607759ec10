/** The HTML table renderer: a style block, a title, a header row with one
    cell per column spec, then one row per record, each cell the record's
    value under the column's key, aligned as the column says.
 */
module HtmlTable {
  import opened Results
  import opened Text

  /** A table cell value: the renderer shows strings as they are and
      integers in decimal, as Python's `str` does. */
  datatype Value = Str(s: string) | Int(i: int)

  function ValueText(v: Value): (r: string)
    ensures v.Str? ==> r == v.s
    ensures v.Int? && v.i >= 0 ==> Canonical(r) && DecimalValue(r) == v.i
    ensures v.Int? && v.i < 0 ==> |r| >= 2 && r[0] == '-' && Canonical(r[1..]) && DecimalValue(r[1..]) == -v.i
  {
    match v
    case Str(s) => s
    case Int(i) => IntToDecimal(i)
  }

  /** One record of the table: column key -> value. */
  type Row = map<string, Value>

  /** Python's `TableColumnData(dictKey, colHeader, colAlign)`. */
  datatype TableColumnData = TableColumnData(dictKey: string, colHeader: string, colAlign: string)

  /** A column spec with the default alignment. */
  function LeftColumn(dictKey: string, colHeader: string): (c: TableColumnData)
    ensures c.dictKey == dictKey && c.colHeader == colHeader && c.colAlign == "left"
  {
    TableColumnData(dictKey, colHeader, "left")
  }

  /** The style block used when the caller gives none. */
  const DefaultHtmlStyle: string :=
    "table, th, td {\n  padding: 5px;\n  border: 1px solid black;\n  border-collapse: collapse;\n}\n"
    + "tr:nth-child(even) {background-color: #eee;}\ntr:nth-child(odd) {background-color: #fff;}\n"

  /** The `<table>` attributes used when the caller gives none. */
  const DefaultHtmlTableStyle: string := "style=\"width:100%\""

  /** A row lacks the key of a column, as Python's `KeyError`. */
  datatype HtmlError = MissingColumnKey(key: string)

  function HeaderCell(c: TableColumnData): string {
    "<th>" + c.colHeader + "</th>\n"
  }

  /** The header cells, one per column in column order. */
  function HeaderCells(cols: seq<TableColumnData>): string {
    if |cols| == 0 then "" else HeaderCell(cols[0]) + HeaderCells(cols[1..])
  }

  function DataCell(c: TableColumnData, v: Value): string {
    "<td align=\"" + c.colAlign + "\">" + ValueText(v) + "</td>\n"
  }

  predicate HasColumns(cols: seq<TableColumnData>, row: Row) {
    forall j :: 0 <= j < |cols| ==> cols[j].dictKey in row
  }

  /** The cells of one row, one per column in column order; fails with the
      first column key the row lacks. */
  function DataCells(cols: seq<TableColumnData>, row: Row): (r: Result<string, HtmlError>)
    ensures r.Success? <==> HasColumns(cols, row)
    ensures r.Failure? ==> exists j ::
      && 0 <= j < |cols|
      && cols[j].dictKey !in row
      && (forall k :: 0 <= k < j ==> cols[k].dictKey in row)
      && r.error == MissingColumnKey(cols[j].dictKey)
  {
    if |cols| == 0 then Success("")
    else if cols[0].dictKey !in row then Failure(MissingColumnKey(cols[0].dictKey))
    else
      var rest := DataCells(cols[1..], row);
      assert forall j :: 0 < j < |cols| ==> cols[j] == cols[1..][j - 1];
      if rest.Failure? then
        var j :| 0 <= j < |cols[1..]| && cols[1..][j].dictKey !in row
          && (forall k :: 0 <= k < j ==> cols[1..][k].dictKey in row)
          && rest.error == MissingColumnKey(cols[1..][j].dictKey);
        assert forall k :: 0 <= k < j + 1 ==> cols[k].dictKey in row;
        Failure(rest.error)
      else
        Success(DataCell(cols[0], row[cols[0].dictKey]) + rest.value)
  }

  function RowHtml(cols: seq<TableColumnData>, row: Row): (r: Result<string, HtmlError>)
    ensures r.Success? <==> HasColumns(cols, row)
  {
    var cells :- DataCells(cols, row);
    Success("<tr>\n" + cells + "</tr>\n\n")
  }

  /** The data rows, in row order; fails with the first missing key of the
      first row that lacks one. */
  function RowsHtml(cols: seq<TableColumnData>, rows: seq<Row>): (r: Result<string, HtmlError>)
    ensures r.Success? <==> forall i :: 0 <= i < |rows| ==> HasColumns(cols, rows[i])
    ensures r.Failure? ==> exists i ::
      && 0 <= i < |rows|
      && !HasColumns(cols, rows[i])
      && (forall k :: 0 <= k < i ==> HasColumns(cols, rows[k]))
      && r == Failure(DataCells(cols, rows[i]).error)
  {
    if |rows| == 0 then Success("")
    else
      var first := RowHtml(cols, rows[0]);
      if first.Failure? then Failure(first.error)
      else
        var rest := RowsHtml(cols, rows[1..]);
        assert forall i :: 0 < i < |rows| ==> rows[i] == rows[1..][i - 1];
        if rest.Failure? then
          var i :| 0 <= i < |rows[1..]| && !HasColumns(cols, rows[1..][i])
            && (forall k :: 0 <= k < i ==> HasColumns(cols, rows[1..][k]))
            && rest == Failure(DataCells(cols, rows[1..][i]).error);
          assert forall k :: 0 <= k < i + 1 ==> HasColumns(cols, rows[k]);
          Failure(rest.error)
        else
          Success(first.value + rest.value)
  }

  /** Everything before the data rows. */
  function TableHead(title: string, cols: seq<TableColumnData>, htmlStyle: string, htmlTableStyle: string): string {
    "<style>" + htmlStyle + "</style>\n"
    + "<h3>" + title + "</h3>\n"
    + "<table " + htmlTableStyle + ">\n\n"
    + "<tr>\n" + HeaderCells(cols) + "</tr>\n\n"
  }

  /** Python's `createHtmlTableStr`: the style block (the default one when
      none is given), the title, the table opened with the given attributes
      (the default ones when none are given, nothing after the space when
      they are empty), the header row, the data rows in order, and the
      closing tag.  A row lacking a column's key fails with that key. */
  function CreateHtmlTableStr(title: string, cols: seq<TableColumnData>, rows: seq<Row>,
                              htmlStyle: Option<string>, htmlTableStyle: Option<string>): (r: Result<string, HtmlError>)
    ensures r.Success? <==> forall i :: 0 <= i < |rows| ==> HasColumns(cols, rows[i])
    ensures r.Failure? ==> r.error == RowsHtml(cols, rows).error
    ensures r.Success? ==>
      var style := if htmlStyle.Some? then htmlStyle.value else DefaultHtmlStyle;
      var tableStyle := if htmlTableStyle.Some? then htmlTableStyle.value else DefaultHtmlTableStyle;
      r.value == TableHead(title, cols, style, tableStyle) + RowsHtml(cols, rows).value + "</table>\n"
  {
    var style := if htmlStyle.Some? then htmlStyle.value else DefaultHtmlStyle;
    var tableStyle := if htmlTableStyle.Some? then htmlTableStyle.value else DefaultHtmlTableStyle;
    var body :- RowsHtml(cols, rows);
    Success(TableHead(title, cols, style, tableStyle) + body + "</table>\n")
  }

  /** The header cells of two column lists are those of each in turn. */
  lemma {:induction false} HeaderCellsConcat(a: seq<TableColumnData>, b: seq<TableColumnData>)
    ensures HeaderCells(a + b) == HeaderCells(a) + HeaderCells(b)
    decreases |a|
  {
    if |a| == 0 {
      assert a + b == b;
    } else {
      assert (a + b)[1..] == a[1..] + b;
      HeaderCellsConcat(a[1..], b);
    }
  }

  /** The cells of a row under two column lists are those under each in turn. */
  lemma {:induction false} DataCellsConcat(a: seq<TableColumnData>, b: seq<TableColumnData>, row: Row)
    requires HasColumns(a + b, row)
    ensures HasColumns(a, row) && HasColumns(b, row)
    ensures DataCells(a + b, row).value == DataCells(a, row).value + DataCells(b, row).value
    decreases |a|
  {
    assert forall j :: 0 <= j < |a| ==> (a + b)[j] == a[j];
    assert forall j :: 0 <= j < |b| ==> (a + b)[|a| + j] == b[j];
    if |a| == 0 {
      assert a + b == b;
    } else {
      assert (a + b)[1..] == a[1..] + b;
      DataCellsConcat(a[1..], b, row);
    }
  }

  /** The rendering of two row lists is that of each in turn, and fails
      exactly when one of them does. */
  lemma {:induction false} RowsHtmlConcat(cols: seq<TableColumnData>, a: seq<Row>, b: seq<Row>)
    ensures RowsHtml(cols, a + b).Success? <==> RowsHtml(cols, a).Success? && RowsHtml(cols, b).Success?
    ensures RowsHtml(cols, a + b).Success? ==>
      RowsHtml(cols, a + b).value == RowsHtml(cols, a).value + RowsHtml(cols, b).value
    decreases |a|
  {
    if |a| == 0 {
      assert a + b == b;
    } else {
      assert (a + b)[1..] == a[1..] + b;
      assert (a + b)[0] == a[0];
      RowsHtmlConcat(cols, a[1..], b);
    }
  }

  /** One column has its one header cell. */
  lemma OneHeaderCell(c: TableColumnData)
    ensures HeaderCells([c]) == HeaderCell(c)
  {
    assert [c][1..] == [];
  }

  /** A row under one column is that column's one cell. */
  lemma OneDataCell(c: TableColumnData, row: Row)
    requires c.dictKey in row
    ensures DataCells([c], row) == Success(DataCell(c, row[c.dictKey]))
  {
    assert [c][1..] == [];
    assert DataCells([c][1..], row) == Success("");
    var cell := DataCell(c, row[c.dictKey]);
    assert cell + "" == cell;
  }

  /** One row renders as that row alone. */
  lemma OneRowHtml(cols: seq<TableColumnData>, row: Row)
    requires HasColumns(cols, row)
    ensures RowsHtml(cols, [row]) == RowHtml(cols, row)
  {
    assert [row][1..] == [];
    assert RowsHtml(cols, [row][1..]) == Success("");
    var one := RowHtml(cols, row);
    assert one.value + "" == one.value;
  }

  /** The table starts with the style block and the title and ends with the
      closing tag, whatever the rows are. */
  lemma TableFrame(title: string, cols: seq<TableColumnData>, rows: seq<Row>, htmlStyle: string, htmlTableStyle: string)
    requires forall i :: 0 <= i < |rows| ==> HasColumns(cols, rows[i])
    ensures var s := CreateHtmlTableStr(title, cols, rows, Some(htmlStyle), Some(htmlTableStyle)).value;
      var prefix := "<style>" + htmlStyle + "</style>\n" + "<h3>" + title + "</h3>\n" + "<table " + htmlTableStyle + ">\n\n" + "<tr>\n";
      && |prefix| <= |s| && s[..|prefix|] == prefix
      && |s| >= 9 && s[|s| - 9..] == "</table>\n"
  {
    var prefix := "<style>" + htmlStyle + "</style>\n" + "<h3>" + title + "</h3>\n" + "<table " + htmlTableStyle + ">\n\n" + "<tr>\n";
    assert TableHead(title, cols, htmlStyle, htmlTableStyle) == prefix + HeaderCells(cols) + "</tr>\n\n";
    Framed(prefix, HeaderCells(cols), "</tr>\n\n", RowsHtml(cols, rows).value, "</table>\n");
  }

  lemma Framed(p: string, a: string, b: string, c: string, d: string)
    ensures var s := p + a + b + c + d;
      |p| <= |s| && s[..|p|] == p && |d| <= |s| && s[|s| - |d|..] == d
  {
    var s := p + a + b + c + d;
    assert s == p + (a + b + c + d);
    assert s == (p + a + b + c) + d;
  }
}
