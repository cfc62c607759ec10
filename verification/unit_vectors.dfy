/** The concrete cases the unit tests pin down, each stated as a lemma
    about the model.
 */
module UnitVectors {
  import opened Results
  import opened Text
  import opened Dates
  import opened QueryUrls
  import opened Builds
  import opened BuildIndex
  import opened Matcher
  import opened PassFail
  import opened Csv
  import opened HtmlTable

  // Dates

  lemma SpellingVectors()
    ensures Spelling(Date(2015, 12, 21), 2, 2) == "2015-12-21"
    ensures Spelling(Date(2015, 12, 1), 2, 2) == "2015-12-01"
    ensures Spelling(Date(2015, 12, 1), 2, 1) == "2015-12-1"
    ensures Spelling(Date(2015, 1, 9), 1, 1) == "2015-1-9"
    ensures Spelling(Date(2015, 1, 9), 2, 2) == "2015-01-09"
  {
    DecemberSpellings();
    JanuarySpellings();
  }

  lemma DecemberSpellings()
    ensures Spelling(Date(2015, 12, 21), 2, 2) == "2015-12-21"
    ensures Spelling(Date(2015, 12, 1), 2, 2) == "2015-12-01"
    ensures Spelling(Date(2015, 12, 1), 2, 1) == "2015-12-1"
  {
    DecemberFull();
    DecemberFirst();
  }

  lemma DecemberFull()
    ensures Spelling(Date(2015, 12, 21), 2, 2) == "2015-12-21"
  {
    YearPad();
    MonthDayPads();
  }

  lemma DecemberFirst()
    ensures Spelling(Date(2015, 12, 1), 2, 2) == "2015-12-01"
    ensures Spelling(Date(2015, 12, 1), 2, 1) == "2015-12-1"
  {
    YearPad();
    MonthDayPads();
    DayOneShort();
  }

  lemma DayOneShort()
    ensures ZeroPad(1, 1) == "1"
  {
  }

  lemma JanuarySpellings()
    ensures Spelling(Date(2015, 1, 9), 1, 1) == "2015-1-9"
    ensures Spelling(Date(2015, 1, 9), 2, 2) == "2015-01-09"
  {
    JanuaryShort();
    JanuaryPadded();
  }

  lemma JanuaryShort()
    ensures Spelling(Date(2015, 1, 9), 1, 1) == "2015-1-9"
  {
    YearPad();
    assert ZeroPad(1, 1) == "1" && ZeroPad(9, 1) == "9";
  }

  lemma JanuaryPadded()
    ensures Spelling(Date(2015, 1, 9), 2, 2) == "2015-01-09"
  {
    YearPad();
    MonthDayPads();
  }

  lemma YearPad()
    ensures ZeroPad(2015, 4) == "2015"
  {
    assert ZeroPad(2, 1) == "2";
    assert ZeroPad(20, 2) == "20";
    assert ZeroPad(201, 3) == "201";
  }

  lemma MonthDayPads()
    ensures ZeroPad(12, 2) == "12" && ZeroPad(21, 2) == "21" && ZeroPad(1, 2) == "01" && ZeroPad(9, 2) == "09"
  {
    assert ZeroPad(1, 1) == "1" && ZeroPad(2, 1) == "2" && ZeroPad(0, 1) == "0";
  }

  lemma AcceptedSpellings()
    ensures ValidateYYYYMMDD(Spelling(Date(2015, 12, 21), 2, 2)) == Success(Date(2015, 12, 21))
    ensures ValidateYYYYMMDD(Spelling(Date(2015, 12, 1), 2, 2)) == Success(Date(2015, 12, 1))
    ensures ValidateYYYYMMDD(Spelling(Date(2015, 12, 1), 2, 1)) == Success(Date(2015, 12, 1))
    ensures ValidateYYYYMMDD(Spelling(Date(2015, 1, 9), 1, 1)) == Success(Date(2015, 1, 9))
  {
    ValidateAcceptsSpellings(Date(2015, 12, 21), 2, 2);
    ValidateAcceptsSpellings(Date(2015, 12, 1), 2, 2);
    ValidateAcceptsSpellings(Date(2015, 12, 1), 2, 1);
    ValidateAcceptsSpellings(Date(2015, 1, 9), 1, 1);
  }

  /** Full, short-day and short-month-and-day spellings validate, and the
      value prints zero-padded at midnight. */
  lemma DateVectors()
    ensures ValidateYYYYMMDD("2015-12-21") == Success(Date(2015, 12, 21))
    ensures ValidateYYYYMMDD("2015-12-01") == Success(Date(2015, 12, 1))
    ensures ValidateYYYYMMDD("2015-12-1") == Success(Date(2015, 12, 1))
    ensures ValidateYYYYMMDD("2015-1-9") == Success(Date(2015, 1, 9))
    ensures DateString(Date(2015, 1, 9)) == "2015-01-09" + " 00:00:00"
  {
    SpellingVectors();
    AcceptedSpellings();
  }

  /** The empty string and a date missing a dash are refused. */
  lemma DateFailVectors()
    ensures ValidateYYYYMMDD("").Failure?
    ensures ValidateYYYYMMDD("201512-21").Failure?
  {
    SplitNoSeparator("", '-');
    assert "201512-21" == "201512" + ['-'] + "21";
    SplitFirst("201512", "21", '-');
    SplitNoSeparator("21", '-');
  }

  // URLs

  lemma UrlShapes(base: string, project: string, date: string, filterFields: string)
    ensures GetCDashIndexQueryUrl(base, project, date, filterFields) == base + IndexQueryPath + "?" + QueryString(project, date, filterFields)
    ensures GetCDashIndexBrowserUrl(base, project, date, filterFields) == base + IndexBrowserPath + "?" + QueryString(project, date, filterFields)
    ensures GetCDashQueryTestsQueryUrl(base, project, date, filterFields) == base + TestsQueryPath + "?" + QueryString(project, date, filterFields)
    ensures GetCDashQueryTestsBrowserUrl(base, project, date, filterFields) == base + TestsBrowserPath + "?" + QueryString(project, date, filterFields)
  {
  }

  /** The filter fields pass through unchanged, their own `&` included. */
  lemma UrlVectors()
    ensures var q := "project=" + "project-name" + "&date=" + "2015-12-21" + "&" + "filtercount=1&morestuff";
      && GetCDashIndexQueryUrl("site.com/cdash", "project-name", "2015-12-21", "filtercount=1&morestuff")
         == "site.com/cdash" + "/api/v1/index.php" + "?" + q
      && GetCDashIndexBrowserUrl("site.com/cdash", "project-name", "2015-12-21", "filtercount=1&morestuff")
         == "site.com/cdash" + "/index.php" + "?" + q
      && GetCDashQueryTestsQueryUrl("site.com/cdash", "project-name", "2015-12-21", "filtercount=1&morestuff")
         == "site.com/cdash" + "/api/v1/queryTests.php" + "?" + q
      && GetCDashQueryTestsBrowserUrl("site.com/cdash", "project-name", "2015-12-21", "filtercount=1&morestuff")
         == "site.com/cdash" + "/queryTests.php" + "?" + q
  {
    UrlShapes("site.com/cdash", "project-name", "2015-12-21", "filtercount=1&morestuff");
  }

  // CSV files

  lemma JoinTwo(a: string, b: string, sep: string)
    ensures Join([a, b], sep) == a + sep + b
  {
    assert [a, b][1..] == [b];
  }

  lemma JoinThree(a: string, b: string, c: string, sep: string)
    ensures Join([a, b, c], sep) == a + sep + b + sep + c
  {
    assert [a, b, c][1..] == [b, c];
    JoinTwo(b, c, sep);
  }

  lemma JoinFour(a: string, b: string, c: string, d: string, sep: string)
    ensures Join([a, b, c, d], sep) == a + sep + b + sep + c + sep + d
  {
    assert [a, b, c, d][1..] == [b, c, d];
    JoinThree(b, c, d, sep);
  }

  lemma PairOf<T>(s: seq<T>, a: T, b: T)
    requires |s| == 2 && s[0] == a && s[1] == b
    ensures s == [a, b]
  {
  }

  lemma OneBlank()
    ensures Padding(" ")
  {
  }

  /** Lines written with one blank after each comma. */
  lemma SpacedRenderLines(rows: seq<seq<string>>)
    ensures |RenderLines(rows, " ")| == |rows|
    ensures forall i :: 0 <= i < |rows| ==> RenderLines(rows, " ")[i] == Join(rows[i], ", ")
  {
    assert "," + " " == ", ";
  }

  /** The record of a three-column row. */
  lemma RowDictThree(a: string, b: string, c: string, x: string, y: string, z: string)
    ensures RowDict([a, b, c], [x, y, z]) == map[a := x, b := y, c := z]
  {
    assert [a, b, c][..2] == [a, b] && [x, y, z][..2] == [x, y];
    assert [a, b][..1] == [a] && [x, y][..1] == [x];
    assert [a][..0] == [] && [x][..0] == [];
    assert RowDict([a], [x]) == map[a := x];
    assert RowDict([a, b], [x, y]) == map[a := x, b := y];
  }

  /** The text of a table written with one blank after each comma, line by line. */
  lemma SpacedText(h: seq<string>, rows: seq<seq<string>>, lines: seq<string>)
    requires |lines| == |rows| + 1 && Join(h, ", ") == lines[0]
    requires forall i :: 0 <= i < |rows| ==> Join(rows[i], ", ") == lines[i + 1]
    ensures RenderCsv(h, rows, " ") == Join(lines, "\n")
  {
    SpacedRenderLines(rows);
    assert "," + " " == ", ";
    assert [Join(h, "," + " ")] + RenderLines(rows, " ") == lines;
  }

  lemma TwoLineText(h: seq<string>, r0: seq<string>, l0: string, l1: string)
    requires Join(h, ", ") == l0 && Join(r0, ", ") == l1
    ensures RenderCsv(h, [r0], " ") == l0 + "\n" + l1
  {
    SpacedText(h, [r0], [l0, l1]);
    JoinTwo(l0, l1, "\n");
  }

  lemma ThreeLineText(h: seq<string>, r0: seq<string>, r1: seq<string>, l0: string, l1: string, l2: string)
    requires Join(h, ", ") == l0 && Join(r0, ", ") == l1 && Join(r1, ", ") == l2
    ensures RenderCsv(h, [r0, r1], " ") == l0 + "\n" + l1 + "\n" + l2
  {
    SpacedText(h, [r0, r1], [l0, l1, l2]);
    JoinThree(l0, l1, l2, "\n");
  }

  lemma FourLineText(h: seq<string>, r0: seq<string>, r1: seq<string>, r2: seq<string>,
                     l0: string, l1: string, l2: string, l3: string)
    requires Join(h, ", ") == l0 && Join(r0, ", ") == l1 && Join(r1, ", ") == l2 && Join(r2, ", ") == l3
    ensures RenderCsv(h, [r0, r1, r2], " ") == l0 + "\n" + l1 + "\n" + l2 + "\n" + l3
  {
    SpacedText(h, [r0, r1, r2], [l0, l1, l2, l3]);
    JoinFour(l0, l1, l2, l3, "\n");
  }

  /** A header line and two row lines, written with one blank after each comma. */
  lemma TwoRowText(h: seq<string>, r0: seq<string>, r1: seq<string>, l0: string, l1: string, l2: string,
                   expected: Option<seq<string>>)
    requires CleanRow(h) && CleanRow(r0) && CleanRow(r1) && |r0| == |h| && |r1| == |h|
    requires Join(h, ", ") == l0 && Join(r0, ", ") == l1 && Join(r1, ", ") == l2
    requires expected.None? || expected.value == h
    ensures ReadCsvFileIntoListOfDicts(l0 + "\n" + l1 + "\n" + l2, expected) == Success([RowDict(h, r0), RowDict(h, r1)])
  {
    var rows := [r0, r1];
    assert rows[0] == r0 && rows[1] == r1;
    OneBlank();
    ThreeLineText(h, r0, r1, l0, l1, l2);
    ReadRenderedCsv(h, rows, expected, " ");
    var r := ReadCsvFileIntoListOfDicts(RenderCsv(h, rows, " "), expected);
    assert r.value[0] == RowDict(h, r0) && r.value[1] == RowDict(h, r1);
    PairOf(r.value, RowDict(h, r0), RowDict(h, r1));
  }

  /** The same with three line breaks at the end. */
  lemma TwoRowFile(h: seq<string>, r0: seq<string>, r1: seq<string>, l0: string, l1: string, l2: string,
                   expected: Option<seq<string>>)
    requires CleanRow(h) && CleanRow(r0) && CleanRow(r1) && |r0| == |h| && |r1| == |h|
    requires Join(h, ", ") == l0 && Join(r0, ", ") == l1 && Join(r1, ", ") == l2
    requires expected.None? || expected.value == h
    ensures ReadCsvFileIntoListOfDicts(l0 + "\n" + l1 + "\n" + l2 + "\n" + "\n" + "\n", expected)
      == Success([RowDict(h, r0), RowDict(h, r1)])
  {
    var x := l0 + "\n" + l1 + "\n" + l2;
    TwoRowText(h, r0, r1, l0, l1, l2, expected);
    TrailingNewline(x + "\n" + "\n", expected);
    TrailingNewline(x + "\n", expected);
    TrailingNewline(x, expected);
  }

  /** A header line and one row line, read under expected columns that
      differ from the header. */
  lemma OneRowTextMismatch(h: seq<string>, r0: seq<string>, l0: string, l1: string, expected: seq<string>)
    requires CleanRow(h) && CleanRow(r0)
    requires Join(h, ", ") == l0 && Join(r0, ", ") == l1
    requires |expected| > 0 && h != expected
    ensures ReadCsvFileIntoListOfDicts(l0 + "\n" + l1, Some(expected)) == Failure(HeaderMismatch(h, expected))
  {
    var rows := [r0];
    assert rows[0] == r0;
    OneBlank();
    TwoLineText(h, r0, l0, l1);
    ReadRenderedChecks(h, rows, Some(expected), " ");
  }

  /** The same with a line break at the end. */
  lemma OneRowFileMismatch(h: seq<string>, r0: seq<string>, l0: string, l1: string, expected: seq<string>)
    requires CleanRow(h) && CleanRow(r0)
    requires Join(h, ", ") == l0 && Join(r0, ", ") == l1
    requires |expected| > 0 && h != expected
    ensures ReadCsvFileIntoListOfDicts(l0 + "\n" + l1 + "\n", Some(expected)) == Failure(HeaderMismatch(h, expected))
  {
    OneRowTextMismatch(h, r0, l0, l1, expected);
    TrailingNewline(l0 + "\n" + l1, Some(expected));
  }

  /** A header line and two row lines, the second of another length. */
  lemma LongRowText(h: seq<string>, r0: seq<string>, r1: seq<string>, l0: string, l1: string, l2: string)
    requires CleanRow(h) && CleanRow(r0) && CleanRow(r1) && |r0| == |h| && |r1| != |h|
    requires Join(h, ", ") == l0 && Join(r0, ", ") == l1 && Join(r1, ", ") == l2
    ensures ReadCsvFileIntoListOfDicts(l0 + "\n" + l1 + "\n" + l2, None) == Failure(RowLengthMismatch(r1, h))
  {
    var rows := [r0, r1];
    assert rows[0] == r0 && rows[1] == r1;
    OneBlank();
    ThreeLineText(h, r0, r1, l0, l1, l2);
    ReadRenderedChecks(h, rows, None, " ");
  }

  /** The same with a line break at the end. */
  lemma LongRowFile(h: seq<string>, r0: seq<string>, r1: seq<string>, l0: string, l1: string, l2: string)
    requires CleanRow(h) && CleanRow(r0) && CleanRow(r1) && |r0| == |h| && |r1| != |h|
    requires Join(h, ", ") == l0 && Join(r0, ", ") == l1 && Join(r1, ", ") == l2
    ensures ReadCsvFileIntoListOfDicts(l0 + "\n" + l1 + "\n" + l2 + "\n", None) == Failure(RowLengthMismatch(r1, h))
  {
    LongRowText(h, r0, r1, l0, l1, l2);
    TrailingNewline(l0 + "\n" + l1 + "\n" + l2, None);
  }

  lemma TripleOf<T>(s: seq<T>, a: T, b: T, c: T)
    requires |s| == 3 && s[0] == a && s[1] == b && s[2] == c
    ensures s == [a, b, c]
  {
  }

  lemma ThreeRowsClean(r0: seq<string>, r1: seq<string>, r2: seq<string>)
    requires CleanRow(r0) && CleanRow(r1) && CleanRow(r2) && |r0| == 3 && |r1| == 3 && |r2| == 3
    ensures forall i :: 0 <= i < 3 ==> CleanRow([r0, r1, r2][i]) && |[r0, r1, r2][i]| == 3
  {
    forall i | 0 <= i < 3
      ensures CleanRow([r0, r1, r2][i]) && |[r0, r1, r2][i]| == 3
    {
      assert [r0, r1, r2][i] == r0 || [r0, r1, r2][i] == r1 || [r0, r1, r2][i] == r2;
    }
  }

  /** Three records read back from three rows, as one list. */
  lemma ThreeKeys(r: Result<seq<BuildKey>, CsvError>, rows: seq<seq<string>>)
    requires |rows| == 3 && forall i :: 0 <= i < 3 ==> |rows[i]| == 3
    requires r.Success? && |r.value| == 3
    requires forall i :: 0 <= i < 3 ==> r.value[i] == BuildKey(rows[i][0], rows[i][1], rows[i][2])
    ensures r == Success([BuildKey(rows[0][0], rows[0][1], rows[0][2]), BuildKey(rows[1][0], rows[1][1], rows[1][2]),
                          BuildKey(rows[2][0], rows[2][1], rows[2][2])])
  {
    SuccessOfTriple(r, BuildKey(rows[0][0], rows[0][1], rows[0][2]), BuildKey(rows[1][0], rows[1][1], rows[1][2]),
      BuildKey(rows[2][0], rows[2][1], rows[2][2]));
  }

  /** Three clean three-field rows of an expected-builds file, read back. */
  lemma ThreeRowBuildsRead(r0: seq<string>, r1: seq<string>, r2: seq<string>)
    requires CleanRow(r0) && CleanRow(r1) && CleanRow(r2) && |r0| == 3 && |r1| == 3 && |r2| == 3
    ensures GetExpectedBuildsListfromCsvFile(RenderCsv(ExpectedBuildsColumns, [r0, r1, r2], " "))
      == Success([BuildKey(r0[0], r0[1], r0[2]), BuildKey(r1[0], r1[1], r1[2]), BuildKey(r2[0], r2[1], r2[2])])
  {
    OneBlank();
    ThreeRowsClean(r0, r1, r2);
    ExpectedBuildsOfRendered([r0, r1, r2], " ");
    ThreeKeys(GetExpectedBuildsListfromCsvFile(RenderCsv(ExpectedBuildsColumns, [r0, r1, r2], " ")), [r0, r1, r2]);
  }

  lemma SuccessOfTriple<T, E>(r: Result<seq<T>, E>, a: T, b: T, c: T)
    requires r.Success? && |r.value| == 3 && r.value[0] == a && r.value[1] == b && r.value[2] == c
    ensures r == Success([a, b, c])
  {
    TripleOf(r.value, a, b, c);
  }

  /** An expected-builds file of three rows, written with one blank after each comma. */
  lemma ThreeRowBuildsText(r0: seq<string>, r1: seq<string>, r2: seq<string>, l0: string, l1: string, l2: string, l3: string)
    requires CleanRow(r0) && CleanRow(r1) && CleanRow(r2) && |r0| == 3 && |r1| == 3 && |r2| == 3
    requires Join(ExpectedBuildsColumns, ", ") == l0 && Join(r0, ", ") == l1 && Join(r1, ", ") == l2 && Join(r2, ", ") == l3
    ensures GetExpectedBuildsListfromCsvFile(l0 + "\n" + l1 + "\n" + l2 + "\n" + l3)
      == Success([BuildKey(r0[0], r0[1], r0[2]), BuildKey(r1[0], r1[1], r1[2]), BuildKey(r2[0], r2[1], r2[2])])
  {
    var rows := [r0, r1, r2];
    assert rows[0] == r0 && rows[1] == r1 && rows[2] == r2;
    FourLineText(ExpectedBuildsColumns, r0, r1, r2, l0, l1, l2, l3);
    ThreeRowBuildsRead(r0, r1, r2);
  }

  /** The same with four line breaks at the end. */
  lemma ThreeRowBuildsFile(r0: seq<string>, r1: seq<string>, r2: seq<string>, l0: string, l1: string, l2: string, l3: string)
    requires CleanRow(r0) && CleanRow(r1) && CleanRow(r2) && |r0| == 3 && |r1| == 3 && |r2| == 3
    requires Join(ExpectedBuildsColumns, ", ") == l0 && Join(r0, ", ") == l1 && Join(r1, ", ") == l2 && Join(r2, ", ") == l3
    ensures GetExpectedBuildsListfromCsvFile(l0 + "\n" + l1 + "\n" + l2 + "\n" + l3 + "\n" + "\n" + "\n" + "\n")
      == Success([BuildKey(r0[0], r0[1], r0[2]), BuildKey(r1[0], r1[1], r1[2]), BuildKey(r2[0], r2[1], r2[2])])
  {
    var x := l0 + "\n" + l1 + "\n" + l2 + "\n" + l3;
    ThreeRowBuildsText(r0, r1, r2, l0, l1, l2, l3);
    ExpectedTrailingNewline(x + "\n" + "\n" + "\n");
    ExpectedTrailingNewline(x + "\n" + "\n");
    ExpectedTrailingNewline(x + "\n");
    ExpectedTrailingNewline(x);
  }

  /** A three-field row and its line. */
  lemma SpacedRow(a: string, b: string, c: string, line: string)
    requires CleanField(a) && CleanField(b) && CleanField(c)
    requires a + ", " + b + ", " + c == line
    ensures CleanRow([a, b, c]) && Join([a, b, c], ", ") == line
  {
    JoinThree(a, b, c, ", ");
  }

  lemma ColumnNamesLine()
    ensures CleanRow(["col_0", "col_1", "col_2"]) && Join(["col_0", "col_1", "col_2"], ", ") == "col_0, col_1, col_2"
  {
    SpacedRow("col_0", "col_1", "col_2", "col_0, col_1, col_2");
  }

  lemma FirstRowLine()
    ensures CleanRow(["val_00", "val_01", "val_02"]) && Join(["val_00", "val_01", "val_02"], ", ") == "val_00, val_01, val_02"
  {
    SpacedRow("val_00", "val_01", "val_02", "val_00, val_01, val_02");
  }

  lemma SecondRowLine()
    ensures CleanRow(["val_10", "val_11", "val_12"]) && Join(["val_10", "val_11", "val_12"], ", ") == "val_10, val_11, val_12"
  {
    SpacedRow("val_10", "val_11", "val_12", "val_10, val_11, val_12");
  }

  /** Two rows with trailing blank lines give two records, in order, with or
      without the expected columns. */
  lemma CsvTwoRowsVector(expected: Option<seq<string>>)
    requires expected == None || expected == Some(["col_0", "col_1", "col_2"])
    ensures ReadCsvFileIntoListOfDicts(
        "col_0, col_1, col_2" + "\n" + "val_00, val_01, val_02" + "\n" + "val_10, val_11, val_12" + "\n" + "\n" + "\n",
        expected)
      == Success([map["col_0" := "val_00", "col_1" := "val_01", "col_2" := "val_02"],
                  map["col_0" := "val_10", "col_1" := "val_11", "col_2" := "val_12"]])
  {
    ColumnNamesLine();
    FirstRowLine();
    SecondRowLine();
    TwoRowFile(["col_0", "col_1", "col_2"], ["val_00", "val_01", "val_02"], ["val_10", "val_11", "val_12"],
      "col_0, col_1, col_2", "val_00, val_01, val_02", "val_10, val_11, val_12", expected);
    RowDictThree("col_0", "col_1", "col_2", "val_00", "val_01", "val_02");
    RowDictThree("col_0", "col_1", "col_2", "val_10", "val_11", "val_12");
  }

  lemma WrongFirstColumnLine()
    ensures CleanRow(["wrong col", "col_1", "col_2"]) && Join(["wrong col", "col_1", "col_2"], ", ") == "wrong col, col_1, col_2"
    ensures ["wrong col", "col_1", "col_2"] != ["col_0", "col_1"]
    ensures ["wrong col", "col_1", "col_2"] != ["col_0", "col_1", "col_2", "col3"]
    ensures ["wrong col", "col_1", "col_2"] != ["col_0", "col_1", "col_2"]
  {
    SpacedRow("wrong col", "col_1", "col_2", "wrong col, col_1, col_2");
    assert ["wrong col", "col_1", "col_2"][0] != "col_0";
  }

  /** A header that differs from the expected columns, in length or in its
      first column, fails with both lists. */
  lemma CsvHeaderMismatchVectors(expected: seq<string>)
    requires expected in [["col_0", "col_1"], ["col_0", "col_1", "col_2", "col3"], ["col_0", "col_1", "col_2"]]
    ensures ReadCsvFileIntoListOfDicts("wrong col, col_1, col_2" + "\n" + "val_00, val_01, val_02" + "\n", Some(expected))
      == Failure(HeaderMismatch(["wrong col", "col_1", "col_2"], expected))
  {
    WrongFirstColumnLine();
    FirstRowLine();
    OneRowFileMismatch(["wrong col", "col_1", "col_2"], ["val_00", "val_01", "val_02"],
      "wrong col, col_1, col_2", "val_00, val_01, val_02", expected);
  }

  lemma WrongSecondColumnLine()
    ensures CleanRow(["col_0", "wrong col", "col_2"]) && Join(["col_0", "wrong col", "col_2"], ", ") == "col_0, wrong col, col_2"
    ensures ["col_0", "wrong col", "col_2"] != ["col_0", "col_1", "col_2"]
  {
    SpacedRow("col_0", "wrong col", "col_2", "col_0, wrong col, col_2");
    assert ["col_0", "wrong col", "col_2"][1] != "col_1";
  }

  /** A header whose second column differs from the expected one fails. */
  lemma CsvWrongSecondColumnVector()
    ensures ReadCsvFileIntoListOfDicts("col_0, wrong col, col_2" + "\n" + "val_00, val_01, val_02" + "\n", Some(["col_0", "col_1", "col_2"]))
      == Failure(HeaderMismatch(["col_0", "wrong col", "col_2"], ["col_0", "col_1", "col_2"]))
  {
    WrongSecondColumnLine();
    FirstRowLine();
    OneRowFileMismatch(["col_0", "wrong col", "col_2"], ["val_00", "val_01", "val_02"],
      "col_0, wrong col, col_2", "val_00, val_01, val_02", ["col_0", "col_1", "col_2"]);
  }

  lemma LongRowLine()
    ensures var r := ["val_10", "val_11", "val_12", "extra"];
      CleanRow(r) && |r| == 4 && Join(r, ", ") == "val_10, val_11, val_12, extra"
  {
    JoinFour("val_10", "val_11", "val_12", "extra", ", ");
  }

  /** A row with one field too many fails, naming that row. */
  lemma CsvBadRowLengthVector()
    ensures ReadCsvFileIntoListOfDicts(
        "col_0, col_1, col_2" + "\n" + "val_00, val_01, val_02" + "\n" + "val_10, val_11, val_12, extra" + "\n", None)
      == Failure(RowLengthMismatch(["val_10", "val_11", "val_12", "extra"], ["col_0", "col_1", "col_2"]))
  {
    ColumnNamesLine();
    FirstRowLine();
    LongRowLine();
    LongRowFile(["col_0", "col_1", "col_2"], ["val_00", "val_01", "val_02"], ["val_10", "val_11", "val_12", "extra"],
      "col_0, col_1, col_2", "val_00, val_01, val_02", "val_10, val_11, val_12, extra");
  }

  lemma ExpectedColumnsLine()
    ensures Join(ExpectedBuildsColumns, ", ") == "group, site, buildname"
  {
    SpacedRow("group", "site", "buildname", "group, site, buildname");
  }

  lemma ExpectedRowLine(g: string, st: string, bn: string, line: string)
    requires g in ["group1", "group2"] && st in ["site1", "site2"] && bn in ["buildname1", "buildname2"]
    requires g + ", " + st + ", " + bn == line
    ensures CleanRow([g, st, bn]) && Join([g, st, bn], ", ") == line
  {
    SpacedRow(g, st, bn, line);
  }

  lemma ExpectedFirstRow()
    ensures CleanRow(["group1", "site1", "buildname1"]) && Join(["group1", "site1", "buildname1"], ", ") == "group1, site1, buildname1"
  {
    ExpectedRowLine("group1", "site1", "buildname1", "group1, site1, buildname1");
  }

  lemma ExpectedSecondRow()
    ensures CleanRow(["group1", "site1", "buildname2"]) && Join(["group1", "site1", "buildname2"], ", ") == "group1, site1, buildname2"
  {
    ExpectedRowLine("group1", "site1", "buildname2", "group1, site1, buildname2");
  }

  lemma ExpectedThirdRow()
    ensures CleanRow(["group2", "site2", "buildname2"]) && Join(["group2", "site2", "buildname2"], ", ") == "group2, site2, buildname2"
  {
    ExpectedRowLine("group2", "site2", "buildname2", "group2, site2, buildname2");
  }

  /** The expected-builds file: one identity tuple per row, in order,
      trailing blank lines skipped. */
  lemma ExpectedBuildsFileVector()
    ensures GetExpectedBuildsListfromCsvFile(
        "group, site, buildname" + "\n" + "group1, site1, buildname1" + "\n" + "group1, site1, buildname2" + "\n"
        + "group2, site2, buildname2" + "\n" + "\n" + "\n" + "\n")
      == Success([BuildKey("group1", "site1", "buildname1"), BuildKey("group1", "site1", "buildname2"),
                  BuildKey("group2", "site2", "buildname2")])
  {
    ExpectedColumnsLine();
    ExpectedFirstRow();
    ExpectedSecondRow();
    ExpectedThirdRow();
    ThreeRowBuildsFile(["group1", "site1", "buildname1"], ["group1", "site1", "buildname2"], ["group2", "site2", "buildname2"],
      "group, site, buildname", "group1, site1, buildname1", "group1, site1, buildname2", "group2, site2, buildname2");
  }

  // Build summaries

  function SinglePassingRaw(): map<string, Json> {
    map[
      "site" := JStr("siteName"),
      "buildname" := JStr("buildName"),
      "update" := JObj(map["errors" := JInt(0)]),
      "configure" := JObj(map["error" := JInt(0)]),
      "compilation" := JObj(map["error" := JInt(0)]),
      "test" := JObj(map["fail" := JInt(0), "notrun" := JInt(0)]),
      "extra-stuff" := JStr("stuff")]
  }

  function SinglePassingSummary(): Build {
    Build("groupName", "siteName", "buildName",
      Some(UpdateStatus(0)), Some(StageStatus(0)), Some(StageStatus(0)), Some(TestStatus(0, 0)))
  }

  /** The extra key is dropped and the group is the one given. */
  lemma ExtractFullVector()
    ensures CollectCDashIndexBuildSummaryFields(SinglePassingRaw(), "groupName") == Success(SinglePassingSummary())
  {
    var raw := SinglePassingRaw();
    assert raw["site"] == JStr("siteName") && raw["buildname"] == JStr("buildName");
    assert DecodeUpdate(raw) == Success(Some(UpdateStatus(0)));
    assert DecodeStage(raw, "configure") == Success(Some(StageStatus(0)));
    assert DecodeStage(raw, "compilation") == Success(Some(StageStatus(0)));
    assert DecodeTest(raw) == Success(Some(TestStatus(0, 0)));
  }

  /** An absent section stays absent. */
  lemma ExtractMissingUpdateVector()
    ensures CollectCDashIndexBuildSummaryFields(SinglePassingRaw() - {"update"}, "groupName")
      == Success(SinglePassingSummary().(update := None))
  {
    var raw := SinglePassingRaw() - {"update"};
    assert raw["site"] == JStr("siteName") && raw["buildname"] == JStr("buildName");
    assert DecodeUpdate(raw) == Success(None);
    assert DecodeStage(raw, "configure") == Success(Some(StageStatus(0)));
    assert DecodeStage(raw, "compilation") == Success(Some(StageStatus(0)));
    assert DecodeTest(raw) == Success(Some(TestStatus(0, 0)));
  }

  lemma ExtractMissingConfigureVector()
    ensures CollectCDashIndexBuildSummaryFields(SinglePassingRaw() - {"configure"}, "groupName")
      == Success(SinglePassingSummary().(configure := None))
  {
    var raw := SinglePassingRaw() - {"configure"};
    assert raw["site"] == JStr("siteName") && raw["buildname"] == JStr("buildName");
    assert DecodeUpdate(raw) == Success(Some(UpdateStatus(0)));
    assert DecodeStage(raw, "configure") == Success(None);
    assert DecodeStage(raw, "compilation") == Success(Some(StageStatus(0)));
    assert DecodeTest(raw) == Success(Some(TestStatus(0, 0)));
  }

  // Pass/fail

  /** The passing summary passes; one nonzero counter fails it. */
  lemma BuildPassesVectors()
    ensures CdashIndexBuildPasses(SinglePassingSummary())
    ensures !CdashIndexBuildPasses(SinglePassingSummary().(update := Some(UpdateStatus(1))))
    ensures !CdashIndexBuildPasses(SinglePassingSummary().(configure := Some(StageStatus(1))))
    ensures !CdashIndexBuildPasses(SinglePassingSummary().(compilation := Some(StageStatus(1))))
    ensures !CdashIndexBuildPasses(SinglePassingSummary().(test := Some(TestStatus(1, 0))))
    ensures !CdashIndexBuildPasses(SinglePassingSummary().(test := Some(TestStatus(0, 1))))
  {
  }

  function FailedBuild(): Build {
    SinglePassingSummary().(buildname := "failedBuild", compilation := Some(StageStatus(1)))
  }

  /** The first failing build is reported wherever it sits. */
  lemma BuildsPassVectors()
    ensures CdashIndexBuildsPass([SinglePassingSummary(), SinglePassingSummary()]) == (true, "")
    ensures CdashIndexBuildsPass([FailedBuild(), SinglePassingSummary()]) == (false, BuildFailedMessage(FailedBuild()))
    ensures CdashIndexBuildsPass([SinglePassingSummary(), FailedBuild()]) == (false, BuildFailedMessage(FailedBuild()))
  {
  }

  lemma BuildNamesVector()
    ensures GetCDashIndexBuildNames([
      SinglePassingSummary().(buildname := "build1"),
      SinglePassingSummary().(buildname := "build2"),
      SinglePassingSummary().(buildname := "build3")]) == ["build1", "build2", "build3"]
  {
  }

  // Existence gate

  lemma GateFoundVectors()
    ensures DoAllExpectedBuildsExist(["build1"], ["build1"]) == (true, "")
    ensures DoAllExpectedBuildsExist(["build2", "build1"], ["build1", "build2"]) == (true, "")
    ensures DoAllExpectedBuildsExist(["build1", "build2"], ["build1"]) == (true, "")
  {
  }

  lemma ReprVectors()
    ensures ReprList(["build1"]) == "['build1']"
    ensures ReprList(["build1", "build2"]) == "['build1', 'build2']"
  {
    assert Join(QuoteAll(["build1", "build2"]), ", ") == "'build1', 'build2'";
  }

  lemma MissingMessageVectors()
    ensures MissingExpectedBuildMessage("build2", ["build1"])
      == "Error, the expected build 'build2'" + " does not exist in the list of builds ['build1']"
    ensures MissingExpectedBuildMessage("build3", ["build1", "build2"])
      == "Error, the expected build 'build3'" + " does not exist in the list of builds ['build1', 'build2']"
  {
    ReprVectors();
  }

  /** The first missing expected name is reported, whatever follows it. */
  lemma GateMissingVectors()
    ensures DoAllExpectedBuildsExist(["build1"], ["build2"])
      == (false, "Error, the expected build 'build2'" + " does not exist in the list of builds ['build1']")
    ensures DoAllExpectedBuildsExist(["build1"], ["build2", "build1"])
      == (false, "Error, the expected build 'build2'" + " does not exist in the list of builds ['build1']")
    ensures DoAllExpectedBuildsExist(["build1"], ["build1", "build2"])
      == (false, "Error, the expected build 'build2'" + " does not exist in the list of builds ['build1']")
    ensures DoAllExpectedBuildsExist(["build1", "build2"], ["build3"])
      == (false, "Error, the expected build 'build3'" + " does not exist in the list of builds ['build1', 'build2']")
  {
    MissingMessageVectors();
    var e: seq<string> := ["build1", "build2"];
    assert e[1..] == ["build2"];
    assert DoAllExpectedBuildsExist(["build1"], e[1..]) == (false, MissingExpectedBuildMessage("build2", ["build1"]));
  }

  lemma PassAndExistPassVector()
    ensures CdashIndexBuildsPassAndExpectedExist([SinglePassingSummary().(buildname := "build1")], ["build1"]) == (true, "")
  {
    var bs := [SinglePassingSummary().(buildname := "build1")];
    assert GetCDashIndexBuildNames(bs) == ["build1"];
  }

  /** A failing build is reported once every expected build exists. */
  lemma PassAndExistFailVector()
    ensures var b := SinglePassingSummary().(group := "group1", site := "site1", buildname := "build1",
                                             configure := Some(StageStatus(5)));
      CdashIndexBuildsPassAndExpectedExist([b], ["build1"]) == (false, BuildFailedMessage(b))
  {
    var b := SinglePassingSummary().(group := "group1", site := "site1", buildname := "build1",
                                     configure := Some(StageStatus(5)));
    assert GetCDashIndexBuildNames([b]) == ["build1"];
    assert !CdashIndexBuildPasses(b);
  }

  /** A passing build does not hide a missing expected one. */
  lemma PassAndExistMissingVector()
    ensures CdashIndexBuildsPassAndExpectedExist([SinglePassingSummary().(buildname := "build1")], ["build2"])
      == (false, "Error, the expected build 'build2'" + " does not exist in the list of builds ['build1']")
  {
    var bs := [SinglePassingSummary().(buildname := "build1")];
    assert GetCDashIndexBuildNames(bs) == ["build1"];
    MissingMessageVectors();
  }

  /** A missing expected build is reported before the failing build. */
  lemma PassAndExistMissingBeforeFailVector()
    ensures CdashIndexBuildsPassAndExpectedExist([FailedBuild()], ["build2"])
      == (false, DoAllExpectedBuildsExist(["failedBuild"], ["build2"]).1)
  {
    assert GetCDashIndexBuildNames([FailedBuild()]) == ["failedBuild"];
  }

  // Lookup index and matcher

  function Listed(group: string, site: string, buildname: string): Build {
    Build(group, site, buildname, None, None, None, None)
  }

  function ListedBuilds(): seq<Build> {
    [ Listed("group1", "site1", "build1"),
      Listed("group1", "site1", "build2"),
      Listed("group1", "site2", "build3"),
      Listed("group2", "site1", "build1"),
      Listed("group2", "site3", "build4") ]
  }

  /** The nested dictionary the listed builds index into: group, then
      site, then build name. */
  function ListedIndex(): BuildLookup {
    var b := ListedBuilds();
    map["group1" := map["site1" := map["build1" := b[0], "build2" := b[1]],
                        "site2" := map["build3" := b[2]]],
        "group2" := map["site1" := map["build1" := b[3]],
                        "site3" := map["build4" := b[4]]]]
  }

  /** The listed builds inserted one by one, in list order. */
  lemma ListedInsertChain()
    ensures CreateBuildLookupDict(ListedBuilds())
      == Insert(Insert(Insert(Insert(Insert(map[], ListedBuilds()[0]), ListedBuilds()[1]),
                                     ListedBuilds()[2]), ListedBuilds()[3]), ListedBuilds()[4])
  {
    var b := ListedBuilds();
    assert b == [b[0]] + [b[1]] + [b[2]] + [b[3]] + [b[4]];
    CreateSnoc([], b[0]);
    CreateSnoc([b[0]] , b[1]);
    CreateSnoc([b[0]] + [b[1]], b[2]);
    CreateSnoc([b[0]] + [b[1]] + [b[2]], b[3]);
    CreateSnoc([b[0]] + [b[1]] + [b[2]] + [b[3]], b[4]);
  }

  lemma ListedFirstGroup()
    ensures Insert(Insert(Insert(map[], Listed("group1", "site1", "build1")), Listed("group1", "site1", "build2")),
                   Listed("group1", "site2", "build3"))
      == map["group1" := ListedIndex()["group1"]]
  {
    var b0, b1, b2 := Listed("group1", "site1", "build1"), Listed("group1", "site1", "build2"), Listed("group1", "site2", "build3");
    var i1 := Insert(map[], b0);
    assert i1 == map["group1" := map["site1" := map["build1" := b0]]];
    var n2 := map["build1" := b0, "build2" := b1];
    var s2 := map["site1" := n2];
    var i2 := Insert(i1, b1);
    assert i1["group1"]["site1"] == map["build1" := b0];
    assert i1["group1"]["site1" := n2] == s2;
    assert i2 == map["group1" := s2];
    var i3 := Insert(i2, b2);
    assert "site2" !in i2["group1"];
    assert i3 == map["group1" := s2["site2" := map["build3" := b2]]];
  }

  lemma ListedSecondGroup()
    ensures Insert(Insert(map["group1" := ListedIndex()["group1"]], Listed("group2", "site1", "build1")),
                   Listed("group2", "site3", "build4"))
      == ListedIndex()
  {
    var b3, b4 := Listed("group2", "site1", "build1"), Listed("group2", "site3", "build4");
    var first := map["group1" := ListedIndex()["group1"]];
    var s3 := map["site1" := map["build1" := b3]];
    var i4 := Insert(first, b3);
    assert "group2" !in first;
    assert i4 == first["group2" := s3];
    assert "site3" !in i4["group2"];
    assert Insert(i4, b4) == first["group2" := s3["site3" := map["build4" := b4]]];
  }

  /** The whole index is the expected nested dictionary. */
  lemma CreateListedIndexVector()
    ensures CreateBuildLookupDict(ListedBuilds()) == ListedIndex()
  {
    ListedInsertChain();
    ListedFirstGroup();
    ListedSecondGroup();
  }

  /** No two listed builds share a tuple. */
  lemma ListedKeysDistinct()
    ensures forall i, j :: 0 <= i < j < |ListedBuilds()| ==> KeyOf(ListedBuilds()[i]) != KeyOf(ListedBuilds()[j])
  {
  }

  lemma LookupListed(i: nat)
    requires i < |ListedBuilds()|
    ensures LookupBuildSummaryGivenLookupDict(KeyOf(ListedBuilds()[i]), CreateBuildLookupDict(ListedBuilds()))
            == Some(ListedBuilds()[i])
  {
    ListedKeysDistinct();
    LookupFindsBuild(ListedBuilds(), i);
  }

  /** Each listed build is found by its tuple. */
  lemma LookupFoundVectors()
    ensures var idx := CreateBuildLookupDict(ListedBuilds());
      && LookupBuildSummaryGivenLookupDict(BuildKey("group1", "site1", "build1"), idx) == Some(ListedBuilds()[0])
      && LookupBuildSummaryGivenLookupDict(BuildKey("group1", "site1", "build2"), idx) == Some(ListedBuilds()[1])
      && LookupBuildSummaryGivenLookupDict(BuildKey("group1", "site2", "build3"), idx) == Some(ListedBuilds()[2])
      && LookupBuildSummaryGivenLookupDict(BuildKey("group2", "site1", "build1"), idx) == Some(ListedBuilds()[3])
      && LookupBuildSummaryGivenLookupDict(BuildKey("group2", "site3", "build4"), idx) == Some(ListedBuilds()[4])
  {
    LookupListed(0);
    LookupListed(1);
    LookupListed(2);
    LookupListed(3);
    LookupListed(4);
  }

  /** A tuple whose build name, site or group level is missing is not found. */
  lemma LookupMissingBuildnameVector()
    ensures LookupBuildSummaryGivenLookupDict(BuildKey("group2", "site3", "build1"), CreateBuildLookupDict(ListedBuilds())) == None
  {
    var bs := ListedBuilds();
    var key := BuildKey("group2", "site3", "build1");
    assert bs[0].group == "group1" && bs[1].group == "group1" && bs[2].group == "group1";
    assert bs[3].site == "site1" && bs[4].buildname == "build4";
    assert forall i :: 0 <= i < |bs| ==> KeyOf(bs[i]) != key;
    LookupMissesAbsentKey(bs, key);
  }

  lemma LookupMissingSiteVector()
    ensures LookupBuildSummaryGivenLookupDict(BuildKey("group2", "site4", "build1"), CreateBuildLookupDict(ListedBuilds())) == None
  {
    var bs := ListedBuilds();
    assert forall i :: 0 <= i < |bs| ==> bs[i].site in {"site1", "site2", "site3"};
    LookupMissesAbsentKey(bs, BuildKey("group2", "site4", "build1"));
  }

  lemma LookupMissingGroupVector()
    ensures LookupBuildSummaryGivenLookupDict(BuildKey("group3", "site1", "build1"), CreateBuildLookupDict(ListedBuilds())) == None
  {
    var bs := ListedBuilds();
    assert forall i :: 0 <= i < |bs| ==> bs[i].group in {"group1", "group2"};
    LookupMissesAbsentKey(bs, BuildKey("group3", "site1", "build1"));
  }

  /** The report for three expected tuples of which the middle one needs none. */
  lemma MissingOfThree(idx: BuildLookup, k0: BuildKey, k1: BuildKey, k2: BuildKey, m0: MissingBuild, m2: MissingBuild)
    requires Classify(idx, k0) == Some(m0) && Classify(idx, k1) == None && Classify(idx, k2) == Some(m2)
    ensures GetMissingExpectedBuildsList(idx, [k0, k1, k2]) == [m0, m2]
  {
    var expected := [k0, k1, k2];
    assert expected[1..] == [k1, k2] && expected[1..][1..] == [k2];
    assert GetMissingExpectedBuildsList(idx, [k2][1..]) == [];
    assert GetMissingExpectedBuildsList(idx, [k2]) == [m2];
    assert GetMissingExpectedBuildsList(idx, [k1, k2]) == [m2];
  }

  function MatcherBuilds(): seq<Build> {
    ListedBuilds()[4 := ListedBuilds()[4].(test := Some(TestStatus(0, 0)))]
  }

  lemma MatcherFindsUntested()
    ensures Classify(CreateBuildLookupDict(MatcherBuilds()), BuildKey("group1", "site2", "build3"))
      == Some(MissingBuild("group1", "site2", "build3", NoTestResults))
  {
    LookupFindsBuild(MatcherBuilds(), 2);
  }

  lemma MatcherFindsTested()
    ensures Classify(CreateBuildLookupDict(MatcherBuilds()), BuildKey("group2", "site3", "build4")) == None
  {
    LookupFindsBuild(MatcherBuilds(), 4);
  }

  lemma MatcherMissesUnlisted()
    ensures Classify(CreateBuildLookupDict(MatcherBuilds()), BuildKey("group2", "site3", "build8"))
      == Some(MissingBuild("group2", "site3", "build8", NotFound))
  {
    var bs := MatcherBuilds();
    assert bs[0].buildname == "build1" && bs[1].buildname == "build2" && bs[2].buildname == "build3";
    assert bs[3].buildname == "build1" && bs[4].buildname == "build4";
    LookupMissesAbsentKey(bs, BuildKey("group2", "site3", "build8"));
  }

  /** A build without test results and a build not listed are reported, in
      the expected order; the build with test results is not. */
  lemma MatcherVector()
    ensures GetMissingExpectedBuildsList(CreateBuildLookupDict(MatcherBuilds()),
        [BuildKey("group1", "site2", "build3"), BuildKey("group2", "site3", "build4"), BuildKey("group2", "site3", "build8")])
      == [MissingBuild("group1", "site2", "build3", NoTestResults), MissingBuild("group2", "site3", "build8", NotFound)]
  {
    MatcherFindsUntested();
    MatcherFindsTested();
    MatcherMissesUnlisted();
    MissingOfThree(CreateBuildLookupDict(MatcherBuilds()),
      BuildKey("group1", "site2", "build3"), BuildKey("group2", "site3", "build4"), BuildKey("group2", "site3", "build8"),
      MissingBuild("group1", "site2", "build3", NoTestResults), MissingBuild("group2", "site3", "build8", NotFound));
  }

  // From the index payload to the verdict

  /** The raw build the dashboard lists for a summary: the summary's own
      dictionary, group key included. */
  function RawGroupOf(name: string, b: Build): Json {
    JObj(map["name" := JStr(name), "builds" := JList([JObj(ToDict(b))])])
  }

  function TwoGroupPayload(b1: Build, b2: Build): Json {
    JObj(map["buildgroups" := JList([RawGroupOf("group1", b1), RawGroupOf("group2", b2)])])
  }

  lemma SummaryOfOwnDict(b: Build, groupName: string)
    requires b.update.Some? && b.configure.Some? && b.compilation.Some? && b.test.Some?
    ensures CollectCDashIndexBuildSummaryFields(ToDict(b), groupName) == Success(b.(group := groupName))
  {
    var raw := ToDict(b);
    assert raw["site"] == JStr(b.site) && raw["buildname"] == JStr(b.buildname);
    OwnDictStages(b);
    OwnDictTest(b);
  }

  lemma OwnDictStages(b: Build)
    requires b.update.Some? && b.configure.Some? && b.compilation.Some?
    ensures DecodeUpdate(ToDict(b)) == Success(b.update)
    ensures DecodeStage(ToDict(b), "configure") == Success(b.configure)
    ensures DecodeStage(ToDict(b), "compilation") == Success(b.compilation)
  {
  }

  lemma OwnDictTest(b: Build)
    requires b.test.Some?
    ensures DecodeTest(ToDict(b)) == Success(b.test)
  {
    assert ToDict(b)["test"].fields["fail"] == JInt(b.test.value.fail);
  }

  lemma OneRawBuild(d: map<string, Json>)
    ensures DecodeRawBuilds([JObj(d)]) == Success([d])
  {
    var items := [JObj(d)];
    assert items[1..] == [];
    assert DecodeRawBuilds(items[1..]) == Success([]);
    assert [d] + [] == [d];
  }

  lemma GroupOfOwnDict(name: string, b: Build)
    ensures DecodeRawGroup(RawGroupOf(name, b)) == Success(RawGroup(name, [ToDict(b)]))
  {
    OneRawBuild(ToDict(b));
    var item := RawGroupOf(name, b);
    assert item.fields["name"] == JStr(name);
    assert item.fields["builds"] == JList([JObj(ToDict(b))]);
  }

  lemma OneBuildGroup(name: string, b: Build)
    requires b.update.Some? && b.configure.Some? && b.compilation.Some? && b.test.Some?
    ensures SummarizeBuilds(name, [ToDict(b)]) == Success([b.(group := name)])
  {
    var raws := [ToDict(b)];
    SummaryOfOwnDict(b, name);
    assert raws[1..] == [];
    assert SummarizeBuilds(name, raws[1..]) == Success([]);
    assert [b.(group := name)] + [] == [b.(group := name)];
  }

  lemma TwoGroups(g1: RawGroup, g2: RawGroup, b1: Build, b2: Build)
    requires SummarizeBuilds(g1.name, g1.builds) == Success([b1])
    requires SummarizeBuilds(g2.name, g2.builds) == Success([b2])
    ensures SummarizeGroups([g1, g2]) == Success([b1, b2])
  {
    var gs := [g1, g2];
    var tail := [g2];
    assert gs[1..] == tail;
    assert tail[1..] == [];
    assert SummarizeGroups(tail[1..]) == Success([]);
    assert [b2] + [] == [b2];
    assert SummarizeGroups(tail) == Success([b2]);
    assert [b1] + [b2] == [b1, b2];
  }

  lemma TwoGroupDecode(b1: Build, b2: Build)
    ensures DecodeBuildGroups(TwoGroupPayload(b1, b2))
      == Success([RawGroup("group1", [ToDict(b1)]), RawGroup("group2", [ToDict(b2)])])
  {
    GroupOfOwnDict("group1", b1);
    GroupOfOwnDict("group2", b2);
    var items := [RawGroupOf("group1", b1), RawGroupOf("group2", b2)];
    var tail := [RawGroupOf("group2", b2)];
    assert items[1..] == tail;
    assert tail[1..] == [];
    assert DecodeRawGroups(tail[1..]) == Success([]);
    var r2 := RawGroup("group2", [ToDict(b2)]);
    assert [r2] + [] == [r2];
    assert DecodeRawGroups(tail) == Success([r2]);
    assert [RawGroup("group1", [ToDict(b1)])] + [r2] == [RawGroup("group1", [ToDict(b1)]), r2];
    assert TwoGroupPayload(b1, b2).fields["buildgroups"] == JList(items);
  }

  /** Every build of a two-group payload is summarized under its group. */
  lemma TwoGroupSummary(b1: Build, b2: Build)
    requires b1.update.Some? && b1.configure.Some? && b1.compilation.Some? && b1.test.Some?
    requires b2.update.Some? && b2.configure.Some? && b2.compilation.Some? && b2.test.Some?
    ensures GetCDashIndexBuildsSummary(TwoGroupPayload(b1, b2)) == Success([b1.(group := "group1"), b2.(group := "group2")])
  {
    TwoGroupDecode(b1, b2);
    OneBuildGroup("group1", b1);
    OneBuildGroup("group2", b2);
    TwoGroups(RawGroup("group1", [ToDict(b1)]), RawGroup("group2", [ToDict(b2)]), b1.(group := "group1"), b2.(group := "group2"));
  }

  /** With both expected names present, the verdict on a two-group payload
      is the pass/fail verdict on its two summaries. */
  lemma QueryTwoGroups(b1: Build, b2: Build)
    requires b1.update.Some? && b1.configure.Some? && b1.compilation.Some? && b1.test.Some?
    requires b2.update.Some? && b2.configure.Some? && b2.compilation.Some? && b2.test.Some?
    requires b1.buildname == "build1" && b2.buildname == "build2"
    ensures QueryCDashAndDeterminePassFail(TwoGroupPayload(b1, b2), ["build1", "build2"])
      == Success(CdashIndexBuildsPass([b1.(group := "group1"), b2.(group := "group2")]))
  {
    TwoGroupSummary(b1, b2);
    var bs := [b1.(group := "group1"), b2.(group := "group2")];
    BothNamesExist(bs);
    assert CdashIndexBuildsPassAndExpectedExist(bs, ["build1", "build2"]) == CdashIndexBuildsPass(bs);
  }

  lemma BothNamesExist(bs: seq<Build>)
    requires |bs| == 2 && bs[0].buildname == "build1" && bs[1].buildname == "build2"
    ensures DoAllExpectedBuildsExist(GetCDashIndexBuildNames(bs), ["build1", "build2"]).0
  {
    var names := GetCDashIndexBuildNames(bs);
    assert names[0] == "build1" && names[1] == "build2";
  }

  lemma TwoPassing(bs: seq<Build>)
    requires |bs| == 2 && CdashIndexBuildPasses(bs[0]) && CdashIndexBuildPasses(bs[1])
    ensures CdashIndexBuildsPass(bs) == (true, "")
  {
  }

  lemma PassingSummaryPasses(name: string, group: string)
    ensures CdashIndexBuildPasses(SinglePassingSummary().(buildname := name, group := group))
  {
  }

  /** Two passing builds, both expected: the verdict is a pass. */
  lemma QueryPassVector()
    ensures var b1 := SinglePassingSummary().(buildname := "build1");
      var b2 := SinglePassingSummary().(buildname := "build2");
      QueryCDashAndDeterminePassFail(TwoGroupPayload(b1, b2), ["build1", "build2"]) == Success((true, ""))
  {
    var b1 := SinglePassingSummary().(buildname := "build1");
    var b2 := SinglePassingSummary().(buildname := "build2");
    QueryTwoGroups(b1, b2);
    PassingSummaryPasses("build1", "group1");
    PassingSummaryPasses("build2", "group2");
    TwoPassing([b1.(group := "group1"), b2.(group := "group2")]);
  }

  /** The second build has tests not run: the verdict names it, with the
      group of the payload rather than the one its raw record carries. */
  lemma QueryFailVector()
    ensures var b1 := SinglePassingSummary().(buildname := "build1");
      var b2 := SinglePassingSummary().(buildname := "build2", test := Some(TestStatus(0, 2)));
      QueryCDashAndDeterminePassFail(TwoGroupPayload(b1, b2), ["build1", "build2"])
        == Success((false, BuildFailedMessage(b2.(group := "group2"))))
  {
    var b1 := SinglePassingSummary().(buildname := "build1");
    var b2 := SinglePassingSummary().(buildname := "build2", test := Some(TestStatus(0, 2)));
    QueryTwoGroups(b1, b2);
    var bs := [b1.(group := "group1"), b2.(group := "group2")];
    assert CdashIndexBuildPasses(bs[0]) && !CdashIndexBuildPasses(bs[1]);
  }

  // The HTML table

  /** One column, one row, the default style block and empty table
      attributes: the table opens with a bare `<table >`. */
  lemma HtmlOneByOneVector()
    ensures var head := "<style>" + DefaultHtmlStyle + "</style>\n" + "<h3>" + "My great data" + "</h3>\n"
          + "<table " + "" + ">\n\n" + "<tr>\n" + "<th>Data 1</th>\n" + "</tr>\n\n";
      var body := "<tr>\n" + "<td align=\"left\">data1</td>\n" + "</tr>\n\n";
      CreateHtmlTableStr("My great data", [LeftColumn("key1", "Data 1")], [map["key1" := Str("data1")]], None, Some(""))
        == Success(head + body + "</table>\n")
  {
    var c := LeftColumn("key1", "Data 1");
    var row: Row := map["key1" := Str("data1")];
    OneHeaderCell(c);
    OneDataCell(c, row);
    OneRowHtml([c], row);
    assert HeaderCell(c) == "<th>Data 1</th>\n";
    assert DataCell(c, Str("data1")) == "<td align=\"left\">data1</td>\n";
  }

  lemma ThreeHeaderCells(a: TableColumnData, b: TableColumnData, c: TableColumnData)
    ensures HeaderCells([a, b, c]) == HeaderCell(a) + HeaderCell(b) + HeaderCell(c)
  {
    assert [a, b, c] == [a] + ([b] + [c]);
    HeaderCellsConcat([a], [b] + [c]);
    HeaderCellsConcat([b], [c]);
    OneHeaderCell(a);
    OneHeaderCell(b);
    OneHeaderCell(c);
  }

  lemma ThreeDataCells(a: TableColumnData, b: TableColumnData, c: TableColumnData, row: Row)
    requires a.dictKey in row && b.dictKey in row && c.dictKey in row
    ensures HasColumns([a, b, c], row)
    ensures DataCells([a, b, c], row).value
      == DataCell(a, row[a.dictKey]) + DataCell(b, row[b.dictKey]) + DataCell(c, row[c.dictKey])
  {
    var cols := [a, b, c];
    assert cols == [a] + ([b] + [c]);
    assert cols[0] == a && cols[1] == b && cols[2] == c;
    DataCellsConcat([a], [b] + [c], row);
    DataCellsConcat([b], [c], row);
    OneDataCell(a, row);
    OneDataCell(b, row);
    OneDataCell(c, row);
  }

  lemma ThreeRowsHtml(cols: seq<TableColumnData>, r1: Row, r2: Row, r3: Row)
    requires HasColumns(cols, r1) && HasColumns(cols, r2) && HasColumns(cols, r3)
    ensures RowsHtml(cols, [r1, r2, r3]).Success?
    ensures RowsHtml(cols, [r1, r2, r3]).value
      == RowHtml(cols, r1).value + RowHtml(cols, r2).value + RowHtml(cols, r3).value
  {
    assert [r1, r2, r3] == [r1] + ([r2] + [r3]);
    RowsHtmlConcat(cols, [r1], [r2] + [r3]);
    RowsHtmlConcat(cols, [r2], [r3]);
    OneRowHtml(cols, r1);
    OneRowHtml(cols, r2);
    OneRowHtml(cols, r3);
  }

  /** The columns of the three-by-three table: listed out of key order, the
      last one right-aligned over integer data. */
  function ThreeColumns(): seq<TableColumnData> {
    [LeftColumn("key3", "Data 3"), LeftColumn("key1", "Data 1"), TableColumnData("key2", "Data 2", "right")]
  }

  function TableRow(d1: string, d2: int, d3: string): Row {
    map["key1" := Str(d1), "key2" := Int(d2), "key3" := Str(d3)]
  }

  /** One row of the three-by-three table: the cells follow the column
      order, not the keys', and the integer is shown in decimal. */
  lemma ThreeColumnRow(d1: string, d2: int, d3: string)
    ensures RowHtml(ThreeColumns(), TableRow(d1, d2, d3))
      == Success("<tr>\n"
           + (("<td align=\"left\">" + d3 + "</td>\n")
              + ("<td align=\"left\">" + d1 + "</td>\n")
              + ("<td align=\"right\">" + IntToDecimal(d2) + "</td>\n"))
           + "</tr>\n\n")
  {
    ThreeColumnCells(d1, d2, d3);
  }

  lemma ThreeColumnCells(d1: string, d2: int, d3: string)
    ensures DataCells(ThreeColumns(), TableRow(d1, d2, d3))
      == Success(("<td align=\"left\">" + d3 + "</td>\n")
              + ("<td align=\"left\">" + d1 + "</td>\n")
              + ("<td align=\"right\">" + IntToDecimal(d2) + "</td>\n"))
  {
    var cols := ThreeColumns();
    var row := TableRow(d1, d2, d3);
    ThreeDataCells(cols[0], cols[1], cols[2], row);
    assert [cols[0], cols[1], cols[2]] == cols;
    ThreeColumnCellTexts(d1, d2, d3);
  }

  lemma ThreeColumnCellTexts(d1: string, d2: int, d3: string)
    ensures var cols, row := ThreeColumns(), TableRow(d1, d2, d3);
      && DataCell(cols[0], row[cols[0].dictKey]) == "<td align=\"left\">" + d3 + "</td>\n"
      && DataCell(cols[1], row[cols[1].dictKey]) == "<td align=\"left\">" + d1 + "</td>\n"
      && DataCell(cols[2], row[cols[2].dictKey]) == "<td align=\"right\">" + IntToDecimal(d2) + "</td>\n"
  {
  }

  lemma SmallDecimals()
    ensures IntToDecimal(1) == "1" && IntToDecimal(2) == "2" && IntToDecimal(3) == "3"
  {
  }

  /** The three-by-three table with a custom style block and the default
      table attributes. */
  lemma HtmlThreeByThreeVector()
    ensures var head := "<style>" + "my_style" + "</style>\n" + "<h3>" + "My great data" + "</h3>\n"
          + "<table " + "style=\"width:100%\"" + ">\n\n"
          + "<tr>\n" + ("<th>Data 3</th>\n" + "<th>Data 1</th>\n" + "<th>Data 2</th>\n") + "</tr>\n\n";
      var row1 := "<tr>\n" + (("<td align=\"left\">" + "r1d3" + "</td>\n") + ("<td align=\"left\">" + "r1d1" + "</td>\n")
          + ("<td align=\"right\">" + "1" + "</td>\n")) + "</tr>\n\n";
      var row2 := "<tr>\n" + (("<td align=\"left\">" + "r2d3" + "</td>\n") + ("<td align=\"left\">" + "r2d1" + "</td>\n")
          + ("<td align=\"right\">" + "2" + "</td>\n")) + "</tr>\n\n";
      var row3 := "<tr>\n" + (("<td align=\"left\">" + "r3d3" + "</td>\n") + ("<td align=\"left\">" + "r3d1" + "</td>\n")
          + ("<td align=\"right\">" + "3" + "</td>\n")) + "</tr>\n\n";
      CreateHtmlTableStr("My great data", ThreeColumns(),
                         [TableRow("r1d1", 1, "r1d3"), TableRow("r2d1", 2, "r2d3"), TableRow("r3d1", 3, "r3d3")],
                         Some("my_style"), None)
        == Success(head + (row1 + row2 + row3) + "</table>\n")
  {
    var cols := ThreeColumns();
    var r1, r2, r3 := TableRow("r1d1", 1, "r1d3"), TableRow("r2d1", 2, "r2d3"), TableRow("r3d1", 3, "r3d3");
    ThreeHeaderCells(cols[0], cols[1], cols[2]);
    assert [cols[0], cols[1], cols[2]] == cols;
    assert HeaderCell(cols[0]) == "<th>Data 3</th>\n";
    assert HeaderCell(cols[1]) == "<th>Data 1</th>\n";
    assert HeaderCell(cols[2]) == "<th>Data 2</th>\n";
    SmallDecimals();
    ThreeColumnRow("r1d1", 1, "r1d3");
    ThreeColumnRow("r2d1", 2, "r2d3");
    ThreeColumnRow("r3d1", 3, "r3d3");
    ThreeRowsHtml(cols, r1, r2, r3);
  }
}
